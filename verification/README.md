# simtrader: a verified model

This project models the two stateful cores of simtrader and proves what they keep over whole runs.

**The trading core** (`src/tradingplatform`). `Position.apply` is the accounting routine under three
ledgers: the simulated broker's, the order manager's and the portfolio tracker's. `SimBroker` is an
order book with latency, partial fills, cancels, slippage and fees; `OMS` puts the risk engine in
front of it; `BacktestEngine` closes the loop from bars to fills to signals to orders;
`ExecutorAgent` turns a target portfolio into child orders; `zscore_mean_reversion` scores prices.

**The session and identity store** (`workers/src`). Sessions live in a key-value store with a
per-user index that makes them revocable; lifecycle events erase a member and may be delivered in
part and again; the sign-in callback verifies a token once and remembers its id.

Where the source updates objects in place the model does too: each such component is a class whose
methods are proved to follow a state machine on values (`SimModel`, `OmsModel`, `BacktestModel`, and
the specification functions beside the other classes), and the theorems are about that machine, over
every run. The broker and the order manager share their order objects here as there.

Arithmetic is exact: `Decimal` and `float` are `real`. Clock readings, uuids, random tokens, the
strategy's answers, the identity provider's answers and the moment a Worker dies are inputs.

## Where the code does not do what one would expect

Each of these is a theorem; the code is modelled as it is.

- Broker and OMS both add every fill to the one shared order record, so in a backtest a record shows
  twice what was traded, though its average price is the true one (`SharedRecord.BacktestsDoubleBook`).
  An executed order has traded what was ordered if and only if no per-bar cap is set below its
  quantity (`SharedRecord.ExecutedAsOrdered`, with the run `BookedSchedule.TenUnderSixTradesFour`);
  without a cap no order ever reads FILLED (`SharedRecord.NeverReadsFilled`).
- The equity curve marks only the current bar's instrument. With several instruments its last point is
  the portfolio's worth, wherever the others are priced, if and only if nothing is held in them
  (`SelfFinancing.PointIsRightIff`, with the run `MarkedCurve.BarOfAnotherIsShort`).
- `max_qty_per_symbol` looks at filled positions only. Whatever honest fills come next, the position
  stays within the limit if and only if there is room for everything still to come
  (`Exposure.SafeIffRoom`), and there is room throughout a run if and only if each order fits beside
  that when it is submitted (`Exposure.RoomThroughoutIff`). The gate does not check this. One order at
  a time per instrument is a sufficient habit (`Exposure.ExposureBound`); two orders of 60 under a
  limit of 100 end at 120 (`Exposure.TwoLiveOrdersBreach`).
- The kill-switch halts new orders, does not flatten positions as ARCHITECTURE.md says, and is not for
  good: queued orders still fill, and the profit they realise counts. From a trip with any queue no
  order is sent until a quote fills an order queued at the trip and lifts the profit above the limit
  (`KillSwitch.HoldsUntilLifted`); a run in which one does is `LiftedSwitch.QueuedSaleLiftsSwitch`.
  With nothing queued the switch is absorbing (`KillSwitch.KillSwitchAbsorbs`), and so it is, without a
  cap, with a queue that only opens or adds to positions (`OpeningQueue.OpeningQueueHolds`).
- A cancelled order keeps its status (`OrderTheorems.CancelledStaysSilent`). An order object may be
  placed again. If it is not queued then and something of it is left, everything stays in order
  (`Replacing.GuardedRunsAreOrderly`). If it is still queued or has nothing left, and only then, it can
  come to emit an empty fill (`EmptyFills.AgainEmptiesIff`); quantities and average stay true even so
  (`Replacing.WideRunsTally`).
- The strategy remembers 200 closes. A slow window above that never signals
  (`SmaCross.SlowBeyondMemoryIsMute`); with a slow window it can fill, the direction is that of the
  whole history for every history if and only if the fast window fits as well
  (`SmaCross.MemorySufficesIff`).
- An erasure that dies between the transaction and the audit row is never put on record
  (`IdentityEvents.ErasureIsOnRecordIff`); a member an administrator has deleted is acknowledged as
  unknown and not erased (`IdentityEvents.SoftDeletedIsNotErased`); and the audit trail still names an
  erased user in a row's detail if and only if a suspension or revocation had been through before
  (`ErasureTrace.NamedIffSuspendedBefore`).
- `/start` keeps any `next` that starts with a slash, and two slashes name another host. A sign-in leads
  to this site if and only if the `next` its flow was started with was absent, was dropped for want of a
  slash, or leads to this site by itself (`SignIn.DestinationOnSiteIff`, with the run
  `SignIn.DestinationMayLeave`).
- The `jti` memory alone is one clock tick short: a token verified in its last second and looked up in
  the next is not recognised (`SignIn.ReplayedIff`). The run that shows it
  (`SignIn.LateLookupSlipsThrough`) repeats a nonce, which `/start` never issues twice, so it is
  unreachable and only measures this second guard by itself; one-time flows with fresh nonces let a
  token sign in once whatever the clock does (`SignIn.TokenSignsInOnce`).

## Definitions read back

A few lemmas only say a definition again in a form that is easier to read, and are not results:
`Risk.PassedIff` and `Risk.VerdictSaysWhy` (what passing the gates takes, and what a refusal says),
`OrderTheorems.MatchTerms` (when an order trades, on which side of the price, for which fee),
`BacktestModel.OrderAims` (where the signal rule leads), `IdTokens.SignInsAreNotEvents` and
`IdTokens.RetriedIffKeysUnavailable` (how tokens are told apart and a refusal is answered).

## Files

| files | component |
|---|---|
| Core, Totals | value types, the shared order object, sums |
| Positions, Ledgers, Portfolio | the accounting routine, a dictionary of positions, the tracker |
| SimModel, SimBroker, OrderLife, OrderTheorems, TickTerms, Replacing, EmptyFills | the broker: state machine, class, per-order view, whole-run theorems, orders placed again |
| Risk, OmsModel, Oms, OwnRecord | the risk engine and the order manager |
| BacktestModel, Backtest, LedgerTheorems, CurrencyCash, BacktestOrders, SharedRecord, BookedSchedule, SelfFinancing, MarkedCurve, Discipline, SmaCross, SignalFollowing | the backtest and the strategy |
| KillSwitch, LiftedSwitch, OpeningQueue, RateLimit, Exposure, LimitQueue | the kill-switch, the rate and the per-symbol limit over whole runs |
| Executor, Rebalancing, Scoring | the executor, where its orders lead, and the score |
| Sessions, Accounts, IdentityEvents, EventEffects, ErasureTrace, Bystanders, IdTokens, SignIn, SignInRules | the Worker |

`dafny verify dfyconfig.toml` checks everything.

## Model

| member | source | states |
|---|---|---|
| Core.Order.constructor | src/tradingplatform/core/orders.py:47-75 | a new order is NEW, unfilled, without an average price or a broker id |
| Positions.Traded | src/tradingplatform/core/positions.py:45-78 | the position after a signed trade is one that accounts for it: money in and out is conserved, only reducing realises profit, a reduction keeps the average, a flip reopens at the trade price, flat means no average |
| Positions.AccountsIsFunctional | src/tradingplatform/core/positions.py:45-78 | those rules leave exactly one possible position, so they determine the four-way update completely |
| Positions.ByCasesAccounts | src/tradingplatform/core/positions.py:53-78 | the open/add, reduce, close and flip branches, with weighted average and closing quantity, obey those rules for every position, quantity and price |
| Positions.Position.Apply | src/tradingplatform/core/positions.py:45-78 | the in-place update computes that one position |
| Positions.AccountsCompose | src/tradingplatform/core/positions.py:45-78 | two same-side slices at one price account for the single summed trade, even if the first closes or flips the position |
| Positions.TwoSlices | src/tradingplatform/core/positions.py:45-78 | applying two same-side slices at one price equals applying their sum |
| Positions.SlicingInvariance | src/tradingplatform/core/positions.py:45-78 | any list of same-side slices at one price gives exactly the quantity, average and realised profit of the single summed trade, from any starting position |
| Ledgers.Post | src/tradingplatform/core/positions.py:45-78 | setdefault then apply, on a dictionary of position objects: the book afterwards is the book with that one trade posted, all other positions untouched |
| Ledgers.PostedCarry | src/tradingplatform/core/positions.py:51-78 | a fill moves realised profit less cost of holdings, summed over all positions, by exactly its cash flow before fees |
| Ledgers.PostedAllCarry | src/tradingplatform/portfolio/tracker.py:28-35 | the same over any list of fills and instruments |
| Ledgers.CarryIsMinusNotional | src/tradingplatform/core/positions.py:45-78 | per position, realised profit minus quantity times average price is minus the signed notional of all its fills, through opens, adds, reductions, closes and flips |
| Ledgers.AccountingIdentity | src/tradingplatform/portfolio/tracker.py:28-44 | for every fill sequence and every marking that covers the positions: cash plus market value is starting cash less fees plus realised and unrealised profit |
| Portfolio.Pay | src/tradingplatform/portfolio/tracker.py:31-35 | a purchase costs notional plus fees, a sale brings notional less fees |
| Portfolio.PortfolioTracker.ApplyFill | src/tradingplatform/portfolio/tracker.py:28-35 | cash and positions move by the one fill |
| Portfolio.AddMarked | src/tradingplatform/portfolio/tracker.py:38-43 | the marking loop adds the market value of every position that has a mark, and of no other, in whatever order |
| Portfolio.PortfolioTracker.Mark | src/tradingplatform/portfolio/tracker.py:37-44 | one equity point is appended: cash plus marked positions |
| Portfolio.PortfolioTracker.TotalReturn | src/tradingplatform/portfolio/tracker.py:46-51 | starting cash grown by the return is the last equity point; no history means no return |
| Portfolio.SettledAllParts | src/tradingplatform/portfolio/tracker.py:28-35 | any list of fills moves cash by the sum of its flows and the positions by its posting |
| Portfolio.EquityIsProfitLessFees | src/tradingplatform/portfolio/tracker.py:28-44 | every equity point of a fully marked portfolio is starting cash, less fees, plus realised and unrealised profit |
| SimBroker.Execute | src/tradingplatform/brokers/sim.py:194-206 | the order part of a fill, on the shared object: quantity, running average, FILLED or PARTIALLY_FILLED |
| SimBroker.SimBroker.constructor | src/tradingplatform/brokers/sim.py:66-79 | an empty queue, no positions, and the starting cash in the base currency |
| SimBroker.SimBroker.PlaceOrder | src/tradingplatform/brokers/sim.py:95-103 | an order of another mode is refused and changes nothing; any other becomes SENT with a new broker id and joins the queue's end with the configured latency |
| SimBroker.SimBroker.CancelOrder | src/tradingplatform/brokers/sim.py:105-108 | exactly the queue entries with that broker id go; the order's record is untouched |
| SimBroker.SimBroker.ApplyFill | src/tradingplatform/brokers/sim.py:194-219 | order, position and cash of the fill's currency all move by the one fill |
| SimBroker.PayCurrency | src/tradingplatform/brokers/sim.py:212-219 | the cash branch in the fill's own currency, starting from zero if there was none |
| SimBroker.SimBroker.VisitOrder | src/tradingplatform/brokers/sim.py:132-148 | one turn of the matching loop: other instruments wait, latency counts down, a match is booked, a filled order leaves |
| SimBroker.SimBroker.MatchAll | src/tradingplatform/brokers/sim.py:129-148 | the whole matching loop over the order objects, the rebuilt queue and the emitted fills |
| SimBroker.SimBroker.Tick | src/tradingplatform/brokers/sim.py:122-153 | a tick computes the state machine's next state and returns what it emitted; an unpriced quote changes nothing |
| OrderLife.TickedIsPerOrder | src/tradingplatform/brokers/sim.py:132-153 | a tick acts on each order's record, wait and fills independently of all other queued orders |
| TickTerms.TickFillsExactly | src/tradingplatform/brokers/sim.py:122-217 | to the last figure: of another instrument or without a price a tick leaves an order alone; else a waiting order comes nearer its turn, and one whose turn it is trades if its kind and limit let it, at the last price or else the middle of bid and ask, with slippage or at its limit, for what remains up to the cap and for the larger fee; its record grows by that fill and it leaves the queue if filled |
| OrderLife.RunIsPerOrder | src/tradingplatform/brokers/sim.py:95-153 | a whole run of placing, cancelling and ticking, seen from one order, is that order's own run |
| OrderTheorems.ExecutedAverage | src/tradingplatform/brokers/sim.py:196-206 | a positive fill keeps average times filled quantity equal to the sum of price times quantity |
| OrderTheorems.VisitConserves | src/tradingplatform/brokers/sim.py:132-148 | a tick keeps one order's conservation and true average |
| OrderTheorems.RunsAreOrderly | src/tradingplatform/brokers/sim.py:95-153 | in every run that places each order object once, for every order: 0 <= filled <= qty, filled is the sum of its strictly positive fills, FILLED iff filled = qty, no filled order is queued, and the average is the volume-weighted one |
| Replacing.WideRunsTally | src/tradingplatform/brokers/sim.py:95-153 | in every run, with order objects placed again at will, queued or filled: filled is the sum of fills that are not negative, never exceeds qty, and the average is the volume-weighted one |
| Replacing.GuardedRunsAreOrderly | src/tradingplatform/brokers/sim.py:95-153 | with order objects placed again only while not queued and with something left: every fill is positive, FILLED means exactly filled, no filled order is queued, and all that WideRunsTally says, over any run from any such state |
| EmptyFills.EmptyFillComes | src/tradingplatform/brokers/sim.py:132-148 | an order with a place in the queue to spare (one if nothing is left of it, two otherwise) emits an empty fill after some ticks of its instrument at a price at which it trades, whatever its waits and the cap |
| EmptyFills.AgainEmptiesIff | src/tradingplatform/brokers/sim.py:95-148 | placing a market or limit order's object again can lead to an empty fill of it, with everything after placed with care, iff it is still queued or has nothing left |
| OrderTheorems.FinishedStaysSilent | src/tradingplatform/brokers/sim.py:132-148 | an order out of the queue never changes and never emits again |
| OrderTheorems.CancelledStaysSilent | src/tradingplatform/brokers/sim.py:105-108 | a cancelled order never trades again, and keeps the status it had |
| OrderTheorems.FilledByAll | src/tradingplatform/brokers/sim.py:172-174 | capped slices reach the ordered quantity after exactly ceil(qty / cap) of them, each the smaller of the cap and what is left |
| OrderTheorems.CompletionTime | src/tradingplatform/brokers/sim.py:122-153 | a market order emits nothing for its latency in priced ticks of its own instrument, then those slices, and is FILLED exactly from its (latency + ceil(qty / cap))-th such tick on; other ticks do not count |
| OrderTheorems.LedgersFollow | src/tradingplatform/brokers/sim.py:150-153 | the fill queue is the concatenation of everything emitted, and positions and cash are those of the same fills in that order |
| OrderTheorems.LimitOrderIsOneTrade | src/tradingplatform/brokers/sim.py:160-174 | however the cap cuts it, an uninterrupted limit order leaves the position of one trade at its limit |
| OrderTheorems.LimitAverage | src/tradingplatform/brokers/sim.py:160-167 | from its first fill on, a limit order's average price is exactly its limit |
| Risk.RiskEngine.Check | src/tradingplatform/risk/gates.py:51-95 | the gates in order, the verdict, and what the window list becomes: untouched before the rate gate, pruned there, and grown by the attempt if a slot is free |
| Risk.OldTimesAreForgotten | src/tradingplatform/risk/gates.py:78-84 | once the rate is looked at no time a minute back or more is kept, and until then nothing is forgotten |
| Risk.Prune | src/tradingplatform/risk/gates.py:80-81 | exactly the timestamps after the cutoff remain, in order |
| Risk.PruningForgetsNothing | src/tradingplatform/risk/gates.py:79-84 | over any sequence of checks with a non-decreasing clock, the pruned list answers every later question as the full history would |
| Risk.RateLimitHolds | src/tradingplatform/risk/gates.py:78-93 | no half-open minute ever holds more slots than the limit; orders stopped by the kill-switch take slots too |
| Risk.PassedOrdersPerMinute | src/tradingplatform/risk/gates.py:78-95 | no half-open minute ever lets more orders pass than the limit |
| RateLimit.SlotsPerMinute | src/tradingplatform/risk/gates.py:78-84 | the limit where it is enforced: over any run of the OMS with submits in clock order, quotes and fills, in every half-open minute the submits that take a slot, by sending their order or by reaching a tripped kill-switch, are within the limit |
| RateLimit.SentPerMinute | src/tradingplatform/risk/gates.py:78-84 | so no half-open minute of a run sees more orders sent than the limit |
| RateLimit.RefusedForRateIff | src/tradingplatform/risk/gates.py:78-84 | an order that clears the gates before is refused for its rate iff the slots taken in the run less than a minute ago fill the limit, although the engine has forgotten the older ones |
| RateLimit.BacktestIsHosted | src/tradingplatform/simulation/backtest.py:60-112 | every backtest is such a run, of its bars as quotes and its orders as submits, so rate limit, kill-switch and profit hold in it |
| RateLimit.ChildrenAreHosted | src/tradingplatform/agents/executor.py:83-84 | and so is what the executor submits |
| Risk.ClosedMinuteMayHoldMore | src/tradingplatform/risk/gates.py:80-83 | the minute has to be half-open: orders exactly 60 seconds apart both pass a limit of one |
| OmsModel.BothBookAlike | src/tradingplatform/oms/manager.py:43-53 | the OMS books one fill on a record of its own exactly as the broker does, average included |
| OwnRecord.BookkeepersAgree | src/tradingplatform/oms/manager.py:43-53 | over any list of fills, on_fill and _apply_fill, each on its own record, leave equal records |
| OwnRecord.OwnRecordIsTrue | src/tradingplatform/oms/manager.py:41-53 | over any list of positive fills the OMS's own record holds their quantity, average times quantity is the sum of price times quantity, and FILLED means they add up to the order |
| Oms.OMS.constructor | src/tradingplatform/oms/manager.py:20-25 | no orders and no positions, over a broker that has met no orders, with whatever the risk engine remembers |
| Oms.OMS.Submit | src/tradingplatform/oms/manager.py:27-39 | risk first: a failed order is kept as REJECTED and never reaches the broker, a passed one is placed; either way it is on file |
| OmsModel.SubmitFiles | src/tradingplatform/oms/manager.py:26-39 | a new order is sent under a new broker id and queued last, or rejected and only kept; nothing trades and no other record changes |
| Oms.OMS.OnFill | src/tradingplatform/oms/manager.py:41-61 | the order, if known, and the position move by the fill, and the risk engine's profit becomes the sum over all positions |
| Oms.SumRealised | src/tradingplatform/oms/manager.py:59-61 | the summing loop gives the realised profit of all positions, in whatever order |
| Backtest.BacktestEngine.constructor | src/tradingplatform/simulation/backtest.py:36-49 | broker, OMS and portfolio start empty with the same cash |
| Backtest.BacktestEngine.ForwardFills | src/tradingplatform/simulation/backtest.py:70-74 | every fill of a bar reaches the OMS and the portfolio once, in order |
| Backtest.BacktestEngine.HandleCue | src/tradingplatform/simulation/backtest.py:78-108 | the signal-to-order rule: flat or short and a positive score buys 10 plus the short, long and a negative score sells it all, anything else is skipped |
| Backtest.BacktestEngine.RunBar | src/tradingplatform/simulation/backtest.py:60-112 | tick, fills, signals, orders and mark, in that order |
| Backtest.BacktestEngine.Run | src/tradingplatform/simulation/backtest.py:51-112 | the loop over all bars computes the state machine's run; a second call continues the first |
| Backtest.BacktestEngine.Report | src/tradingplatform/simulation/backtest.py:113-126 | the result: the last point of the curve or the starting cash, the return that leads from one to the other, both counters, the curve |
| LedgerTheorems.CashPostedAllTotal | src/tradingplatform/brokers/sim.py:212-219 | whatever the currencies, the broker's cash moves in total by the flows of the fills |
| CurrencyCash.CashByCurrency | src/tradingplatform/brokers/sim.py:212-219 | currency by currency: cash moves by the flows of the fills in that currency, and the currencies held are those there were and those of the fills |
| CurrencyCash.RunsPayInOwn | src/tradingplatform/brokers/sim.py:95-219 | so over any run of the broker, from any state |
| CurrencyCash.BacktestsPayInOwn | src/tradingplatform/simulation/backtest.py:60-112 | so after every backtest: starting cash in the base currency, and each currency what the fills of its own instruments brought |
| LedgerTheorems.CountersAreExact | src/tradingplatform/simulation/backtest.py:73-108 | n_fills is the number of fills emitted and n_orders the number of orders ever made, rejected ones included |
| LedgerTheorems.LedgersAgree | src/tradingplatform/simulation/backtest.py:60-112 | after every bar of every backtest the three ledgers hold the same positions, the tracker's cash is the broker's over all currencies, and the risk engine judges by the profit the positions have realised |
| BacktestOrders.BarTickedLife | src/tradingplatform/simulation/backtest.py:68-74 | a bar acts on each order independently, booking each of its fills twice on the shared record |
| SharedRecord.RealTotalIsOrdered | src/tradingplatform/brokers/sim.py:172-174 | what an executed order really trades in a backtest is positive, never more than ordered, and the ordered quantity iff one bar can fill it whole |
| SharedRecord.BacktestsDoubleBook | src/tradingplatform/oms/manager.py:43-53 | between any two bars of any backtest every order's record shows twice what it traded, so it reads FILLED exactly at half, while its average is the true average of what it traded; queued orders have traded only full slices, executed ones the real total |
| SharedRecord.ExecutedAsOrdered | src/tradingplatform/simulation/backtest.py:68-108 | an executed order of a backtest traded what was ordered iff no cap is set below its quantity; otherwise less |
| SharedRecord.NeverReadsFilled | src/tradingplatform/oms/manager.py:44-53 | without a cap no order of a backtest ever reads FILLED: executed ones stay PARTIALLY_FILLED at twice their quantity |
| BookedSchedule.BookedCompletion | src/tradingplatform/simulation/backtest.py:68-108 | an order queued at any step of any backtest fills one slice a bar of its instrument once its latency is over, and leaves the queue exactly with the (latency + full slices + 1)-th such bar |
| BookedSchedule.TenUnderSixTradesFour | src/tradingplatform/brokers/sim.py:172-206 | the concrete loss: in a backtest of three bars an order of 10 under a cap of 6 is done after trading 4 |
| SelfFinancing.EquityStep | src/tradingplatform/simulation/backtest.py:60-112 | with consecutive bars of one instrument, each equity point is the previous one plus quantity held times price change, less the bar's execution costs; any strategy, limits, latency and cap |
| SelfFinancing.FirstPoint | src/tradingplatform/simulation/backtest.py:110-118 | the curve starts at the starting cash |
| SelfFinancing.CurveIsDated | src/tradingplatform/simulation/backtest.py:110-112 | one point a bar, dated by the bar, and never rewritten |
| SelfFinancing.SelfFinancingRun | src/tradingplatform/simulation/backtest.py:60-118 | final equity of a single-instrument run is starting cash plus holding gains less execution costs |
| SelfFinancing.BookedBarCosts | src/tradingplatform/brokers/sim.py:172-192 | in any backtest, capped or not, every fill of every bar costs exactly its slippage and its fees, which are never negative; the fill is positive, with a cost of at least zero, iff its order's shared record shows something remaining |
| SelfFinancing.BarCosts | src/tradingplatform/brokers/sim.py:172-192 | without a cap every fill of every bar costs exactly its slippage and fees, and neither is negative |
| SelfFinancing.RunCostsNotNegative | src/tradingplatform/simulation/backtest.py:60-112 | so the costs of a whole uncapped run are never negative |
| SelfFinancing.PointMissesOthers | src/tradingplatform/simulation/backtest.py:110-112 | with several instruments each point falls short of the portfolio's worth by exactly the other instruments' positions |
| SelfFinancing.PointIsRightIff | src/tradingplatform/simulation/backtest.py:110-112 | the last point is the portfolio's worth, wherever the other instruments are priced, iff nothing is held in them |
| MarkedCurve.BarOfAnotherIsShort | src/tradingplatform/simulation/backtest.py:110-112 | the concrete miss: frictionless, ten of one instrument bought at 10, then a bar of another; its point is 100 below the portfolio's worth |
| Discipline.SweptWhole | src/tradingplatform/brokers/sim.py:132-148 | without cap and latency a tick empties the queue of its instrument, filling those orders whole, and leaves the rest as it was |
| Discipline.BacktestsAreDisciplined | src/tradingplatform/simulation/backtest.py:60-112 | without cap and latency and with at most one signal per bar for its instrument, every instrument is always flat or long 10 with at most the one queued order that toggles it, whatever risk rejects |
| Discipline.FlatOrLongTen | src/tradingplatform/simulation/backtest.py:78-108 | so after every bar every position is 0 or 10, never short |
| SmaCross.SmaCrossStrategy.OnBar | src/tradingplatform/strategies/examples/sma_cross.py:21-43 | the strategy's memory and answer to a bar |
| SmaCross.MemoryIsTheLast | src/tradingplatform/strategies/examples/sma_cross.py:22-33 | over any bars the memory is the last 200 closes per instrument and the last direction signalled |
| SmaCross.BoundedMemorySuffices | src/tradingplatform/strategies/examples/sma_cross.py:18-35 | for windows up to 200 each bar is answered as with the whole history: by comparing the means of the last `fast` and the last `slow` closes, once there are enough closes and if the direction is new |
| SmaCross.MemorySufficesIff | src/tradingplatform/strategies/examples/sma_cross.py:18-30 | with a slow window of at most 200, the kept closes give the direction of the whole history, for every history, iff the fast window is at most 200 too |
| SmaCross.SlowBeyondMemoryIsMute | src/tradingplatform/strategies/examples/sma_cross.py:18-25 | a slow window above 200 never signals at all |
| SmaCross.SignalsAlternate | src/tradingplatform/strategies/examples/sma_cross.py:30-33 | for each instrument the signals alternate between +1 and -1 |
| SmaCross.SmaBacktestIsFlatOrLongTen | src/tradingplatform/strategies/examples/sma_cross.py:21-43 | so the demo backtest is always flat or long 10 per instrument, on any bars |
| SignalFollowing.SignalsAreFollowed | src/tradingplatform/simulation/backtest.py:78-108 | where risk stops nothing, uncapped and without latency: after every bar, what is held of an instrument with what is queued for it is ten if its last non-zero score was positive, and else nothing |
| SignalFollowing.SignalsAreHeld | src/tradingplatform/simulation/backtest.py:60-112 | and one bar of the instrument later, with nothing new to say, that is what is held |
| SignalFollowing.SmaHoldsWhatCrossedUp | src/tradingplatform/strategies/examples/sma_cross.py:27-43 | so the demo backtest is long ten, or about to be, exactly of the instruments whose last crossing was upwards |
| KillSwitch.HoldsUntilLifted | src/tradingplatform/risk/gates.py:86-93 | from a trip with any queue, over any run of orders and quotes: the switch holds and nothing is sent until a quote fills an order queued at the trip and so lifts the profit above the limit |
| KillSwitch.SentOnlyIfLifted | src/tradingplatform/risk/gates.py:86-93 | a run from a trip that sends an order, or ends with the switch released, contains such a fill |
| KillSwitch.KillSwitchAbsorbs | src/tradingplatform/risk/gates.py:86-93 | tripped with nothing queued, no sequence of orders and quotes ever sends, fills, or changes a position, cash or the profit again |
| OpeningQueue.OpeningQueueHolds | src/tradingplatform/risk/gates.py:86-93 | from a trip whose queued orders trade neither against the position held nor against one another, without a cap, no run ever releases the switch or sends an order, though the queue may fill |
| OpeningQueue.RunsAreBooked | src/tradingplatform/oms/manager.py:58-61 | the day's profit is in every run the sum realised by the positions, as that takes it to be |
| LiftedSwitch.QueuedSaleLiftsSwitch | src/tradingplatform/oms/manager.py:58-61 | a run from the start: a loss of 100 trips the switch and an order is stopped; a sale queued before the trip fills and brings the profit to 100; the next order passes and is sent |
| Exposure.FillMoves | src/tradingplatform/oms/manager.py:41-58 | an honest fill moves its quantity from what is to come of its side to what is held |
| Exposure.WorstCase | src/tradingplatform/oms/manager.py:41-58 | some honest fills trade everything still to come on one side and nothing else |
| Exposure.SafeIffRoom | src/tradingplatform/risk/gates.py:62-69 | with any number of live orders, every sequence of honest fills keeps the position within the limit iff held plus all remaining buys, and held less all remaining sells, are within it |
| Exposure.StepKeepsRoomIff | src/tradingplatform/risk/gates.py:62-69 | of submissions, fills and ended orders only sending an order can use up that room, and it leaves room iff the order fits beside what is still to come |
| Exposure.RoomThroughoutIff | src/tradingplatform/risk/gates.py:62-69 | there is room in every state of a run iff each order that reaches the broker fits when it is submitted |
| Exposure.GateSufficesWhenIdle | src/tradingplatform/risk/gates.py:62-69 | with nothing still to come on the instrument, passing the gate is fitting |
| Exposure.ExposureBound | src/tradingplatform/risk/gates.py:62-69 | so with one order at a time per instrument a position that starts within the limit stays within it, between partial fills, through flips, and under whatever honest fills come next |
| Exposure.TwoLiveOrdersBreach | src/tradingplatform/risk/gates.py:62-69 | a run of OMS and simulated broker from nothing: two orders of 60, both passed under a limit of 100, and a price that fills both, end at 120 |
| Executor.SliceNumber | src/tradingplatform/agents/executor.py:88-95 | the number of chunks is the smallest whose total covers the quantity |
| Executor.Slices | src/tradingplatform/agents/executor.py:88-95 | that many chunks, each positive and at most the chunk size, adding up to the quantity; none for a quantity that is not positive |
| Executor.Split | src/tradingplatform/agents/executor.py:88-95 | the splitting loop ends and computes those chunks |
| Executor.ExecutorAgent.Collect | src/tradingplatform/agents/executor.py:49-82 | the planning loop: skips keys without a mark, within one unit, or without a known instrument; a zero mark raises before anything is sent |
| Executor.ExecutorAgent.Reconcile | src/tradingplatform/agents/executor.py:34-85 | an unsupported plan or a zero mark is an error that changes nothing; otherwise every child is on file as the object returned, rejected or sent, the sent ones queued last in their order under new broker ids, everything older as it was; with limits off, all are sent |
| Executor.TicketIds | src/tradingplatform/agents/executor.py:72-82 | the children are distinct orders |
| Executor.TicketsAreChildren | src/tradingplatform/agents/executor.py:72-82 | they are market orders of the broker's mode, at most a chunk each, of what is held |
| Executor.AllLodged | src/tradingplatform/agents/executor.py:83-84 | after any list of submissions with new ids each is on file, untraded, rejected or sent; the sent ones are queued last, once each and in their order, under consecutive broker ids; older records and entries are as they were, and nothing has traded |
| Executor.UnlimitedAreSent | src/tradingplatform/agents/executor.py:83-84 | with the limits off and slots for all, all are sent |
| Rebalancing.TradedIsFilled | src/tradingplatform/agents/executor.py:72-85 | whatever fills the children get, counting them by fill and by child agrees |
| Rebalancing.PlanOrders | src/tradingplatform/agents/executor.py:49-82 | on each planned instrument the children sum to exactly the distance to the target, all on its side; nothing is ordered elsewhere |
| Rebalancing.NeverOvershoots | src/tradingplatform/agents/executor.py:49-85 | however far a broker gets with the children, each planned position lies between where it was and its target |
| Rebalancing.ReachesTarget | src/tradingplatform/agents/executor.py:55-59 | with every child filled, each planned position with a mark and a known instrument is within one unit of its target, and exactly on it if anything was ordered |
| Rebalancing.SecondPassIsSilent | src/tradingplatform/agents/executor.py:49-59 | then reconciling again with the same plan, marks and equity orders nothing |
| Scoring.Cauchy | src/tradingplatform/research/scoring.py:61 | the square of a sum is at most the count times the sum of squares |
| Scoring.Samuelson | src/tradingplatform/research/scoring.py:59-68 | for every lookback of n prices the squared deviation of the last is at most n - 1 variances, that is z^2 <= n - 1 |
| Scoring.TenNeverClamp | src/tradingplatform/research/scoring.py:70-72 | with a lookback of ten or fewer the clamp never engages |
| Scoring.SpikeAttains | src/tradingplatform/research/scoring.py:59-68 | the bound is attained at every length |
| Scoring.ElevenMayClamp | src/tradingplatform/research/scoring.py:70-72 | at every lookback of eleven or more some prices need the clamp, so ten is the exact threshold |
| Scoring.ScoreSign | src/tradingplatform/research/scoring.py:56-73 | the score is the last price's distance from the mean of the last `window` prices, or of all when there are fewer, in thirds of a standard deviation, upside down and no further than one: positive below the mean, negative above it, zero on it |
| Scoring.ScoreLooksBack | src/tradingplatform/research/scoring.py:59 | whatever prices came before the last `window`, the score is what those score by themselves, under any window that holds them |
| Scoring.AffineInvariance | src/tradingplatform/research/scoring.py:56-73 | replacing p by a p + b leaves the score unchanged for a > 0 and negates it for a < 0 |
| Sessions.SessionStore.CreateSession | workers/src/lib/session.ts:16-35 | the session lives for its day, and the index is extended by the token and lives an hour longer |
| Sessions.SessionStore.ValidateSession | workers/src/lib/session.ts:37-53 | valid iff live and naming a user and a role; missing fields default to no second factor |
| Sessions.SessionStore.DestroySession | workers/src/lib/session.ts:55-67 | a live session goes, and its user's index is rewritten without it, or goes when empty |
| Sessions.SessionStore.DestroyAllUserSessions | workers/src/lib/session.ts:69-74 | every indexed session and the index itself go |
| Sessions.RunsStayRevocable | workers/src/lib/session.ts:16-74 | after any run of atomic operations with fresh tokens, and at any later time, each live session is in its user's live index, which expires no earlier and names nobody else's session |
| Sessions.DestroyAllIsExact | workers/src/lib/session.ts:69-74 | ending all sessions of a user leaves that user none, now or later, and every other user's exactly as they were |
| Sessions.DestroyIsExact | workers/src/lib/session.ts:55-67 | ending one session ends that one and no other, and takes it out of its user's index, which goes with its last entry and else is left without an expiry; other indexes are untouched |
| Sessions.SessionsLastADay | workers/src/lib/session.ts:4-7 | whatever is live was created less than a day ago, by a sign-in of that user and role |
| Sessions.LiveIff | workers/src/lib/session.ts:16-74 | a created session can be read iff it is less than a day old and neither it nor all its user's sessions have been ended since, over any run; and what is read is what was created |
| Sessions.ReusedTokenIsNotOwn | workers/src/lib/session.ts:27-32 | fresh tokens are needed: a reused one lets one user's revocation end another's session, since expired tokens stay in the index |
| Accounts.Database.EraseUser | workers/src/routes/identity-events.ts:42-53 | the transaction: the user, and by cascade identities, broker tokens and actions, go; audit rows stay, pointing at nobody and without the address |
| Accounts.ErasingKeepsIntegrity | alembic/versions/0003_audit_log.py:25-26 | no foreign key dangles after an erasure |
| IdentityEvents.IdentityReceiver.ApplyIdentityEvent | workers/src/lib/identity-events.ts:66-90 | sessions, then rows, then the audit trail, from whatever step the Worker dies at |
| IdentityEvents.IdentityReceiver.ReceiveIdentityEvent | workers/src/lib/identity-events.ts:93-103 | a token that is turned away changes nothing and is answered with its status; any other is applied |
| EventEffects.AnsweredEventSignsOut | workers/src/lib/identity-events.ts:66-90 | whatever the event: once a delivery to a linked member answers, that member has no session left, now or later, and everybody else's sessions and index entries are as they were |
| EventEffects.AnsweredSuspensionMeans | workers/src/lib/identity-events.ts:84-89 | a suspension or revocation that answers has written one row that says which it was and of whom, and changed nothing else in the database |
| EventEffects.AnsweredDeletionMeans | workers/src/lib/identity-events.ts:73-81 | a deletion that answers has taken exactly the member's user row, identities, tokens and actions, made every audit row about them anonymous and left all others, and written one row that names nobody |
| EventEffects.ErasureIsExact | workers/src/routes/identity-events.ts:42-53 | the transaction takes the user's rows and nobody else's |
| EventEffects.DyingDeliverySparesOthers | workers/src/lib/identity-events.ts:66-90 | wherever a delivery dies it has touched nobody else, and before the transaction no row at all |
| EventEffects.EventIsTheTokens | workers/src/lib/identity-events.ts:20-24 | the event is of the token's issuer and subject, and of the kind it names |
| EventEffects.HowTokensAreReceived | workers/src/lib/identity-events.ts:43-64 | 503 exactly when only the keys were missing, 401 for any other refusal, 400 for a good token without a known event |
| IdentityEvents.ErasureIsAllOrNothing | workers/src/routes/identity-events.ts:42-53 | over any run of deliveries that may die anywhere, with anything but a sign-in or unlinking of that member in between, the member is untouched until a delivery reaches the transaction and gone from then on |
| IdentityEvents.AnsweredMeansGone | workers/src/lib/identity-events.ts:14-16 | once a delivery of the deletion answers, no user, identity, token or action row and no live session of the member is left, earlier audit rows are all there, point at the member no more and have lost the address; every further delivery answers unknown_member and changes nothing |
| IdentityEvents.DeliveriesEraseOnce | workers/src/routes/identity-events.ts:42-53 | with deliveries only, however many and wherever they die, the database in the end is that of one erasure |
| IdentityEvents.ErasureIsOnRecordIff | workers/src/lib/identity-events.ts:76-80 | over any run, with anything else in between, the deliveries together write the erasure's audit row once if the one that erased did not die before writing it, and else nothing: resending does not make up for it |
| ErasureTrace.NamedAfterErasureIff | workers/src/lib/identity-events.ts:73-89 | over any run of deliveries of any of the member's events, dying anywhere, that reaches the erasure: the user is gone, and some audit row's detail still names them iff a delivery up to then had left such a row |
| ErasureTrace.NamedIffSuspendedBefore | workers/src/lib/identity-events.ts:84-89 | that is, the provider's event ids aside, iff a suspension or revocation had been through before the erasing transaction |
| Bystanders.SessionsMeanwhile | workers/src/lib/session.ts:16-74 | somebody else's sign-in session, any sign-out and any revocation may happen between deliveries |
| Bystanders.LoggingMeanwhile | workers/src/routes/identity-events.ts:44-49 | so may audit rows about users that are there, the member's own acts included |
| Bystanders.RowsMeanwhile | alembic/versions/0008_signal_actions.py:26 | so may new broker tokens and signal actions of users that are there |
| Bystanders.OthersEventMeanwhile | workers/src/lib/identity-events.ts:66-90 | so may another member's events, erasure included, dying anywhere |
| Bystanders.OthersSignInMeanwhile | workers/src/routes/budgetapp-auth.ts:97-238 | so may another member's whole callback, provisioning included, however it ends |
| IdentityEvents.ErasesIffLinked | workers/src/lib/identity-events.ts:70-77 | a completed delivery leaves no user row iff there was none or the member was still linked to it |
| IdentityEvents.SoftDeletedIsNotErased | workers/src/routes/admin/users.ts:184-199 | after an administrator's deletion the provider's event is answered unknown_member, and the user's row, tokens, actions and addresses stay |
| EventEffects.SoftDeletionMeans | workers/src/routes/admin/users.ts:184-199 | an administrator's deletion ends that user's sessions and nobody else's, unlinks the identities, replaces the email, marks the user deleted, and puts who did it on the trail; all other rows stay |
| IdTokens.Candidates | workers/src/lib/sso-jwt.ts:236-240 | exactly the keys of the right type, algorithm and id |
| IdTokens.VerifyIdToken | workers/src/lib/sso-jwt.ts:190-254 | the checks in order, and the first failure's reason |
| IdTokens.AcceptedIff | workers/src/lib/sso-jwt.ts:196-254 | a token is accepted iff it is readable, of the right kind, algorithm, issuer and audience, in its window with a minute of leeway, for the nonce asked for, and signed by one of the issuer's keys of that algorithm that its header does not rule out |
| IdTokens.RefusalsSayWhy | workers/src/lib/sso-jwt.ts:196-254 | a refusal's reason is the first check it fails, in the source's order, and the three reasons about keys are told apart |
| SignIn.SignInDesk.Start | workers/src/routes/budgetapp-auth.ts:64-81 | a visitor already signed in goes to the dashboard, an unconfigured deployment refuses, and else a flow is remembered for ten minutes with its nonce and the wanted `next`, if it starts with a slash |
| SignIn.SignInDesk.HandleCallback | workers/src/routes/budgetapp-auth.ts:97-238 | the callback's steps, refusals and effects, from the provider's error and missing parameters to the destination, with every clock reading explicit |
| SignIn.TokenSignsInOnce | workers/src/routes/budgetapp-auth.ts:109-113 | with fresh nonces a given token, with or without a jti, completes at most one sign-in over any run |
| SignIn.JtiSignInsAreApart | workers/src/routes/budgetapp-auth.ts:149-155 | whatever the nonces, two sign-ins with one jti are apart: the second's lookup comes no earlier than a minute after the first token's exp |
| SignIn.TokenIdSignsInOnce | workers/src/routes/budgetapp-auth.ts:149-155 | so a token with a jti completes at most one sign-in, nonces aside, if the lookup comes before exp + 60 |
| SignIn.ReplayedIff | workers/src/routes/budgetapp-auth.ts:149-155 | a proven token shown again is refused as replayed iff its jti is looked up before the remembered key expires |
| SignIn.LateLookupSlipsThrough | workers/src/routes/budgetapp-auth.ts:145-154 | what the jti memory alone would miss, on an input the start handler never produces since it repeats a nonce: verified at exp + 59, looked up at exp + 60, the token signs in a second time |
| SignIn.SignedInMeans | workers/src/routes/budgetapp-auth.ts:157-222 | a sign-in used up an open flow, its token was proven for it, the session is that of the user the (iss, sub) maps to with that user's role, and the user is active |
| SignInRules.SignsInIff | workers/src/routes/budgetapp-auth.ts:98-206 | a callback signs in iff it is configured, without error, has code and state, finds its flow open, its token verifies for the flow and has not been used, and the member, if known, has an active account |
| SignInRules.RefusalsSayWhy | workers/src/routes/budgetapp-auth.ts:97-155 | each refusal before the account is looked at is given iff its reason is the first there is |
| SignInRules.SignInOpens | workers/src/routes/budgetapp-auth.ts:106-234 | a sign-in uses up the flow, remembers the token's id to a minute past its expiry, creates one session of the member's user and role for a day and lists it in the index, with the token's methods and its authentication time or else its issue time, and leads where the flow wanted or to the user's home |
| SignInRules.SignInRecords | workers/src/routes/budgetapp-auth.ts:157-211 | in the database it gives the account the token's email, makes a plain active account of a new member, and writes a login after any provisioning, and nothing else |
| SignInRules.RefusalLeaves | workers/src/routes/budgetapp-auth.ts:98-206 | a refusal creates no session and no audit row, uses up the flow it found, and touches account and memory only if the account was the reason |
| SignInRules.FlowIsOpenIff | workers/src/routes/budgetapp-auth.ts:70-113 | over any run a started flow is open for ten minutes, to the first callback that comes for it and to no other, with the nonce it was started with and its `next` if that starts with a slash |
| SignInRules.NotStartedIsNotOpen | workers/src/routes/budgetapp-auth.ts:110-113 | no flow is open that was not started |
| SignIn.DestinationOnSiteIff | workers/src/routes/budgetapp-auth.ts:78 | a sign-in after any run leads to a path of this site iff the `next` given when its flow was last started was absent, did not start with a slash, or is itself a path a browser keeps on this site |
| SignIn.DestinationMayLeave | workers/src/routes/budgetapp-auth.ts:233-234 | the concrete case: a flow started with a `next` of two slashes and another host signs in and leads there |
| SignIn.MappingIsStable | workers/src/routes/budgetapp-auth.ts:159-202 | over any run of sign-ins a member stays the same user, no two members share one whatever their emails, and nobody's role or status changes |

## Left out

- Rounding: 28-digit `Decimal` and `float` arithmetic, and the final rounding of scores to four digits. The identities are stated for exact numbers; the square root in the score enters as a non-negative number whose square is the variance.
- Division by zero: `Position.apply` guards its divisor, and the model's total division gives the same zero there. An order's average divides by its filled quantity, which is positive after any fill of the broker driven directly (`OrderTheorems.RunsAreOrderly`) and in backtests (`SharedRecord.BacktestsDoubleBook`, `SharedRecord.RealTotalIsOrdered`), so the value given to a zero divisor is never reached there. Where callers can bring one about (marks, starting cash, window lengths) the model demands a non-zero value or returns the error.
- Identifiers: uuids are numbers compared for equality. Orders are found through a dictionary from id to object, where the broker's queue holds the references themselves; queue entries are rebuilt with a smaller wait where the source decrements them in place.
- Instruments are their dictionary key and their currency; fills have no id, venue or time.
- `_last_price` of the broker, which nothing reads, and `get_account`, `get_positions` and the streaming interface.
- The library sort that merges bars: a run takes the merged list. The strategy's answer to a bar is an arbitrary input, except for the moving-average strategy.
- STOP and STOP_LIMIT matching and currency conversion, which the simulator does not model either.
- `_split` with a chunk that is not positive does not end in the source; the model demands a positive one, as it does of the per-bar cap in the theorems about capped orders.
- Executor.ExecutorAgent.Reconcile: child orders are built when they are submitted and not while the plan is walked, because nothing can see them in between.
- Exposure.ExposureBound: the OMS's record is the only one of an order, as with a broker that keeps its own; on the record shared with the simulated broker the remaining quantity is not what is left to trade.
- OrderTheorems.RunsAreOrderly: each order object is placed once; `Replacing.GuardedRunsAreOrderly` has the runs that place one again with care, and `EmptyFills.AgainEmptiesIff` says what care it takes.
- Oms.OMS.constructor: a broker that already holds orders placed past the OMS is not covered.
- `momentum_score`: a clamped ratio.
- The Saxo and IBKR adapters, market-data providers, the research client, settings and the command line: stubs, network and files.
- All pages, routing, cookies and the administration routes other than the deletion of a user: thin wrappers over queries.
- Signature algorithms, key import, the key-set cache, base64 and JSON parsing: a token is unreadable or given by its parts and the set of keys it verifies under. Numeric dates are whole seconds.
- Concurrency in the key-value store: each session operation is atomic, and a callback's steps are not interleaved with another's. Nothing is claimed about interleavings.
- The grant that withholds UPDATE on `audit_log` from the application role: the erasing transaction is assumed to be allowed.
- SignIn.SignInDesk.HandleCallback: the display copy of the name and the list of authentication methods in the audit detail are not modelled, and the ways the code exchange can fail are one.
- Wall-clock columns of the database (`created_at`, `last_seen_at`, `last_login_at`) and tables that no user row owns.
