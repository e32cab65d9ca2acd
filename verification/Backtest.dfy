/** src/tradingplatform/simulation/backtest.py: the engine object, driving the broker, the OMS and
    the portfolio through a list of bars, proved to follow BacktestModel. */
module Backtest {
  import opened Core
  import opened Ledgers
  import opened SimModel
  import opened SimBroker
  import opened Risk
  import opened OmsModel
  import opened Oms
  import opened Portfolio
  import opened BacktestModel

  class BacktestEngine {
    const sim: SimBroker
    const oms: OMS
    const portfolio: PortfolioTracker
    var nOrders: nat
    var nFills: nat
    ghost var state: World

    constructor (config: SimConfig, limits: RiskLimits)
      ensures Valid() && sim.config == config && oms.risk.limits == limits && state == NewWorld(config)
      ensures fresh(Footprint())
    {
      var broker := new SimBroker(config, MODE);
      var risk := new RiskEngine(limits);
      sim := broker;
      oms := new OMS(broker, risk);
      portfolio := new PortfolioTracker(config.startingCash);
      nOrders, nFills := 0, 0;
      state := NewWorld(config);
    }

    ghost function Footprint(): set<object>
      reads this, sim, oms, portfolio
    {
      {this, sim, oms, oms.risk, portfolio} + sim.cells + sim.objects + oms.cells + portfolio.cells
    }

    /** The parts are wired as the engine wires them, hold the abstract state, and share nothing
        but the order objects. Uuids at or above the order count are unused. */
    ghost predicate Valid()
      reads this, Footprint()
    {
      && oms.broker == sim && sim.mode == MODE && oms.Valid() && portfolio.Valid()
      && oms.state == state.oms && portfolio.state == state.trk && nOrders == state.nOrders && nFills == state.nFills
      && portfolio.cells !! oms.cells && portfolio.cells !! sim.cells && oms.cells !! sim.cells
      && forall id :: id in sim.known ==> id < nOrders
    }

    /** One fill, to the OMS and the portfolio. */
    method ForwardFill(f: Fill)
      requires Valid()
      modifies Footprint() - {sim} - sim.cells, sim`state
      ensures Valid() && state == Forwarded(old(state), f) && fresh(Footprint() - old(Footprint()))
      ensures sim.known == old(sim.known) && sim.cells == old(sim.cells)
    {
      hide PortfolioTracker.Valid, OMS.Valid, FilledOms, Settled;
      oms.OnFill(f);
      assert portfolio.Valid();
      portfolio.ApplyFill(f);
      assert oms.Valid();
      nFills := nFills + 1;
      state := Forwarded(state, f);
    }

    /** The broker resolves its pending orders against the bar. */
    method TickBroker(bar: Bar) returns (fills: seq<Fill>)
      requires Valid()
      modifies sim, sim.cells, sim.objects, oms`state, this`state
      ensures Valid() && fresh(Footprint() - old(Footprint())) && sim.known == old(sim.known)
      ensures Coherent(old(state)) && fills == BarFills(sim.config, old(state), bar)
      ensures state == old(state).(oms := old(state.oms).(sim := Ticked(sim.config, old(state).oms.sim, bar.Quote())))
    {
      hide PortfolioTracker.Valid, Ticked, Emitted;
      fills := sim.Tick(bar.Quote());
      oms.BrokerTicked();
      assert portfolio.Valid();
      state := state.(oms := oms.state);
    }

    method ForwardFills(fills: seq<Fill>)
      requires Valid()
      modifies Footprint() - {sim} - sim.cells, sim`state
      ensures Valid() && fresh(Footprint() - old(Footprint())) && sim.known == old(sim.known)
      ensures state == ForwardedAll(old(state), fills)
    {
      hide PortfolioTracker.Valid, OMS.Valid, Forwarded;
      for i := 0 to |fills|
        invariant Valid() && fresh(Footprint() - old(Footprint())) && sim.known == old(sim.known)
        invariant sim.cells == old(sim.cells)
        invariant state == ForwardedAll(old(state), fills[..i])
      {
        assert fills[..i + 1] == fills[..i] + [fills[i]];
        ForwardedAllSnoc(old(state), fills[..i], fills[i]);
        ForwardFill(fills[i]);
      }
      assert fills[..|fills|] == fills;
    }

    method TickBar(bar: Bar)
      requires Valid()
      modifies Footprint()
      ensures Valid() && fresh(Footprint() - old(Footprint())) && sim.known == old(sim.known)
      ensures Coherent(old(state)) && state == BarTicked(sim.config, old(state), bar)
    {
      hide PortfolioTracker.Valid, OMS.Valid, ForwardedAll, Ticked, Emitted, Swept;
      var fills := TickBroker(bar);
      ForwardFills(fills);
    }

    /** The position the rule sizes against. */
    method CurrentQty(i: Instrument) returns (qty: real)
      requires Valid()
      ensures qty == Held(state.trk.positions, i).qty
    {
      qty := if i.key in portfolio.positions then portfolio.positions[i.key].qty else 0.0;
    }

    method SubmitOrder(t: Ticket, now: real)
      requires Valid() && t.id == nOrders && t.mode == MODE
      modifies Footprint()
      ensures Valid() && fresh(Footprint() - old(Footprint()))
      ensures Coherent(old(state))
      ensures state == old(state).(oms := Submitted(sim.config, oms.risk.limits, MODE, old(state).oms, NewOrder(t), now),
                                   nOrders := old(state).nOrders + 1)
    {
      hide PortfolioTracker.Valid, OMS.Valid, SimBroker.Valid, Submitted, NewOrder;
      oms.OrdersAreKnown();
      var order := new Order(t);
      oms.Submit(order, now);
      oms.OrdersAreKnown();
      assert portfolio.Valid();
      CountOrder();
    }

    /** The OMS has filed one more order. */
    method CountOrder()
      requires oms.broker == sim && sim.mode == MODE && oms.Valid() && portfolio.Valid()
      requires portfolio.state == state.trk && nOrders == state.nOrders && nFills == state.nFills
      requires portfolio.cells !! oms.cells && portfolio.cells !! sim.cells && oms.cells !! sim.cells
      requires forall id :: id in sim.known ==> id <= nOrders
      modifies this`nOrders, this`state
      ensures Valid() && state == old(state).(oms := oms.state, nOrders := old(nOrders) + 1)
    {
      hide PortfolioTracker.Valid, OMS.Valid, SimBroker.Valid;
      nOrders := nOrders + 1;
      assert oms.Valid() && portfolio.Valid();
      state := state.(oms := oms.state, nOrders := nOrders);
    }

    method HandleCue(cue: Cue)
      requires Valid()
      modifies Footprint()
      ensures Valid() && fresh(Footprint() - old(Footprint()))
      ensures Coherent(old(state)) && state == Cued(sim.config, oms.risk.limits, old(state), cue)
    {
      hide PortfolioTracker.Valid, OMS.Valid, SimBroker.Valid, Submitted;
      IsCoherent();
      var sig := cue.signal;
      var curQty := CurrentQty(sig.instrument);
      if sig.score > 0.0 && curQty <= 0.0 {
        SubmitOrder(Ticket(nOrders, sig.instrument, Buy, 10.0 + Abs(curQty), Market, None, None, MODE), cue.now);
      } else if sig.score < 0.0 && curQty > 0.0 {
        SubmitOrder(Ticket(nOrders, sig.instrument, Sell, curQty, Market, None, None, MODE), cue.now);
      }
    }

    method HandleCues(cues: seq<Cue>)
      requires Valid()
      modifies Footprint()
      ensures Valid() && fresh(Footprint() - old(Footprint()))
      ensures Coherent(old(state)) && state == CuedAll(sim.config, oms.risk.limits, old(state), cues)
    {
      hide PortfolioTracker.Valid, Cued, Valid;
      ghost var w := state;
      IsCoherent();
      for i := 0 to |cues|
        invariant Valid() && fresh(Footprint() - old(Footprint()))
        invariant state == CuedAll(sim.config, oms.risk.limits, w, cues[..i])
      {
        assert cues[..i + 1][..i] == cues[..i];
        HandleCue(cues[i]);
      }
      assert cues[..|cues|] == cues;
    }

    lemma IsCoherent()
      requires Valid()
      ensures Coherent(state)
    {
    }

    method Mark(bar: Bar)
      requires Valid()
      modifies portfolio`history, portfolio`state, this`state
      ensures Valid() && Footprint() == old(Footprint()) && state == BarMarked(old(state), bar)
    {
      hide OMS.Valid, Marked;
      portfolio.Mark(bar.ts, map[bar.instrument.key := bar.close]);
      assert oms.Valid();
      state := BarMarked(state, bar);
    }

    /** One bar: fills, then signals, then the mark. */
    method RunBar(step: Step)
      requires Valid()
      modifies Footprint()
      ensures Valid() && fresh(Footprint() - old(Footprint()))
      ensures Coherent(old(state)) && state == BarRun(sim.config, oms.risk.limits, old(state), step)
    {
      hide Valid, BarTicked, CuedAll, BarMarked;
      TickBar(step.bar);
      HandleCues(step.cues);
      Mark(step.bar);
    }

    /** The backtest, bar by bar. A second call goes on from where the first one, over the steps
        `earlier`, ended. */
    method Run(steps: seq<Step>, ghost earlier: seq<Step>)
      requires Valid() && state == BacktestModel.Backtest(sim.config, oms.risk.limits, earlier)
      modifies Footprint()
      ensures Valid() && state == BacktestModel.Backtest(sim.config, oms.risk.limits, earlier + steps)
    {
      hide Valid, BarRun, BacktestModel.Backtest;
      ghost var ran := earlier;
      for i := 0 to |steps|
        invariant Valid() && fresh(Footprint() - old(Footprint()))
        invariant state == BacktestModel.Backtest(sim.config, oms.risk.limits, ran) && ran == earlier + steps[..i]
      {
        RunBar(steps[i]);
        BacktestSnoc(sim.config, oms.risk.limits, ran, steps[i]);
        ran := ran + [steps[i]];
      }
      assert steps[..|steps|] == steps;
    }

    /** The result: the return leads from the starting cash to the last point of the curve, and from a
        starting cash of zero the source raises. */
    method Report() returns (r: BacktestResult)
      requires Valid() && (state.trk.history != [] ==> state.trk.startingCash != 0.0)
      ensures r.startingCash == state.trk.startingCash && r.curve == state.trk.history
      ensures r.nOrders == state.nOrders && r.nFills == state.nFills
      ensures r.finalEquity == if r.curve == [] then r.startingCash else r.curve[|r.curve| - 1].equity
      ensures r.startingCash * (1.0 + r.totalReturn) == r.finalEquity
    {
      var curve := portfolio.history;
      var final := if curve == [] then portfolio.startingCash else curve[|curve| - 1].equity;
      var gain := portfolio.TotalReturn();
      return BacktestResult(portfolio.startingCash, final, gain, nOrders, nFills, curve);
    }
  }

  datatype BacktestResult = BacktestResult(startingCash: real, finalEquity: real, totalReturn: real, nOrders: nat, nFills: nat,
                                           curve: seq<EquityPoint>)

  lemma BacktestSnoc(cfg: SimConfig, limits: RiskLimits, steps: seq<Step>, step: Step)
    ensures BacktestModel.Backtest(cfg, limits, steps + [step])
            == BarRun(cfg, limits, BacktestModel.Backtest(cfg, limits, steps), step)
  {
    assert (steps + [step])[..|steps|] == steps;
  }
}
