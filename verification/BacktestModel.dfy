/** src/tradingplatform/simulation/backtest.py as a state machine: bars in, fills to three
    ledgers, signals to orders, and a mark. What the strategy answers is arbitrary input. */
module BacktestModel {
  import opened Core
  import opened Ledgers
  import opened SimModel
  import opened Risk
  import opened OmsModel
  import opened Portfolio

  datatype Bar = Bar(instrument: Instrument, ts: int, close: real)
  {
    function Quote(): Quote {
      Core.Quote(instrument, Some(close), Some(close), Some(close))
    }
  }

  datatype Signal = Signal(instrument: Instrument, score: real)

  /** A signal, and the wall clock when an order made from it is checked. */
  datatype Cue = Cue(signal: Signal, now: real)

  /** A bar and what the strategy answers to it. */
  datatype Step = Step(bar: Bar, cues: seq<Cue>)

  datatype World = World(oms: OmsState, trk: Tracker, nOrders: nat, nFills: nat)

  const MODE := "backtest"

  function NewWorld(cfg: SimConfig): World {
    World(NewOms(cfg), NewTracker(cfg.startingCash), 0, 0)
  }

  predicate Coherent(w: World) {
    Known(w.oms.sim.orders, w.oms.sim.pending)
  }

  /** One fill, forwarded to the OMS and the portfolio. */
  ghost function Forwarded(w: World, f: Fill): World {
    World(FilledOms(w.oms, f), Settled(w.trk, f), w.nOrders, w.nFills + 1)
  }

  ghost function ForwardedAll(w: World, fills: seq<Fill>): (w': World)
    ensures w'.oms.sim.pending == w.oms.sim.pending && w'.oms.sim.orders.Keys == w.oms.sim.orders.Keys
    ensures w'.nOrders == w.nOrders
  {
    if fills == [] then w else Forwarded(ForwardedAll(w, fills[..|fills| - 1]), fills[|fills| - 1])
  }

  /** The bar resolves pending orders, and every fill reaches all three ledgers. */
  ghost function BarTicked(cfg: SimConfig, w: World, bar: Bar): (w': World)
    requires Coherent(w)
    ensures Coherent(w') && w'.nOrders == w.nOrders
  {
    ForwardedAll(w.(oms := w.oms.(sim := Ticked(cfg, w.oms.sim, bar.Quote()))), BarFills(cfg, w, bar))
  }

  function BarFills(cfg: SimConfig, w: World, bar: Bar): seq<Fill>
    requires Coherent(w)
  {
    Emitted(cfg, w.oms.sim, bar.Quote())
  }

  /** The engine's rule from a signal to a market order; `id` is the order's fresh uuid. */
  function OrderFor(sig: Signal, curQty: real, id: Id): Option<Ticket> {
    if sig.score > 0.0 && curQty <= 0.0 then
      Some(Ticket(id, sig.instrument, Buy, 10.0 + Abs(curQty), Market, None, None, MODE))
    else if sig.score < 0.0 && curQty > 0.0 then
      Some(Ticket(id, sig.instrument, Sell, curQty, Market, None, None, MODE))
    else None
  }

  /** The rule aims at ten on a positive score and at nothing on a negative one, and only moves if it
      is on the other side; a positive score does not add to a long position. */
  lemma OrderAims(sig: Signal, curQty: real, id: Id)
    ensures var t := OrderFor(sig, curQty, id);
            && (t.Some? <==> if curQty <= 0.0 then sig.score > 0.0 else sig.score < 0.0)
            && (t.Some? ==> curQty + SignedQty(t.value.side, t.value.qty) == if sig.score > 0.0 then 10.0 else 0.0)
  {
  }

  function OrderOn(w: World, cue: Cue): Option<Ticket> {
    OrderFor(cue.signal, Held(w.trk.positions, cue.signal.instrument).qty, w.nOrders)
  }

  ghost function Cued(cfg: SimConfig, limits: RiskLimits, w: World, cue: Cue): (w': World)
    requires Coherent(w)
    ensures Coherent(w')
  {
    var t := OrderOn(w, cue);
    if t.None? then w
    else w.(oms := Submitted(cfg, limits, MODE, w.oms, NewOrder(t.value), cue.now), nOrders := w.nOrders + 1)
  }

  ghost function CuedAll(cfg: SimConfig, limits: RiskLimits, w: World, cues: seq<Cue>): (w': World)
    requires Coherent(w)
    ensures Coherent(w')
  {
    if cues == [] then w else Cued(cfg, limits, CuedAll(cfg, limits, w, cues[..|cues| - 1]), cues[|cues| - 1])
  }

  /** The mark at the end of a bar prices that bar's instrument and no other. */
  ghost function BarMarked(w: World, bar: Bar): World {
    w.(trk := Marked(w.trk, bar.ts, map[bar.instrument.key := bar.close]))
  }

  ghost function BarRun(cfg: SimConfig, limits: RiskLimits, w: World, s: Step): (w': World)
    requires Coherent(w)
    ensures Coherent(w')
  {
    BarMarked(CuedAll(cfg, limits, BarTicked(cfg, w, s.bar), s.cues), s.bar)
  }

  ghost function Backtest(cfg: SimConfig, limits: RiskLimits, steps: seq<Step>): (w: World)
    ensures Coherent(w)
  {
    if steps == [] then NewWorld(cfg) else BarRun(cfg, limits, Backtest(cfg, limits, steps[..|steps| - 1]), steps[|steps| - 1])
  }

  lemma ForwardedAllSnoc(w: World, fills: seq<Fill>, f: Fill)
    ensures ForwardedAll(w, fills + [f]) == Forwarded(ForwardedAll(w, fills), f)
  {
    assert (fills + [f])[..|fills|] == fills;
  }
}
