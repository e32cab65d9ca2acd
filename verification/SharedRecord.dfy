/** Broker and OMS share one record per order and both add every fill to it. This file proves what
    a backtest's orders therefore come to: how much is really traded, and when that is what was
    ordered. */
module SharedRecord {
  import opened Core
  import opened SimModel
  import opened Risk
  import opened OmsModel
  import opened OrderLife
  import opened OrderTheorems
  import opened BacktestModel
  import opened BacktestOrders

  /** How many full slices a capped order trades before its last one, when each counts twice. */
  function FullSlices(cfg: SimConfig, qty: real): nat
    requires SoundConfig(cfg)
  {
    if cfg.maxQtyPerBar.None? then 0
    else
      var c := CeilDiv(qty - cfg.maxQtyPerBar.value, 2.0 * cfg.maxQtyPerBar.value);
      if c > 0 then c else 0
  }

  /** What an executed order really trades in a backtest. */
  function RealTotal(cfg: SimConfig, qty: real): real
    requires SoundConfig(cfg)
  {
    if cfg.maxQtyPerBar.None? then qty else qty - Times(FullSlices(cfg, qty), cfg.maxQtyPerBar.value)
  }

  /** The real total is the ordered quantity exactly when one bar can fill the order whole. */
  lemma RealTotalIsOrdered(cfg: SimConfig, qty: real)
    requires SoundConfig(cfg) && qty > 0.0
    ensures RealTotal(cfg, qty) == qty <==> (cfg.maxQtyPerBar.Some? ==> qty <= cfg.maxQtyPerBar.value)
    ensures 0.0 < RealTotal(cfg, qty) <= qty
  {
    if cfg.maxQtyPerBar.Some? {
      var cap, k := cfg.maxQtyPerBar.value, FullSlices(cfg, qty);
      CeilDivCovers(qty - cap, 2.0 * cap, 0);
      if k > 0 {
        CeilDivCovers(qty - cap, 2.0 * cap, k - 1);
        RealTotalBetween(cap, qty, k);
      }
    }
  }

  lemma RealTotalBetween(cap: real, qty: real, k: int)
    requires cap > 0.0 && k >= 1 && (k - 1) as real * (2.0 * cap) < qty - cap
    ensures 0.0 < qty - Times(k, cap) < qty
  {
    assert (k - 1) as real * cap >= 0.0;
    assert (k - 1) as real * (2.0 * cap) == 2.0 * ((k - 1) as real * cap);
    assert k as real * cap == (k - 1) as real * cap + cap;
  }

  /** `k` full slices, and then the last: the bounds that make `k` the number of full slices. */
  predicate LastAfter(cap: real, qty: real, k: nat) {
    qty <= 2.0 * Times(k, cap) + cap && (k > 0 ==> qty > 2.0 * Times(k, cap) - cap)
  }

  lemma TimesDouble(k: int, cap: real)
    ensures k as real * (2.0 * cap) == 2.0 * Times(k, cap)
  {
  }

  lemma LastAfterIsFullSlices(cfg: SimConfig, qty: real, k: nat)
    requires SoundConfig(cfg) && cfg.maxQtyPerBar.Some? && LastAfter(cfg.maxQtyPerBar.value, qty, k)
    ensures k == FullSlices(cfg, qty)
  {
    hide Times;
    var cap := cfg.maxQtyPerBar.value;
    CeilDivCovers(qty - cap, 2.0 * cap, k);
    CeilDivCovers(qty - cap, 2.0 * cap, k - 1);
    TimesDouble(k, cap);
    TimesDouble(k - 1, cap);
    TimesNext(k, cap);
  }

  /** The state of one order between bars. Its record always shows twice what it has traded, so it
      reads FILLED exactly when half of it is done. A queued order has traded nothing but full
      slices; an executed one has traded the real total. */
  predicate DoubleCounted(cfg: SimConfig, l: Life)
    requires SoundConfig(cfg)
  {
    var r, done, n := l.rec, QtyOf(l.fills), |l.fills|;
    && r.ticket.orderType.Market?
    && r.filledQty == 2.0 * done
    && (r.status == Rejected ==> l.wait.None? && n == 0)
    && (r.status != Rejected ==>
          && (l.wait.None? ==> n > 0)
          && r.status == (if n == 0 then Sent else if 2.0 * done == r.ticket.qty then Filled else PartiallyFilled))
    && (l.wait.Some? && n > 0 ==>
          && cfg.maxQtyPerBar.Some? && done == Times(n, cfg.maxQtyPerBar.value)
          && r.ticket.qty > 2.0 * done - cfg.maxQtyPerBar.value)
    && (l.wait.None? && n > 0 ==>
          && done == RealTotal(cfg, r.ticket.qty)
          && n == FullSlices(cfg, r.ticket.qty) + 1)
  }

  /** The record's average is, for all that, the true average of what the order has traded. */
  predicate Averaged(r: OrderRec, fills: seq<Fill>) {
    if fills == [] then r.avgFillPrice.None?
    else r.avgFillPrice.Some? && r.avgFillPrice.value * QtyOf(fills) == NotionalPaid(fills)
  }

  predicate DoubleBooked(cfg: SimConfig, l: Life)
    requires SoundConfig(cfg)
  {
    DoubleCounted(cfg, l) && Averaged(l.rec, l.fills)
  }

  /** Booking one fill twice: the weights are doubled on both sides of the average. */
  lemma AveragedTwice(filled: real, avg: real, done: real, notional: real, qty: real, price: real, once: real, twice: real)
    requires filled == 2.0 * done && avg * done == notional
    requires once * (filled + qty) == avg * filled + price * qty
    requires twice * (filled + qty + qty) == once * (filled + qty) + price * qty
    ensures twice * (done + qty) == notional + price * qty
  {
    assert avg * filled == 2.0 * (avg * done);
    assert twice * (filled + qty + qty) == 2.0 * (twice * (done + qty));
  }

  lemma FirstTwice(filled: real, qty: real, price: real, once: real, twice: real)
    requires filled == 0.0 && once == price && twice * (filled + qty + qty) == once * (filled + qty) + price * qty
    ensures twice * qty == price * qty
  {
    assert twice * (qty + qty) == 2.0 * (twice * qty);
  }

  /** Neither the broker's nor the OMS's booking divides by zero, even on a negative last slice. */
  lemma DivisorsPositive(cfg: SimConfig, l: Life, qty: real)
    requires SoundConfig(cfg) && DoubleCounted(cfg, l) && l.wait.Some? && l.rec.status != Rejected
    requires qty == FillQty(cfg, l.rec)
    ensures l.rec.filledQty == 2.0 * QtyOf(l.fills) && 2.0 * QtyOf(l.fills) + qty > 0.0 && QtyOf(l.fills) + qty > 0.0
  {
    hide Times, FullSlices, RealTotal;
    if cfg.maxQtyPerBar.Some? && l.fills != [] {
      AtLeastOne(|l.fills|, cfg.maxQtyPerBar.value);
    }
  }

  lemma AtLeastOne(n: nat, cap: real)
    requires n >= 1 && cap > 0.0
    ensures Times(n, cap) >= cap
  {
    assert (n - 1) as real * cap >= 0.0;
  }

  lemma FillKeepsAverage(cfg: SimConfig, l: Life, f: Fill, l': Life)
    requires SoundConfig(cfg) && DoubleBooked(cfg, l) && l.wait.Some? && l.rec.status != Rejected
    requires f.qty == FillQty(cfg, l.rec)
    requires l'.rec == Executed(Executed(l.rec, f), f) && l'.fills == l.fills + [f]
    ensures Averaged(l'.rec, l'.fills)
  {
    hide FillQty, RunningAverage, DoubleCounted;
    SnocSums(l.fills, f);
    DivisorsPositive(cfg, l, f.qty);
    var done, once := QtyOf(l.fills), Executed(l.rec, f);
    AverageOf(l.rec, f);
    AverageOf(once, f);
    if l.fills == [] {
      FirstTwice(l.rec.filledQty, f.qty, f.price, once.avgFillPrice.value, l'.rec.avgFillPrice.value);
    } else {
      AveragedTwice(l.rec.filledQty, l.rec.avgFillPrice.value, done, NotionalPaid(l.fills), f.qty, f.price,
                    once.avgFillPrice.value, l'.rec.avgFillPrice.value);
    }
  }

  /** One bar's fill: the broker's booking decides whether the order leaves the queue, the OMS's
      booking is already on the record when it is next looked at. */
  lemma FillKeepsDoubleCounted(cfg: SimConfig, l: Life, f: Fill, l': Life)
    requires SoundConfig(cfg) && DoubleCounted(cfg, l) && l.wait.Some? && l.rec.status != Rejected
    requires f.qty == FillQty(cfg, l.rec)
    requires l'.rec == Executed(Executed(l.rec, f), f) && l'.fills == l.fills + [f]
    requires l'.wait.Some? <==> Executed(l.rec, f).status != Filled
    ensures DoubleCounted(cfg, l')
  {
    hide RunningAverage, NotionalPaid, Times, CeilDiv;
    SnocSums(l.fills, f);
    var n := |l.fills|;
    if cfg.maxQtyPerBar.Some? {
      var cap := cfg.maxQtyPerBar.value;
      TimesNext(n + 1, cap);
      if l'.wait.None? {
        LastAfterIsFullSlices(cfg, l.rec.ticket.qty, n);
      }
    }
  }

  lemma VisitKeepsDoubleBooked(cfg: SimConfig, price: real, key: string, l: Life)
    requires SoundConfig(cfg) && DoubleBooked(cfg, l)
    ensures DoubleBooked(cfg, VisitedTwice(cfg, price, key, l))
  {
    var l' := VisitedTwice(cfg, price, key, l);
    VisitedTwiceCases(cfg, price, key, l, l');
    if l'.fills != l.fills {
      FillKeepsDoubleCounted(cfg, l, l'.fills[|l.fills|], l');
      FillKeepsAverage(cfg, l, l'.fills[|l.fills|], l');
    }
  }

  ghost predicate AllDoubleBooked(cfg: SimConfig, w: World)
    requires SoundConfig(cfg)
  {
    Separate(w) && forall id :: id in w.oms.sim.orders ==> DoubleBooked(cfg, LifeOf(w.oms.sim, id))
  }

  lemma TickKeepsDoubleBooked(cfg: SimConfig, w: World, bar: Bar)
    requires SoundConfig(cfg) && AllDoubleBooked(cfg, w)
    ensures AllDoubleBooked(cfg, BarTicked(cfg, w, bar))
  {
    TickKeepsSeparate(cfg, w, bar);
    TickKeepsAttribution(cfg, w, bar);
    var sim := BarTicked(cfg, w, bar).oms.sim;
    forall id | id in sim.orders
      ensures DoubleBooked(cfg, LifeOf(sim, id))
    {
      BarTickedLife(cfg, w, bar, id);
      VisitKeepsDoubleBooked(cfg, bar.close, bar.instrument.key, LifeOf(w.oms.sim, id));
    }
  }

  lemma SubmittalDoubleBooked(cfg: SimConfig, w: World, cue: Cue, passed: bool)
    requires SoundConfig(cfg) && OrderOn(w, cue).Some?
    ensures DoubleBooked(cfg, Submittal(cfg, w, OrderOn(w, cue).value, passed))
  {
  }

  lemma CueKeepsDoubleBooked(cfg: SimConfig, limits: RiskLimits, w: World, cue: Cue)
    requires SoundConfig(cfg) && AllDoubleBooked(cfg, w)
    ensures AllDoubleBooked(cfg, Cued(cfg, limits, w, cue))
  {
    hide DoubleBooked, Cued, OrderOn, Submittal;
    CueKeepsSeparate(cfg, limits, w, cue);
    var sim := Cued(cfg, limits, w, cue).oms.sim;
    forall id | id in sim.orders
      ensures DoubleBooked(cfg, LifeOf(sim, id))
    {
      CuedLife(cfg, limits, w, cue, id);
      if id !in w.oms.sim.orders {
        var t := OrderOn(w, cue).value;
        SubmittalDoubleBooked(cfg, w, cue, VerdictOn(limits, MODE, w.oms, t, cue.now) == Passed);
      }
    }
  }

  lemma {:induction false} CuesKeepDoubleBooked(cfg: SimConfig, limits: RiskLimits, w: World, cues: seq<Cue>)
    requires SoundConfig(cfg) && AllDoubleBooked(cfg, w)
    ensures AllDoubleBooked(cfg, CuedAll(cfg, limits, w, cues))
  {
    if cues != [] {
      var n := |cues| - 1;
      CuesKeepDoubleBooked(cfg, limits, w, cues[..n]);
      CueKeepsDoubleBooked(cfg, limits, CuedAll(cfg, limits, w, cues[..n]), cues[n]);
    }
  }

  /** In every backtest, between any two bars, every order is double-booked as described. */
  lemma {:induction false} BacktestsDoubleBook(cfg: SimConfig, limits: RiskLimits, steps: seq<Step>)
    requires SoundConfig(cfg)
    ensures AllDoubleBooked(cfg, Backtest(cfg, limits, steps))
  {
    if steps != [] {
      var n := |steps| - 1;
      var w := Backtest(cfg, limits, steps[..n]);
      BacktestsDoubleBook(cfg, limits, steps[..n]);
      TickKeepsDoubleBooked(cfg, w, steps[n].bar);
      CuesKeepDoubleBooked(cfg, limits, BarTicked(cfg, w, steps[n].bar), steps[n].cues);
    }
  }

  /** So an executed order of a backtest has traded what was ordered if and only if no cap is set
      below its quantity; otherwise it has traded less. */
  lemma ExecutedAsOrdered(cfg: SimConfig, limits: RiskLimits, steps: seq<Step>, id: Id)
    requires SoundConfig(cfg) && id in Backtest(cfg, limits, steps).oms.sim.orders
    requires var sim := Backtest(cfg, limits, steps).oms.sim;
             sim.orders[id].status != Rejected && WaitOf(sim.pending, id).None?
    ensures var sim := Backtest(cfg, limits, steps).oms.sim;
            var qty, traded := sim.orders[id].ticket.qty, QtyOf(FillsOf(sim.queue, id));
            && 0.0 < traded <= qty
            && (traded == qty <==> (cfg.maxQtyPerBar.Some? ==> qty <= cfg.maxQtyPerBar.value))
  {
    BacktestsDoubleBook(cfg, limits, steps);
    var l := LifeOf(Backtest(cfg, limits, steps).oms.sim, id);
    RealTotalIsOrdered(cfg, l.rec.ticket.qty);
  }

  /** Without a cap no order of a backtest ever reads FILLED: the executed ones show twice their
      quantity and stay PARTIALLY_FILLED. */
  lemma NeverReadsFilled(cfg: SimConfig, limits: RiskLimits, steps: seq<Step>, id: Id)
    requires cfg.maxQtyPerBar.None? && id in Backtest(cfg, limits, steps).oms.sim.orders
    ensures var sim := Backtest(cfg, limits, steps).oms.sim;
            var r := sim.orders[id];
            && r.status != Filled
            && (WaitOf(sim.pending, id).None? && r.status != Rejected ==>
                  r.status == PartiallyFilled && r.filledQty == 2.0 * r.ticket.qty)
  {
    BacktestsDoubleBook(cfg, limits, steps);
    var l := LifeOf(Backtest(cfg, limits, steps).oms.sim, id);
    assert DoubleBooked(cfg, l);
  }
}
