/** When a backtest's orders complete. Broker and OMS book every fill on one record, so a capped
    order needs fewer bars than its quantity, and this is exactly how many. */
module BookedSchedule {
  import opened Core
  import opened SimModel
  import opened Risk
  import opened OmsModel
  import opened OrderLife
  import opened OrderTheorems
  import opened BacktestModel
  import opened BacktestOrders
  import opened SharedRecord

  /** An order `n` bars of its instrument after it was queued with wait `bars`: nothing for the wait,
      then a slice a bar, and out of the queue with the slice after the last full one. */
  predicate OnBookedSchedule(cfg: SimConfig, bars: int, n: nat, l: Life)
    requires SoundConfig(cfg)
  {
    var latency := if bars > 0 then bars else 0;
    var k := if n <= latency then 0 else n - latency;
    var slices := FullSlices(cfg, l.rec.ticket.qty) + 1;
    && l.rec.status != Rejected
    && |l.fills| == (if k < slices then k else slices)
    && l.wait == (if k >= slices then None else if bars > 0 && n <= bars then Some(bars - n)
                  else Some(if bars > 0 then 0 else bars))
  }

  /** A fill takes the order out of the queue exactly when all full slices have gone before it. */
  lemma LeavesAfterFullSlices(cfg: SimConfig, l: Life, f: Fill)
    requires SoundConfig(cfg) && DoubleCounted(cfg, l) && l.wait.Some? && l.rec.status != Rejected
    requires f.qty == FillQty(cfg, l.rec)
    ensures Executed(l.rec, f).status == Filled <==> |l.fills| == FullSlices(cfg, l.rec.ticket.qty)
    ensures |l.fills| <= FullSlices(cfg, l.rec.ticket.qty)
  {
    hide RunningAverage, Times;
    if cfg.maxQtyPerBar.Some? {
      var cap, qty, n := cfg.maxQtyPerBar.value, l.rec.ticket.qty, |l.fills|;
      TimesNext(n, cap);
      if qty - l.rec.filledQty <= cap {
        LastAfterIsFullSlices(cfg, qty, n);
      } else {
        CeilDivCovers(qty - cap, 2.0 * cap, n);
        TimesDouble(n, cap);
      }
    }
  }

  /** Which visits fill: those of the order's instrument, once the wait is over. */
  lemma VisitFillsIff(cfg: SimConfig, price: real, key: string, l: Life)
    requires l.rec.ticket.orderType.Market?
    ensures var l' := VisitedTwice(cfg, price, key, l);
            && l'.rec.ticket == l.rec.ticket
            && (l'.fills != l.fills <==> l.wait.Some? && l.wait.value <= 0 && l.rec.ticket.instrument.key == key)
            && (l'.fills == l.fills ==>
                  l' == if l.wait.Some? && l.rec.ticket.instrument.key == key then l.(wait := Some(l.wait.value - 1)) else l)
            && (l'.wait.Some? && l'.fills != l.fills ==> l'.wait == l.wait)
  {
    if l.wait.Some? {
      var v := Visited(cfg, price, key, l.wait.value, l.rec);
      if v.fill.Some? {
        assert [] + [v.fill.value] == [v.fill.value];
        assert [v.fill.value][..0] == [];
        assert ExecutedAll(v.rec, [v.fill.value]) == Executed(v.rec, v.fill.value);
      } else {
        assert l.fills + ([] + []) == l.fills;
      }
    } else {
      assert l.fills + [] == l.fills;
    }
  }

  lemma OwnBarOnSchedule(cfg: SimConfig, price: real, bars: int, n: nat, l: Life)
    requires SoundConfig(cfg) && DoubleBooked(cfg, l) && OnBookedSchedule(cfg, bars, n, l)
    ensures OnBookedSchedule(cfg, bars, n + 1, VisitedTwice(cfg, price, l.rec.ticket.instrument.key, l))
  {
    hide VisitedTwice, FullSlices, FillQty;
    var key := l.rec.ticket.instrument.key;
    var l' := VisitedTwice(cfg, price, key, l);
    VisitFillsIff(cfg, price, key, l);
    VisitedTwiceCases(cfg, price, key, l, l');
    if l'.fills != l.fills {
      LeavesAfterFullSlices(cfg, l, l'.fills[|l.fills|]);
    }
  }

  // ---- In a backtest ----

  /** The bars of one instrument. */
  function OwnBars(steps: seq<Step>, key: string): nat {
    if steps == [] then 0
    else OwnBars(steps[..|steps| - 1], key) + if steps[|steps| - 1].bar.instrument.key == key then 1 else 0
  }

  lemma {:induction false} CuesLeaveLife(cfg: SimConfig, limits: RiskLimits, w: World, cues: seq<Cue>, id: Id)
    requires Separate(w) && id in w.oms.sim.orders
    ensures var w' := CuedAll(cfg, limits, w, cues);
            Separate(w') && id in w'.oms.sim.orders && LifeOf(w'.oms.sim, id) == LifeOf(w.oms.sim, id)
  {
    hide Cued, Separate;
    SeparateIsSound(w);
    if cues != [] {
      var n := |cues| - 1;
      CuesLeaveLife(cfg, limits, w, cues[..n], id);
      CueLeavesLife(cfg, limits, CuedAll(cfg, limits, w, cues[..n]), cues[n], id);
    }
  }

  lemma CueLeavesLife(cfg: SimConfig, limits: RiskLimits, w: World, cue: Cue, id: Id)
    requires Separate(w) && id in w.oms.sim.orders
    ensures var w' := Cued(cfg, limits, w, cue);
            Separate(w') && id in w'.oms.sim.orders && LifeOf(w'.oms.sim, id) == LifeOf(w.oms.sim, id)
  {
    hide Judged, Checked;
    assert id in Cued(cfg, limits, w, cue).oms.sim.orders;
    CuedLife(cfg, limits, w, cue, id);
  }

  /** An order that a bar's cues make and the risk engine passes is queued with the latency. */
  lemma {:induction false} CuesMakeLife(cfg: SimConfig, limits: RiskLimits, w: World, cues: seq<Cue>, id: Id)
    requires Separate(w) && id !in w.oms.sim.orders && id in CuedAll(cfg, limits, w, cues).oms.sim.orders
    ensures var w' := CuedAll(cfg, limits, w, cues);
            && Separate(w')
            && (w'.oms.sim.orders[id].status != Rejected ==>
                  LifeOf(w'.oms.sim, id).fills == [] && LifeOf(w'.oms.sim, id).wait == Some(cfg.latencyBars))
  {
    hide Separate, OrderOn, VerdictOn;
    SeparateIsSound(w);
    var n := |cues| - 1;
    var before := CuedAll(cfg, limits, w, cues[..n]);
    if id in before.oms.sim.orders {
      CuesMakeLife(cfg, limits, w, cues[..n], id);
      CueLeavesLife(cfg, limits, before, cues[n], id);
    } else {
      CuesKeepSeparate(cfg, limits, w, cues[..n]);
      CuedLife(cfg, limits, before, cues[n], id);
    }
  }

  /** A later bar, seen from one order. */
  lemma BarOnSchedule(cfg: SimConfig, limits: RiskLimits, w: World, step: Step, id: Id, bars: int, n: nat)
    requires SoundConfig(cfg) && AllDoubleBooked(cfg, w) && id in w.oms.sim.orders
    requires OnBookedSchedule(cfg, bars, n, LifeOf(w.oms.sim, id))
    ensures var t, w' := w.oms.sim.orders[id].ticket, BarRun(cfg, limits, w, step);
            && id in w'.oms.sim.orders && w'.oms.sim.orders[id].ticket == t
            && OnBookedSchedule(cfg, bars, n + (if step.bar.instrument.key == t.instrument.key then 1 else 0),
                                LifeOf(w'.oms.sim, id))
  {
    hide BarTicked, CuedAll, DoubleBooked, VisitedTwice, OnBookedSchedule, Separate;
    var l, bar := LifeOf(w.oms.sim, id), step.bar;
    assert DoubleBooked(cfg, l);
    SeparateIsSound(w);
    var ticked := BarTicked(cfg, w, bar);
    MarketOnly(cfg, l);
    BarTickedLife(cfg, w, bar, id);
    VisitFillsIff(cfg, bar.close, bar.instrument.key, l);
    if bar.instrument.key == l.rec.ticket.instrument.key {
      OwnBarOnSchedule(cfg, bar.close, bars, n, l);
    }
    TickKeepsSeparate(cfg, w, bar);
    TickKeepsOrders(cfg, w, bar, id);
    CuesLeaveLife(cfg, limits, ticked, step.cues, id);
  }

  lemma MarketOnly(cfg: SimConfig, l: Life)
    requires SoundConfig(cfg) && DoubleBooked(cfg, l)
    ensures l.rec.ticket.orderType.Market?
  {
  }

  lemma SeparateIsSound(w: World)
    requires Separate(w)
    ensures Sound(w.oms.sim) && Coherent(w)
  {
  }

  lemma TickKeepsOrders(cfg: SimConfig, w: World, bar: Bar, id: Id)
    requires Coherent(w) && id in w.oms.sim.orders
    ensures id in BarTicked(cfg, w, bar).oms.sim.orders
  {
  }

  /** The order that step `k` of a backtest queues. */
  ghost predicate QueuedAt(cfg: SimConfig, limits: RiskLimits, steps: seq<Step>, k: nat, id: Id)
    requires k < |steps|
  {
    var w := Backtest(cfg, limits, steps[..k + 1]);
    && id !in Backtest(cfg, limits, steps[..k]).oms.sim.orders
    && id in w.oms.sim.orders && w.oms.sim.orders[id].status != Rejected
  }

  lemma QueuedOnSchedule(cfg: SimConfig, limits: RiskLimits, steps: seq<Step>, k: nat, id: Id)
    requires SoundConfig(cfg) && k < |steps| && QueuedAt(cfg, limits, steps, k, id)
    ensures OnBookedSchedule(cfg, cfg.latencyBars, 0, LifeOf(Backtest(cfg, limits, steps[..k + 1]).oms.sim, id))
  {
    hide BarTicked, CuedAll, DoubleBooked, Separate;
    var w := Backtest(cfg, limits, steps[..k]);
    assert steps[..k + 1][..k] == steps[..k];
    BacktestsDoubleBook(cfg, limits, steps[..k]);
    SeparateIsSound(w);
    TickKeepsSeparate(cfg, w, steps[k].bar);
    TickMakesNoOrders(cfg, w, steps[k].bar);
    CuesMakeLife(cfg, limits, BarTicked(cfg, w, steps[k].bar), steps[k].cues, id);
  }

  lemma TickMakesNoOrders(cfg: SimConfig, w: World, bar: Bar)
    requires Coherent(w)
    ensures BarTicked(cfg, w, bar).oms.sim.orders.Keys == w.oms.sim.orders.Keys
  {
  }

  /** When an order of a backtest completes: an order queued at step `k`, under any strategy, limits,
      latency and cap, leaves the queue exactly with the (latency + full slices + 1)-th later bar of
      its instrument, filling one slice a bar once the latency is over. */
  lemma {:induction false} BookedCompletion(cfg: SimConfig, limits: RiskLimits, steps: seq<Step>, k: nat, id: Id)
    requires SoundConfig(cfg) && k < |steps| && QueuedAt(cfg, limits, steps, k, id)
    ensures var sim := Backtest(cfg, limits, steps).oms.sim;
            && id in sim.orders
            && sim.orders[id].ticket == Backtest(cfg, limits, steps[..k + 1]).oms.sim.orders[id].ticket
            && OnBookedSchedule(cfg, cfg.latencyBars, OwnBars(steps[k + 1..], sim.orders[id].ticket.instrument.key),
                                LifeOf(sim, id))
  {
    hide BarRun, OnBookedSchedule, DoubleBooked;
    var n := |steps| - 1;
    if k == n {
      assert steps[..n + 1] == steps;
      QueuedOnSchedule(cfg, limits, steps, k, id);
    } else {
      assert steps[..n][..k + 1] == steps[..k + 1] && steps[..n][..k] == steps[..k];
      assert steps[k + 1..][..n - k - 1] == steps[..n][k + 1..] && steps[k + 1..][n - k - 1] == steps[n];
      BookedCompletion(cfg, limits, steps[..n], k, id);
      BacktestsDoubleBook(cfg, limits, steps[..n]);
      var key := Backtest(cfg, limits, steps[..n]).oms.sim.orders[id].ticket.instrument.key;
      BarOnSchedule(cfg, limits, Backtest(cfg, limits, steps[..n]), steps[n], id, cfg.latencyBars,
                    OwnBars(steps[..n][k + 1..], key));
    }
  }

  // ---- A concrete loss ----

  const NO_LIMITS := RiskLimits(None, None, 60, None)

  function BuyTen(i: Instrument): Ticket {
    Ticket(0, i, Buy, 10.0, Market, None, None, BacktestModel.MODE)
  }

  /** The first bar of a backtest with a positive score queues an order for ten. */
  lemma FirstOrder(cfg: SimConfig, bar: Bar, now: real)
    ensures var w := Backtest(cfg, NO_LIMITS, [Step(bar, [Cue(Signal(bar.instrument, 1.0), now)])]);
            && w.oms.sim.orders == map[0 := NewOrder(BuyTen(bar.instrument)).(brokerOrderId := Some(0), status := Sent)]
            && w.oms.sim.pending == [Pend(0, cfg.latencyBars)] && w.trk.positions == map[] && w.oms.positions == map[]
            && w.trk.cash == cfg.startingCash
  {
    var cue := Cue(Signal(bar.instrument, 1.0), now);
    var steps, w := [Step(bar, [cue])], NewWorld(cfg);
    assert steps[..0] == [] && [cue][..0] == [];
    assert Backtest(cfg, NO_LIMITS, []) == w;
    TickOfIdleBroker(cfg, w, bar);
    assert CuedAll(cfg, NO_LIMITS, w, [cue][..0]) == w;
    assert OrderOn(w, cue) == Some(BuyTen(bar.instrument));
    assert VerdictOn(NO_LIMITS, BacktestModel.MODE, w.oms, BuyTen(bar.instrument), now) == Passed;
    assert CuedAll(cfg, NO_LIMITS, w, [cue]) == Cued(cfg, NO_LIMITS, w, cue);
    assert [] + [Pend(0, cfg.latencyBars)] == [Pend(0, cfg.latencyBars)];
  }

  /** A concrete loss: in a backtest of three bars under a cap of 6, an order of 10 trades 6, then
      minus 2, and is done at 4. */
  lemma TenUnderSixTradesFour(cfg: SimConfig, bar: Bar, now: real)
    requires cfg.maxQtyPerBar == Some(6.0) && cfg.latencyBars <= 0
    ensures var steps := [Step(bar, [Cue(Signal(bar.instrument, 1.0), now)]), Step(bar, []), Step(bar, [])];
            var sim := Backtest(cfg, NO_LIMITS, steps).oms.sim;
            && 0 in sim.orders && sim.orders[0].ticket.qty == 10.0
            && WaitOf(sim.pending, 0).None? && QtyOf(FillsOf(sim.queue, 0)) == 4.0
  {
    hide BarRun, BarTicked, CuedAll, WaitOf, FillsOf;
    var first := Step(bar, [Cue(Signal(bar.instrument, 1.0), now)]);
    var steps := [first, Step(bar, []), Step(bar, [])];
    FirstOrder(cfg, bar, now);
    assert steps[..0] == [] && steps[..1] == [first];
    assert Backtest(cfg, NO_LIMITS, steps[..0]).oms.sim.orders == map[];
    BookedCompletion(cfg, NO_LIMITS, steps, 0, 0);
    TwoOwnBars(steps[1..], bar.instrument.key);
    LastAfterIsFullSlices(cfg, 10.0, 1);
    BacktestsDoubleBook(cfg, NO_LIMITS, steps);
  }

  lemma TwoOwnBars(steps: seq<Step>, key: string)
    requires |steps| == 2 && steps[0].bar.instrument.key == steps[1].bar.instrument.key == key
    ensures OwnBars(steps, key) == 2
  {
    assert OwnBars(steps[..1][..0], key) == 0;
    assert OwnBars(steps[..1], key) == 1;
  }
}
