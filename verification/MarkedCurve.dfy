/** A backtest of two instruments whose equity curve is wrong: the bars of one do not see the
    position in the other. */
module MarkedCurve {
  import opened Core
  import opened Totals
  import opened Ledgers
  import opened SimModel
  import opened Portfolio
  import opened BacktestModel
  import opened BacktestOrders
  import opened SelfFinancing
  import opened BookedSchedule

  predicate Frictionless(cfg: SimConfig) {
    && cfg.slippageBps == 0.0 && cfg.feePerShare == 0.0 && cfg.feeMin == 0.0
    && cfg.maxQtyPerBar.None? && cfg.latencyBars <= 0
  }

  function BuyBar(i: Instrument, ts: int, now: real): Step {
    Step(Bar(i, ts, 10.0), [Cue(Signal(i, 1.0), now)])
  }

  function QuietBar(i: Instrument, ts: int, close: real): Step {
    Step(Bar(i, ts, close), [])
  }

  function TenAtTen(i: Instrument): Fill {
    Fill(0, i, Buy, 10.0, 10.0, 0.0)
  }

  /** The second bar fills the order of the first at 10, and the queue is empty. */
  lemma OneFill(cfg: SimConfig, i: Instrument, ts: int, w: World)
    requires Frictionless(cfg) && w.oms.sim.pending == [Pend(0, cfg.latencyBars)] && 0 in w.oms.sim.orders
    requires w.oms.sim.orders[0].ticket == BuyTen(i) && w.oms.sim.orders[0].filledQty == 0.0
    ensures Coherent(w) && BarFills(cfg, w, Bar(i, ts, 10.0)) == [TenAtTen(i)]
    ensures BarTicked(cfg, w, Bar(i, ts, 10.0)).oms.sim.pending == []
  {
    hide RunningAverage;
    var s, r := w.oms.sim, w.oms.sim.orders[0];
    var v := Visited(cfg, 10.0, i.key, cfg.latencyBars, r);
    assert v.fill == Some(TenAtTen(i)) && v.kept.None?;
    assert Swept(cfg, 10.0, i.key, s.pending, s.orders, 0) == Sweep(s.orders, [], []);
    assert [] + [TenAtTen(i)] == [TenAtTen(i)] && [] + Requeued(0, None) == [];
  }

  lemma Bought(cfg: SimConfig, i: Instrument, now: real)
    requires Frictionless(cfg)
    ensures var w := Backtest(cfg, NO_LIMITS, [BuyBar(i, 0, now), QuietBar(i, 1, 10.0)]);
            && w.oms.sim.pending == [] && w.trk.cash == cfg.startingCash - 100.0
            && w.trk.positions.Keys == {i.key} && w.trk.positions[i.key].qty == 10.0
  {
    hide BarTicked, Ticked;
    var first, steps := BuyBar(i, 0, now), [BuyBar(i, 0, now), QuietBar(i, 1, 10.0)];
    var w1 := Backtest(cfg, NO_LIMITS, [first]);
    assert steps[..1] == [first];
    FirstOrder(cfg, first.bar, now);
    OneFill(cfg, i, 1, w1);
    BarRunTracker(cfg, NO_LIMITS, w1, steps[1]);
    SettledAllParts(w1.trk, [TenAtTen(i)]);
    OneTrade(i);
  }

  lemma OneTrade(i: Instrument)
    ensures Sum(CashFlows([TenAtTen(i)])) == -100.0
    ensures var b := PostedAll(map[], [TenAtTen(i)]); b.Keys == {i.key} && b[i.key].qty == 10.0
  {
    var f := TenAtTen(i);
    assert [f][..0] == [] && CashFlows([f]) == [-100.0] && [-100.0][..0] == [];
    var none: Book := map[];
    assert PostedAll(none, [f][..0]) == none;
  }

  /** The concrete miss: ten of `a` bought at 10, and then a bar of `b`. Frictionless trading at one
      price has cost nothing, but the point of that bar is 100 short of the portfolio's worth. */
  lemma BarOfAnotherIsShort(cfg: SimConfig, a: Instrument, b: Instrument, now: real)
    requires Frictionless(cfg) && a.key != b.key
    ensures var steps := [BuyBar(a, 0, now), QuietBar(a, 1, 10.0), QuietBar(b, 2, 5.0)];
            var marks := map[a.key := 10.0, b.key := 5.0];
            && Covers(Backtest(cfg, NO_LIMITS, steps).trk.positions, marks, steps[2].bar)
            && Equity(Backtest(cfg, NO_LIMITS, steps).trk, marks) == cfg.startingCash
            && Point(cfg, NO_LIMITS, steps) == cfg.startingCash - 100.0
  {
    hide BarTicked, Point, Equity;
    var steps := [BuyBar(a, 0, now), QuietBar(a, 1, 10.0), QuietBar(b, 2, 5.0)];
    var marks := map[a.key := 10.0, b.key := 5.0];
    assert steps[..2] == [steps[0], steps[1]];
    var w2, bar := Backtest(cfg, NO_LIMITS, steps[..2]), steps[2].bar;
    Bought(cfg, a, now);
    TickOfIdleBroker(cfg, w2, bar);
    var t := Backtest(cfg, NO_LIMITS, steps).trk;
    assert t.positions == w2.trk.positions && t.cash == w2.trk.cash;
    PointIsWorth(cfg, NO_LIMITS, steps, w2.trk, t, b.key, 5.0);
    PointMissesOthers(cfg, NO_LIMITS, steps, marks);
    var values := MarketValues(t.positions - {b.key}, marks);
    TotalRemove(values, a.key);
    assert values - {a.key} == map[];
  }
}
