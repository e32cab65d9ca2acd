/** The equity curve of a single-instrument backtest: every change is a holding gain or an
    execution cost, and nothing else. */
module SelfFinancing {
  import opened Core
  import opened Totals
  import opened Ledgers
  import opened SimModel
  import opened Risk
  import opened Portfolio
  import opened OrderLife
  import opened OrderTheorems
  import opened BacktestModel
  import opened LedgerTheorems
  import opened BacktestOrders
  import opened SharedRecord

  /** What a fill costs against the price it is marked at: slippage and fees. */
  function Cost(f: Fill, mark: real): real {
    f.Signed() * (f.price - mark) + f.fees
  }

  function Costs(fills: seq<Fill>, mark: real): real {
    if fills == [] then 0.0 else Costs(fills[..|fills| - 1], mark) + Cost(fills[|fills| - 1], mark)
  }

  predicate AllOn(fills: seq<Fill>, key: string) {
    forall i :: 0 <= i < |fills| ==> fills[i].instrument.key == key
  }

  lemma CostOfFlow(f: Fill, mark: real)
    ensures CashFlow(f) + f.Signed() * mark == -Cost(f, mark)
  {
    CashFlowBeforeFees(f);
  }

  /** Cash out plus stock in, at the mark, is minus the costs. */
  lemma {:induction false} FlowsAndStock(fills: seq<Fill>, key: string, mark: real)
    requires AllOn(fills, key)
    ensures Sum(CashFlows(fills)) + TradedOn(fills, key) * mark == -Costs(fills, mark)
  {
    if fills != [] {
      var n := |fills| - 1;
      FlowsAndStock(fills[..n], key, mark);
      CostOfFlow(fills[n], mark);
      assert CashFlows(fills)[..n] == CashFlows(fills[..n]);
      assert (TradedOn(fills[..n], key) + fills[n].Signed()) * mark
          == TradedOn(fills[..n], key) * mark + fills[n].Signed() * mark;
    }
  }

  /** Cash plus one instrument's position at a price. */
  function Worth(t: Tracker, key: string, mark: real): real {
    t.cash + QtyAt(t.positions, key) * mark
  }

  /** The mark of one instrument sees cash and that instrument's position. */
  lemma EquityAtMark(t: Tracker, key: string, mark: real)
    ensures Equity(t, map[key := mark]) == Worth(t, key, mark)
  {
    var values := MarketValues(t.positions, map[key := mark]);
    if key in t.positions {
      TotalRemove(values, key);
      assert values - {key} == map[];
    } else {
      assert values == map[];
    }
  }

  lemma WorthMoves(t: Tracker, t': Tracker, key: string, mark: real, flow: real, stock: real, costs: real)
    requires t'.cash == t.cash + flow && QtyAt(t'.positions, key) == QtyAt(t.positions, key) + stock
    requires flow + stock * mark == -costs
    ensures Worth(t', key, mark) == Worth(t, key, mark) - costs
  {
    assert (QtyAt(t.positions, key) + stock) * mark == QtyAt(t.positions, key) * mark + stock * mark;
  }

  lemma SameWorth(t: Tracker, t': Tracker, key: string, mark: real)
    requires t'.cash == t.cash && t'.positions == t.positions
    ensures Worth(t', key, mark) == Worth(t, key, mark)
  {
  }

  /** At the mark, trading loses exactly its costs. */
  lemma WorthAfter(t: Tracker, fills: seq<Fill>, key: string, mark: real)
    requires AllOn(fills, key)
    ensures Worth(SettledAll(t, fills), key, mark) == Worth(t, key, mark) - Costs(fills, mark)
  {
    hide Costs, TradedOn, PostedAll, SettledAll, CashFlows;
    SettledAllParts(t, fills);
    QtyMoves(t.positions, fills, key);
    FlowsAndStock(fills, key, mark);
    WorthMoves(t, SettledAll(t, fills), key, mark, Sum(CashFlows(fills)), TradedOn(fills, key), Costs(fills, mark));
  }

  /** Between trades, worth changes by the quantity held times the price change. */
  lemma WorthRepriced(t: Tracker, key: string, before: real, now: real)
    ensures Worth(t, key, now) == Worth(t, key, before) + QtyAt(t.positions, key) * (now - before)
  {
  }

  // ---- The fills of a bar ----

  lemma {:induction false} OwnAmongOwn(fills: seq<Fill>, i: nat)
    requires i < |fills|
    ensures fills[i] in FillsOf(fills, fills[i].orderId)
  {
    var n := |fills| - 1;
    if i < n {
      OwnAmongOwn(fills[..n], i);
    } else {
      var own := FillsOf(fills, fills[n].orderId);
      assert own[|own| - 1] == fills[n];
    }
  }

  /** Every fill of a bar comes from matching one queued order of the bar's instrument. */
  lemma SweptOrigin(cfg: SimConfig, price: real, key: string, s: SimState, fills: seq<Fill>, i: nat)
    requires Sound(s) && fills == Swept(cfg, price, key, s.pending, s.orders, |s.pending|).emitted && i < |fills|
    ensures var f := fills[i];
            && f.orderId in s.orders && WaitOf(s.pending, f.orderId).Some?
            && TryMatch(cfg, s.orders[f.orderId], price) == Some(f) && f.instrument.key == key
  {
    var f := fills[i];
    SweptAttributed(cfg, price, key, s.pending, s.orders, |s.pending|);
    OwnAmongOwn(fills, i);
    SweptEmits(cfg, price, key, s, f.orderId);
    VisitedMatch(cfg, price, key, LifeOf(s, f.orderId).(fills := []), f);
  }

  lemma BarFillOrigin(cfg: SimConfig, s: SimState, bar: Bar, i: nat)
    requires Sound(s) && i < |Emitted(cfg, s, bar.Quote())|
    ensures var f := Emitted(cfg, s, bar.Quote())[i];
            && f.orderId in s.orders && WaitOf(s.pending, f.orderId).Some?
            && TryMatch(cfg, s.orders[f.orderId], bar.close) == Some(f)
            && f.instrument.key == bar.instrument.key
  {
    assert bar.Quote().Price() == Some(bar.close);
    SweptOrigin(cfg, bar.close, bar.instrument.key, s, Emitted(cfg, s, bar.Quote()), i);
  }

  lemma VisitedMatch(cfg: SimConfig, price: real, key: string, l: Life, f: Fill)
    requires l.fills == [] && f in VisitedLife(cfg, price, key, l).fills
    ensures l.wait.Some? && TryMatch(cfg, l.rec, price) == Some(f) && f.instrument.key == key
  {
  }

  // ---- The curve ----

  predicate OnOne(steps: seq<Step>, key: string) {
    forall i :: 0 <= i < |steps| ==> steps[i].bar.instrument.key == key
  }

  /** A bar's cues change neither cash nor positions nor history. */
  lemma {:induction false} CuesLeaveTracker(cfg: SimConfig, limits: RiskLimits, w: World, cues: seq<Cue>)
    requires Coherent(w)
    ensures CuedAll(cfg, limits, w, cues).trk == w.trk
  {
    if cues != [] {
      CuesLeaveTracker(cfg, limits, w, cues[..|cues| - 1]);
    }
  }

  /** The portfolio after a bar: its fills settled, and the bar marked. */
  lemma BarRunTracker(cfg: SimConfig, limits: RiskLimits, w: World, step: Step)
    requires Coherent(w)
    ensures BarRun(cfg, limits, w, step).trk
            == Marked(SettledAll(w.trk, BarFills(cfg, w, step.bar)), step.bar.ts,
                      map[step.bar.instrument.key := step.bar.close])
  {
    ForwardedAllParts(w.(oms := w.oms.(sim := Ticked(cfg, w.oms.sim, step.bar.Quote()))), BarFills(cfg, w, step.bar));
    CuesLeaveTracker(cfg, limits, BarTicked(cfg, w, step.bar), step.cues);
  }

  lemma BarFillsOnOne(cfg: SimConfig, s: SimState, bar: Bar)
    requires Sound(s)
    ensures AllOn(Emitted(cfg, s, bar.Quote()), bar.instrument.key)
  {
    var fills := Emitted(cfg, s, bar.Quote());
    forall i | 0 <= i < |fills|
      ensures fills[i].instrument.key == bar.instrument.key
    {
      BarFillOrigin(cfg, s, bar, i);
    }
  }

  /** The point a bar appends to the curve: cash and stock before the bar, at the bar's price, less
      the bar's costs; which is also what they are worth after it. */
  lemma PointAppended(t: Tracker, fills: seq<Fill>, t': Tracker, ts: int, key: string, close: real)
    requires AllOn(fills, key) && t' == Marked(SettledAll(t, fills), ts, map[key := close])
    ensures |t'.history| == |t.history| + 1 && t'.history[..|t.history|] == t.history
    ensures t'.startingCash == t.startingCash
    ensures t'.history[|t.history|].equity == Worth(t', key, close) == Worth(t, key, close) - Costs(fills, close)
  {
    hide Costs, SettledAll, Worth, Equity;
    var s := SettledAll(t, fills);
    SettledAllParts(t, fills);
    WorthAfter(t, fills, key, close);
    EquityAtMark(s, key, close);
    assert t'.history == t.history + [EquityPoint(ts, Worth(s, key, close))];
    SameWorth(s, t', key, close);
  }

  lemma BarAppends(cfg: SimConfig, limits: RiskLimits, w: World, step: Step)
    requires Coherent(w) && Sound(w.oms.sim)
    ensures var t, t', key, close := w.trk, BarRun(cfg, limits, w, step).trk, step.bar.instrument.key, step.bar.close;
            && |t'.history| == |t.history| + 1 && t'.history[..|t.history|] == t.history
            && t'.startingCash == t.startingCash
            && t'.history[|t.history|].equity == Worth(t', key, close)
            && t'.history[|t.history|].equity == Worth(t, key, close) - Costs(BarFills(cfg, w, step.bar), close)
  {
    BarRunTracker(cfg, limits, w, step);
    BarFillsOnOne(cfg, w.oms.sim, step.bar);
    PointAppended(w.trk, BarFills(cfg, w, step.bar), BarRun(cfg, limits, w, step).trk, step.bar.ts,
                  step.bar.instrument.key, step.bar.close);
  }

  lemma {:induction false} BacktestIsSeparate(cfg: SimConfig, limits: RiskLimits, steps: seq<Step>)
    ensures Separate(Backtest(cfg, limits, steps))
  {
    if steps != [] {
      var n := |steps| - 1;
      var w := Backtest(cfg, limits, steps[..n]);
      BacktestIsSeparate(cfg, limits, steps[..n]);
      TickKeepsSeparate(cfg, w, steps[n].bar);
      CuesKeepSeparate(cfg, limits, BarTicked(cfg, w, steps[n].bar), steps[n].cues);
    }
  }

  /** The last point of the curve is what the portfolio is worth at the last bar's price, and came
      from what it was worth before that bar. */
  lemma CurveIsWorth(cfg: SimConfig, limits: RiskLimits, steps: seq<Step>)
    requires steps != []
    ensures var n := |steps| - 1;
            var t, t', bar := Backtest(cfg, limits, steps[..n]).trk, Backtest(cfg, limits, steps).trk, steps[n].bar;
            && |t.history| == n && |t'.history| == n + 1 && t'.history[..n] == t.history
            && t'.history[n].equity == Worth(t', bar.instrument.key, bar.close)
            && t'.history[n].equity == Worth(t, bar.instrument.key, bar.close)
                 - Costs(BarFills(cfg, Backtest(cfg, limits, steps[..n]), bar), bar.close)
  {
    var n := |steps| - 1;
    HistoryLength(cfg, limits, steps[..n]);
    BacktestIsSeparate(cfg, limits, steps[..n]);
    BarAppends(cfg, limits, Backtest(cfg, limits, steps[..n]), steps[n]);
  }

  lemma {:induction false} HistoryLength(cfg: SimConfig, limits: RiskLimits, steps: seq<Step>)
    ensures |Backtest(cfg, limits, steps).trk.history| == |steps|
    ensures Backtest(cfg, limits, steps).trk.startingCash == cfg.startingCash
  {
    if steps != [] {
      var n := |steps| - 1;
      HistoryLength(cfg, limits, steps[..n]);
      BacktestIsSeparate(cfg, limits, steps[..n]);
      BarAppends(cfg, limits, Backtest(cfg, limits, steps[..n]), steps[n]);
    }
  }

  lemma BarIsDated(cfg: SimConfig, limits: RiskLimits, w: World, step: Step)
    requires Coherent(w)
    ensures var h, h' := w.trk.history, BarRun(cfg, limits, w, step).trk.history;
            |h'| == |h| + 1 && h'[|h|].ts == step.bar.ts
  {
    BarRunTracker(cfg, limits, w, step);
    SettledAllParts(w.trk, BarFills(cfg, w, step.bar));
  }

  /** The curve has one point for each bar, dated by it, and never rewritten: each is the last point
      of the backtest up to its bar. */
  lemma {:induction false} CurveIsDated(cfg: SimConfig, limits: RiskLimits, steps: seq<Step>, i: nat)
    requires i < |steps|
    ensures var h := Backtest(cfg, limits, steps).trk.history;
            && |h| == |steps| && h[i].ts == steps[i].bar.ts && h[i].equity == Point(cfg, limits, steps[..i + 1])
            && Backtest(cfg, limits, steps).trk.startingCash == cfg.startingCash
  {
    hide BarRun;
    var n := |steps| - 1;
    HistoryLength(cfg, limits, steps);
    if i == n {
      assert steps[..n + 1] == steps;
      HistoryLength(cfg, limits, steps[..n]);
      BarIsDated(cfg, limits, Backtest(cfg, limits, steps[..n]), steps[n]);
    } else {
      CurveIsDated(cfg, limits, steps[..n], i);
      CurveIsWorth(cfg, limits, steps);
      assert steps[..n][..i + 1] == steps[..i + 1];
      assert Backtest(cfg, limits, steps).trk.history[..n][i] == Backtest(cfg, limits, steps).trk.history[i];
    }
  }

  /** The last point of the equity curve after `steps`. */
  ghost function Point(cfg: SimConfig, limits: RiskLimits, steps: seq<Step>): real
    requires steps != []
  {
    HistoryLength(cfg, limits, steps);
    Backtest(cfg, limits, steps).trk.history[|steps| - 1].equity
  }

  /** What was held going into the last bar. */
  ghost function HeldInto(cfg: SimConfig, limits: RiskLimits, steps: seq<Step>): real
    requires steps != []
  {
    QtyAt(Backtest(cfg, limits, steps[..|steps| - 1]).trk.positions, steps[|steps| - 1].bar.instrument.key)
  }

  /** The execution costs of the last bar's fills. */
  ghost function BarCost(cfg: SimConfig, limits: RiskLimits, steps: seq<Step>): real
    requires steps != []
  {
    var bar := steps[|steps| - 1].bar;
    Costs(BarFills(cfg, Backtest(cfg, limits, steps[..|steps| - 1]), bar), bar.close)
  }

  lemma PointIsWorth(cfg: SimConfig, limits: RiskLimits, steps: seq<Step>, t: Tracker, t': Tracker, key: string, close: real)
    requires steps != [] && t == Backtest(cfg, limits, steps[..|steps| - 1]).trk && t' == Backtest(cfg, limits, steps).trk
    requires key == steps[|steps| - 1].bar.instrument.key && close == steps[|steps| - 1].bar.close
    ensures Point(cfg, limits, steps) == Worth(t', key, close)
    ensures Point(cfg, limits, steps) == Worth(t, key, close) - BarCost(cfg, limits, steps)
    ensures HeldInto(cfg, limits, steps) == QtyAt(t.positions, key)
  {
    CurveIsWorth(cfg, limits, steps);
  }

  /** Every bar of a single-instrument backtest adds one point to the curve, and that point is the
      previous one plus the quantity held into the bar times the price change, less the bar's
      execution costs; whatever the strategy, the risk limits, the latency and the cap. */
  lemma EquityStep(cfg: SimConfig, limits: RiskLimits, steps: seq<Step>, n: nat)
    requires n + 1 == |steps| && n >= 1
    requires steps[n].bar.instrument.key == steps[n - 1].bar.instrument.key
    ensures Point(cfg, limits, steps) == Point(cfg, limits, steps[..n])
              + HeldInto(cfg, limits, steps) * (steps[n].bar.close - steps[n - 1].bar.close)
              - BarCost(cfg, limits, steps)
  {
    hide Backtest, Point, BarCost, HeldInto, Worth;
    var t := Backtest(cfg, limits, steps[..n]).trk;
    var key := steps[n].bar.instrument.key;
    PointIsWorth(cfg, limits, steps[..n], Backtest(cfg, limits, steps[..n][..n - 1]).trk, t, key, steps[n - 1].bar.close);
    PointIsWorth(cfg, limits, steps, t, Backtest(cfg, limits, steps).trk, key, steps[n].bar.close);
    WorthRepriced(t, key, steps[n - 1].bar.close, steps[n].bar.close);
  }

  /** The first bar finds nothing to fill, so the curve starts at the starting cash. */
  lemma FirstPoint(cfg: SimConfig, limits: RiskLimits, step: Step)
    ensures Point(cfg, limits, [step]) == cfg.startingCash && BarCost(cfg, limits, [step]) == 0.0
  {
    assert [step][..0] == [];
    TickOfIdleBroker(cfg, NewWorld(cfg), step.bar);
    CurveIsWorth(cfg, limits, [step]);
  }

  /** The quantity held into the last bar times that bar's price change. */
  ghost function BarGain(cfg: SimConfig, limits: RiskLimits, steps: seq<Step>): real
    requires |steps| > 1
  {
    HeldInto(cfg, limits, steps) * (steps[|steps| - 1].bar.close - steps[|steps| - 2].bar.close)
  }

  /** Summed over the run. */
  ghost function HoldingGains(cfg: SimConfig, limits: RiskLimits, steps: seq<Step>): real {
    if |steps| <= 1 then 0.0
    else
      var n := |steps| - 1;
      HoldingGains(cfg, limits, steps[..n]) + BarGain(cfg, limits, steps)
  }

  ghost function RunCosts(cfg: SimConfig, limits: RiskLimits, steps: seq<Step>): real {
    if steps == [] then 0.0 else RunCosts(cfg, limits, steps[..|steps| - 1]) + BarCost(cfg, limits, steps)
  }

  lemma EquityBar(cfg: SimConfig, limits: RiskLimits, steps: seq<Step>)
    requires |steps| > 1 && steps[|steps| - 1].bar.instrument.key == steps[|steps| - 2].bar.instrument.key
    ensures Point(cfg, limits, steps)
            == Point(cfg, limits, steps[..|steps| - 1]) + BarGain(cfg, limits, steps) - BarCost(cfg, limits, steps)
  {
    hide Point, BarCost, HeldInto;
    EquityStep(cfg, limits, steps, |steps| - 1);
  }

  /** The self-financing identity of a whole run: final equity is starting cash plus holding gains
      less execution costs. */
  lemma {:induction false} SelfFinancingRun(cfg: SimConfig, limits: RiskLimits, steps: seq<Step>, key: string)
    requires steps != [] && OnOne(steps, key)
    ensures Point(cfg, limits, steps)
            == cfg.startingCash + HoldingGains(cfg, limits, steps) - RunCosts(cfg, limits, steps)
  {
    hide Backtest, Point, BarCost, BarGain;
    var n := |steps| - 1;
    if n == 0 {
      assert steps == [steps[0]];
      FirstPoint(cfg, limits, steps[0]);
    } else {
      SelfFinancingRun(cfg, limits, steps[..n], key);
      EquityBar(cfg, limits, steps);
    }
  }

  // ---- Several instruments ----

  lemma OtherValues(b: Book, key: string, marks: map<string, real>)
    requires key in marks
    ensures var values := MarketValues(b, marks);
            && values - {key} == MarketValues(b - {key}, marks)
            && (key in values <==> key in b) && (key in b ==> values[key] == b[key].MarketValue(marks[key]))
  {
  }

  lemma EquityOfOthers(t: Tracker, key: string, marks: map<string, real>)
    requires key in marks
    ensures Equity(t, marks) == Worth(t, key, marks[key]) + Total(MarketValues(t.positions - {key}, marks))
  {
    hide MarketValues, Total;
    var values := MarketValues(t.positions, marks);
    OtherValues(t.positions, key, marks);
    if key in t.positions {
      TotalRemove(values, key);
    } else {
      assert values - {key} == values;
    }
  }

  /** With any number of instruments, and whatever they are worth, the point a bar appends falls
      short of the portfolio's worth by exactly the positions in the other instruments. */
  lemma PointMissesOthers(cfg: SimConfig, limits: RiskLimits, steps: seq<Step>, marks: map<string, real>)
    requires steps != []
    requires var bar := steps[|steps| - 1].bar; bar.instrument.key in marks && marks[bar.instrument.key] == bar.close
    ensures var t, key := Backtest(cfg, limits, steps).trk, steps[|steps| - 1].bar.instrument.key;
            Equity(t, marks) == Point(cfg, limits, steps) + Total(MarketValues(t.positions - {key}, marks))
  {
    hide Equity, Worth, Point;
    var bar, t := steps[|steps| - 1].bar, Backtest(cfg, limits, steps).trk;
    PointIsWorth(cfg, limits, steps, Backtest(cfg, limits, steps[..|steps| - 1]).trk, t, bar.instrument.key, bar.close);
    EquityOfOthers(t, bar.instrument.key, marks);
  }

  /** A price for every position, the bar's own for its instrument. */
  predicate Covers(b: Book, marks: map<string, real>, bar: Bar) {
    b.Keys <= marks.Keys && bar.instrument.key in marks && marks[bar.instrument.key] == bar.close
  }

  predicate OthersFlat(b: Book, key: string) {
    forall k :: k in b && k != key ==> b[k].qty == 0.0
  }

  lemma FlatOthersWeighNothing(b: Book, key: string, marks: map<string, real>)
    requires OthersFlat(b, key)
    ensures Total(MarketValues(b - {key}, marks)) == 0.0
  {
    TotalOfZeros(MarketValues(b - {key}, marks));
  }

  /** A price at which one other position shows: its own at one, the rest at nothing. */
  function Spotlight(b: Book, key: string, bar: Bar): map<string, real> {
    (map k | k in b :: if k == key then 1.0 else 0.0)[bar.instrument.key := bar.close]
  }

  lemma SpotlightShows(b: Book, key: string, bar: Bar)
    requires key in b && key != bar.instrument.key
    ensures Covers(b, Spotlight(b, key, bar), bar)
    ensures Total(MarketValues(b - {bar.instrument.key}, Spotlight(b, key, bar))) == b[key].qty
  {
    var values := MarketValues(b - {bar.instrument.key}, Spotlight(b, key, bar));
    TotalRemove(values, key);
    TotalOfZeros(values - {key});
  }

  /** Which holdings make the curve right: the last point is the portfolio's worth, wherever the other
      instruments are priced, if and only if nothing is held in them. */
  lemma PointIsRightIff(cfg: SimConfig, limits: RiskLimits, steps: seq<Step>)
    requires steps != []
    ensures var t, bar := Backtest(cfg, limits, steps).trk, steps[|steps| - 1].bar;
            (forall marks :: Covers(t.positions, marks, bar) ==> Point(cfg, limits, steps) == Equity(t, marks))
            <==> OthersFlat(t.positions, bar.instrument.key)
  {
    hide Equity, Point, Backtest;
    var t, bar := Backtest(cfg, limits, steps).trk, steps[|steps| - 1].bar;
    if OthersFlat(t.positions, bar.instrument.key) {
      forall marks | Covers(t.positions, marks, bar)
        ensures Point(cfg, limits, steps) == Equity(t, marks)
      {
        PointMissesOthers(cfg, limits, steps, marks);
        FlatOthersWeighNothing(t.positions, bar.instrument.key, marks);
      }
    } else {
      var key :| key in t.positions && key != bar.instrument.key && t.positions[key].qty != 0.0;
      SpotlightShows(t.positions, key, bar);
      PointMissesOthers(cfg, limits, steps, Spotlight(t.positions, key, bar));
    }
  }

  // ---- Costs are costs ----

  predicate FairCosts(cfg: SimConfig) {
    cfg.slippageBps >= 0.0 && cfg.feeMin >= 0.0
  }

  /** Slippage is paid on both sides of the market. */
  lemma MarketCost(cfg: SimConfig, t: Ticket, f: Fill, close: real)
    requires t.orderType.Market? && FillPrice(cfg, t, close) == Some(f.price) && f.side == t.side
    ensures Cost(f, close) == f.qty * (close * (cfg.slippageBps / 10000.0)) + f.fees
  {
    var bps := cfg.slippageBps / 10000.0;
    var slip := close * bps;
    assert f.price == if t.side.Buy? then close + slip else close - slip;
    assert f.Signed() * (f.price - close) == f.qty * slip;
  }

  /** Under any cap, every fill of every bar is of a queued market order and costs its slippage and
      its fees. The slippage is a cost if and only if the fill is positive, which it is exactly while
      the order's shared record, where each fill counts twice, shows something remaining; a negative
      last slice is paid back the slippage on it. */
  lemma BookedBarCosts(cfg: SimConfig, limits: RiskLimits, steps: seq<Step>, bar: Bar, i: nat)
    requires SoundConfig(cfg) && FairCosts(cfg) && bar.close >= 0.0
    requires i < |BarFills(cfg, Backtest(cfg, limits, steps), bar)|
    ensures var w := Backtest(cfg, limits, steps);
            var f := BarFills(cfg, w, bar)[i];
            && f.orderId in w.oms.sim.orders
            && (f.qty > 0.0 <==> w.oms.sim.orders[f.orderId].Remaining() > 0.0)
            && f.fees >= 0.0
            && Cost(f, bar.close) == f.qty * (bar.close * (cfg.slippageBps / 10000.0)) + f.fees
            && (f.qty > 0.0 ==> Cost(f, bar.close) >= 0.0)
            && (cfg.maxQtyPerBar.None? ==> f.qty > 0.0)
  {
    hide Backtest, Cost, DoubleBooked, TryMatch, FillPrice;
    var w := Backtest(cfg, limits, steps);
    BacktestsDoubleBook(cfg, limits, steps);
    BarFillOrigin(cfg, w.oms.sim, bar, i);
    var f := BarFills(cfg, w, bar)[i];
    var l := LifeOf(w.oms.sim, f.orderId);
    BookedMatch(cfg, l, bar.close, f);
    MarketCost(cfg, l.rec.ticket, f, bar.close);
    if f.qty > 0.0 {
      CostNotNegative(f.qty, bar.close, cfg.slippageBps / 10000.0);
    }
  }

  /** Without a cap, at prices that are not negative, every fill of every bar costs its slippage
      and its fees, and neither is negative. */
  lemma BarCosts(cfg: SimConfig, limits: RiskLimits, steps: seq<Step>, bar: Bar, i: nat)
    requires cfg.maxQtyPerBar.None? && FairCosts(cfg) && bar.close >= 0.0
    requires i < |BarFills(cfg, Backtest(cfg, limits, steps), bar)|
    ensures var f := BarFills(cfg, Backtest(cfg, limits, steps), bar)[i];
            && f.qty > 0.0
            && Cost(f, bar.close) == f.qty * (bar.close * (cfg.slippageBps / 10000.0)) + f.fees
            && Cost(f, bar.close) >= 0.0
  {
    hide Backtest, Cost, BarFills;
    BookedBarCosts(cfg, limits, steps, bar, i);
  }

  lemma CostNotNegative(qty: real, close: real, bps: real)
    requires qty >= 0.0 && close >= 0.0 && bps >= 0.0
    ensures qty * (close * bps) >= 0.0
  {
    assert close * bps >= 0.0;
  }

  lemma BookedMatch(cfg: SimConfig, l: Life, price: real, f: Fill)
    requires SoundConfig(cfg) && FairCosts(cfg) && DoubleBooked(cfg, l) && l.wait.Some?
    requires TryMatch(cfg, l.rec, price) == Some(f)
    ensures (f.qty > 0.0 <==> l.rec.Remaining() > 0.0) && f.side == l.rec.ticket.side && f.fees >= 0.0
    ensures cfg.maxQtyPerBar.None? ==> f.qty > 0.0
    ensures l.rec.ticket.orderType.Market? && FillPrice(cfg, l.rec.ticket, price) == Some(f.price)
  {
  }

  lemma {:induction false} CostsNotNegative(fills: seq<Fill>, mark: real)
    requires forall i :: 0 <= i < |fills| ==> Cost(fills[i], mark) >= 0.0
    ensures Costs(fills, mark) >= 0.0
  {
    if fills != [] {
      CostsNotNegative(fills[..|fills| - 1], mark);
    }
  }

  /** So trading never creates money: an uncapped run ends at most at its holding gains. */
  lemma {:induction false} RunCostsNotNegative(cfg: SimConfig, limits: RiskLimits, steps: seq<Step>)
    requires cfg.maxQtyPerBar.None? && FairCosts(cfg)
    requires forall i :: 0 <= i < |steps| ==> steps[i].bar.close >= 0.0
    ensures RunCosts(cfg, limits, steps) >= 0.0
  {
    if steps != [] {
      var n := |steps| - 1;
      RunCostsNotNegative(cfg, limits, steps[..n]);
      var fills := BarFills(cfg, Backtest(cfg, limits, steps[..n]), steps[n].bar);
      forall i | 0 <= i < |fills|
        ensures Cost(fills[i], steps[n].bar.close) >= 0.0
      {
        BarCosts(cfg, limits, steps[..n], steps[n].bar, i);
      }
      CostsNotNegative(fills, steps[n].bar.close);
    }
  }
}
