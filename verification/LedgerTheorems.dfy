/** The three ledgers of a backtest: the broker's, the OMS's and the tracker's. */
module LedgerTheorems {
  import opened Core
  import opened Totals
  import opened Ledgers
  import opened SimModel
  import opened Risk
  import opened Portfolio
  import opened BacktestModel

  /** The ledgers hold the same positions, the tracker's cash is the broker's over all
      currencies, and the risk engine judges by the profit the positions have realised. */
  ghost predicate Agree(w: World) {
    && w.oms.sim.positions == w.oms.positions && w.trk.positions == w.oms.positions
    && w.trk.cash == Total(w.oms.sim.cash)
    && w.oms.risk.dailyRealisedPnl == Total(RealisedPnls(w.oms.positions))
  }

  lemma CashPostedTotal(cash: map<string, real>, f: Fill)
    ensures Total(CashPosted(cash, f)) == Total(cash) + CashFlow(f)
  {
    var ccy := f.instrument.currency;
    TotalUpdate(cash, ccy, (if ccy in cash then cash[ccy] else 0.0) + CashFlow(f));
  }

  /** Whatever the currencies, the broker's cash moves in total by the flows of the fills. */
  lemma {:induction false} CashPostedAllTotal(cash: map<string, real>, fills: seq<Fill>)
    ensures Total(CashPostedAll(cash, fills)) == Total(cash) + Sum(CashFlows(fills))
  {
    if fills != [] {
      var n := |fills| - 1;
      CashPostedAllTotal(cash, fills[..n]);
      CashPostedTotal(CashPostedAll(cash, fills[..n]), fills[n]);
      assert CashFlows(fills)[..n] == CashFlows(fills[..n]);
    }
  }

  /** What forwarding a list of fills does, ledger by ledger. */
  lemma {:induction false} ForwardedAllParts(w: World, fills: seq<Fill>)
    ensures var w' := ForwardedAll(w, fills);
            && w'.trk == SettledAll(w.trk, fills)
            && w'.oms.positions == PostedAll(w.oms.positions, fills)
            && w'.oms.sim == w.oms.sim.(orders := w'.oms.sim.orders)
            && w'.oms.risk == w.oms.risk.(dailyRealisedPnl := w'.oms.risk.dailyRealisedPnl)
            && (fills != [] ==> w'.oms.risk.dailyRealisedPnl == Total(RealisedPnls(w'.oms.positions)))
            && (fills == [] ==> w' == w)
            && w'.nFills == w.nFills + |fills|
  {
    if fills != [] {
      ForwardedAllParts(w, fills[..|fills| - 1]);
    }
  }

  lemma TickKeepsAgreement(cfg: SimConfig, w: World, bar: Bar)
    requires Coherent(w) && Agree(w)
    ensures Agree(BarTicked(cfg, w, bar))
  {
    var fills := BarFills(cfg, w, bar);
    var w1 := w.(oms := w.oms.(sim := Ticked(cfg, w.oms.sim, bar.Quote())));
    TickedFollows(cfg, w.oms.sim, bar.Quote());
    ForwardedAllParts(w1, fills);
    SettledAllParts(w.trk, fills);
    CashPostedAllTotal(w.oms.sim.cash, fills);
  }

  lemma CueKeepsAgreement(cfg: SimConfig, limits: RiskLimits, w: World, cue: Cue)
    requires Coherent(w) && Agree(w)
    ensures Agree(Cued(cfg, limits, w, cue))
  {
  }

  lemma {:induction false} CuesKeepAgreement(cfg: SimConfig, limits: RiskLimits, w: World, cues: seq<Cue>)
    requires Coherent(w) && Agree(w)
    ensures Agree(CuedAll(cfg, limits, w, cues))
  {
    if cues != [] {
      CuesKeepAgreement(cfg, limits, w, cues[..|cues| - 1]);
      CueKeepsAgreement(cfg, limits, CuedAll(cfg, limits, w, cues[..|cues| - 1]), cues[|cues| - 1]);
    }
  }

  lemma {:induction false} NewWorldAgrees(cfg: SimConfig)
    ensures Agree(NewWorld(cfg))
  {
    var cash := map[cfg.baseCurrency := cfg.startingCash];
    TotalRemove(cash, cfg.baseCurrency);
    assert cash - {cfg.baseCurrency} == map[];
    assert RealisedPnls(map[]) == map[];
  }

  /** After every bar of every backtest, over any instruments and currencies, with any strategy,
      any risk limits, any latency and any per-bar cap, the three ledgers agree. */
  lemma {:induction false} LedgersAgree(cfg: SimConfig, limits: RiskLimits, steps: seq<Step>)
    ensures Agree(Backtest(cfg, limits, steps))
  {
    if steps == [] {
      NewWorldAgrees(cfg);
    } else {
      var n := |steps| - 1;
      var w := Backtest(cfg, limits, steps[..n]);
      LedgersAgree(cfg, limits, steps[..n]);
      TickKeepsAgreement(cfg, w, steps[n].bar);
      CuesKeepAgreement(cfg, limits, BarTicked(cfg, w, steps[n].bar), steps[n].cues);
    }
  }

  // ---- The counters ----

  /** Fills are counted as the broker emitted them; orders by the uuids handed out, all on file. */
  ghost predicate Counted(w: World) {
    w.nFills == |w.oms.sim.queue| && forall id: Id :: id in w.oms.sim.orders <==> id < w.nOrders
  }

  lemma TickKeepsCount(cfg: SimConfig, w: World, bar: Bar)
    requires Coherent(w) && Counted(w)
    ensures Counted(BarTicked(cfg, w, bar))
  {
    TickedFollows(cfg, w.oms.sim, bar.Quote());
    ForwardedAllParts(w.(oms := w.oms.(sim := Ticked(cfg, w.oms.sim, bar.Quote()))), BarFills(cfg, w, bar));
  }

  lemma {:induction false} CuesKeepCount(cfg: SimConfig, limits: RiskLimits, w: World, cues: seq<Cue>)
    requires Coherent(w) && Counted(w)
    ensures Counted(CuedAll(cfg, limits, w, cues))
  {
    hide Judged, Checked;
    if cues != [] {
      CuesKeepCount(cfg, limits, w, cues[..|cues| - 1]);
    }
  }

  /** The result's counters are exact: as many fills as the broker emitted, and as many orders as
      were ever made, rejected ones included. */
  lemma {:induction false} CountersAreExact(cfg: SimConfig, limits: RiskLimits, steps: seq<Step>)
    ensures Counted(Backtest(cfg, limits, steps))
  {
    hide Counted, CuedAll, BarTicked;
    if steps == [] {
      NothingCounted(cfg);
    } else {
      var n := |steps| - 1;
      var w := Backtest(cfg, limits, steps[..n]);
      CountersAreExact(cfg, limits, steps[..n]);
      TickKeepsCount(cfg, w, steps[n].bar);
      CuesKeepCount(cfg, limits, BarTicked(cfg, w, steps[n].bar), steps[n].cues);
      MarkKeepsCount(CuedAll(cfg, limits, BarTicked(cfg, w, steps[n].bar), steps[n].cues), steps[n].bar);
    }
  }

  lemma NothingCounted(cfg: SimConfig)
    ensures Counted(NewWorld(cfg))
  {
  }

  lemma MarkKeepsCount(w: World, bar: Bar)
    requires Counted(w)
    ensures Counted(BarMarked(w, bar))
  {
  }
}
