/** Where a disciplined backtest stands after its signals, when risk stops nothing: long ten of every
    instrument whose last signal was up, and flat in the others. */
module SignalFollowing {
  import opened Core
  import opened Ledgers
  import opened SimModel
  import opened Risk
  import opened OmsModel
  import opened OrderTheorems
  import opened BacktestModel
  import opened LedgerTheorems
  import opened BacktestOrders
  import opened Discipline
  import opened SmaCross

  /** What is held, with what is queued. */
  ghost function Aim(w: World, key: string): real
    requires Coherent(w)
  {
    OnKeyKnown(w.oms.sim.pending, w.oms.sim.orders, key);
    var due := OnKey(w.oms.sim.pending, w.oms.sim.orders, key);
    QtyAt(w.trk.positions, key)
    + if due == [] then 0.0
      else SignedQty(w.oms.sim.orders[due[0].id].ticket.side, w.oms.sim.orders[due[0].id].ticket.qty)
  }

  /** The last score, other than zero, that the strategy gave an instrument. */
  function LastScore(steps: seq<Step>, key: string): real {
    if steps == [] then 0.0
    else
      var s := steps[|steps| - 1];
      if |s.cues| == 1 && s.cues[0].signal.instrument.key == key && s.cues[0].signal.score != 0.0 then s.cues[0].signal.score
      else LastScore(steps[..|steps| - 1], key)
  }

  /** Limits that cannot stop an order of a disciplined backtest of so many bars. */
  predicate NeverBites(limits: RiskLimits, bars: nat) {
    && (limits.maxQtyPerSymbol.Some? ==> limits.maxQtyPerSymbol.value >= 10.0) && limits.maxDailyLoss.None?
    && limits.maxOrdersPerMinute >= bars
  }

  /** A bar trades what was aimed at, and aims at nothing else. */
  lemma TickKeepsAim(cfg: SimConfig, w: World, bar: Bar, key: string)
    requires cfg.maxQtyPerBar.None? && Disciplined(cfg, w)
    ensures Aim(BarTicked(cfg, w, bar), key) == Aim(w, key)
  {
    hide SharedRecord.DoubleBooked, PostedAll, BarTicked, Agree;
    var sim, on, w' := w.oms.sim, bar.instrument.key, BarTicked(cfg, w, bar);
    assert ReadyAt(w, key);
    OnKeyKnown(sim.pending, sim.orders, key);
    TickMoves(cfg, w, bar, key);
    TickParts(cfg, w, bar);
    TickKeepsTickets(cfg, w, bar);
    OnKeyOffKey(sim.pending, sim.orders, w'.oms.sim.orders, on, key);
  }

  lemma TickKeepsTimes(cfg: SimConfig, w: World, bar: Bar)
    requires Coherent(w)
    ensures BarTicked(cfg, w, bar).oms.risk.orderTimes == w.oms.risk.orderTimes
  {
    ForwardedAllParts(w.(oms := w.oms.(sim := Ticked(cfg, w.oms.sim, bar.Quote()))), BarFills(cfg, w, bar));
  }

  lemma OrderPasses(limits: RiskLimits, w: World, cue: Cue, bars: nat)
    requires Coherent(w) && Agree(w) && ReadyAt(w, cue.signal.instrument.key) && OrderOn(w, cue).Some?
    requires NeverBites(limits, bars) && |w.oms.risk.orderTimes| < bars
    ensures VerdictOn(limits, MODE, w.oms, OrderOn(w, cue).value, cue.now) == Passed
  {
    RecentIsShorter(w.oms.risk.orderTimes, cue.now - 60.0);
  }

  lemma PassedQueues(cfg: SimConfig, limits: RiskLimits, w: World, cue: Cue, key: string)
    requires Separate(w) && OrderOn(w, cue).Some? && VerdictOn(limits, MODE, w.oms, OrderOn(w, cue).value, cue.now) == Passed
    ensures var sim, sim', t := w.oms.sim, Cued(cfg, limits, w, cue).oms.sim, OrderOn(w, cue).value;
            && t.id in sim'.orders && sim'.orders[t.id].ticket == t && Known(sim'.orders, sim'.pending)
            && SameTickets(sim.orders, sim'.orders)
            && OnKey(sim'.pending, sim'.orders, key)
               == OnKey(sim.pending, sim.orders, key) + if t.instrument.key == key then [Pend(t.id, cfg.latencyBars)] else []
  {
    hide Judged, Checked, OnKey;
    var t := OrderOn(w, cue).value;
    PlacedOnKey(w.oms.sim.pending, w.oms.sim.orders, NewOrder(t).(brokerOrderId := Some(w.oms.sim.brokerIds), status := Sent),
                cfg.latencyBars, key);
  }

  /** What a signal makes of the aim. */
  function Aimed(before: real, score: real): real {
    if score > 0.0 then 10.0 else if score < 0.0 then 0.0 else before
  }

  lemma CueAims(cfg: SimConfig, limits: RiskLimits, w: World, cue: Cue, bars: nat, key: string)
    requires SoundConfig(cfg) && Disciplined(cfg, w) && NeverBites(limits, bars) && |w.oms.risk.orderTimes| < bars
    requires OnKey(w.oms.sim.pending, w.oms.sim.orders, cue.signal.instrument.key) == []
    ensures Aim(Cued(cfg, limits, w, cue), key)
            == if cue.signal.instrument.key == key then Aimed(Aim(w, key), cue.signal.score) else Aim(w, key)
  {
    hide SharedRecord.DoubleBooked, Agree, Submitted, OnKey;
    var on := cue.signal.instrument.key;
    assert ReadyAt(w, key) && ReadyAt(w, on);
    OnKeyKnown(w.oms.sim.pending, w.oms.sim.orders, key);
    if OrderOn(w, cue).Some? {
      OrderPasses(limits, w, cue, bars);
      PassedQueues(cfg, limits, w, cue, key);
      CuedLedger(cfg, limits, w, cue);
      var due := OnKey(w.oms.sim.pending, w.oms.sim.orders, key);
      assert due + [] == due;
      assert [] + [Pend(w.nOrders, cfg.latencyBars)] == [Pend(w.nOrders, cfg.latencyBars)];
    }
  }

  lemma CuedLedger(cfg: SimConfig, limits: RiskLimits, w: World, cue: Cue)
    requires Coherent(w)
    ensures Cued(cfg, limits, w, cue).trk == w.trk
    ensures |Cued(cfg, limits, w, cue).oms.risk.orderTimes| <= |w.oms.risk.orderTimes| + 1
  {
    if OrderOn(w, cue).Some? {
      SubmitFiles(cfg, limits, MODE, w.oms, OrderOn(w, cue).value, cue.now);
    }
  }

  /** One step. */
  lemma StepAims(cfg: SimConfig, limits: RiskLimits, w: World, step: Step, bars: nat, key: string)
    requires cfg.maxQtyPerBar.None? && cfg.latencyBars <= 0 && Disciplined(cfg, w) && OneSignal(step)
    requires NeverBites(limits, bars) && |w.oms.risk.orderTimes| < bars
    ensures var w' := BarRun(cfg, limits, w, step);
            && |w'.oms.risk.orderTimes| <= |w.oms.risk.orderTimes| + 1
            && Aim(w', key) == if |step.cues| == 1 && step.cues[0].signal.instrument.key == key
                               then Aimed(Aim(w, key), step.cues[0].signal.score) else Aim(w, key)
  {
    hide SharedRecord.DoubleBooked, Agree, ReadyAt, BarTicked, Cued, Aim, Aimed;
    var w1 := BarTicked(cfg, w, step.bar);
    TickKeepsDiscipline(cfg, w, step.bar);
    TickKeepsAim(cfg, w, step.bar, key);
    TickKeepsTimes(cfg, w, step.bar);
    assert CuedAll(cfg, limits, w1, []) == w1;
    if step.cues == [] {
      MarkKeepsAim(w1, step.bar, key);
    } else {
      assert step.cues[..|step.cues| - 1] == [];
      assert CuedAll(cfg, limits, w1, step.cues) == Cued(cfg, limits, w1, step.cues[0]);
      CueAims(cfg, limits, w1, step.cues[0], bars, key);
      CuedLedger(cfg, limits, w1, step.cues[0]);
      MarkKeepsAim(Cued(cfg, limits, w1, step.cues[0]), step.bar, key);
    }
  }

  lemma MarkKeepsAim(w: World, bar: Bar, key: string)
    requires Coherent(w)
    ensures Aim(BarMarked(w, bar), key) == Aim(w, key) && BarMarked(w, bar).oms == w.oms
  {
  }

  /** After every bar of such a backtest: what is held of an instrument, with the order that is queued
      for it, is ten if its last signal was positive, and nothing if it was negative or there was none. */
  lemma {:induction false} SignalsAreFollowed(cfg: SimConfig, limits: RiskLimits, steps: seq<Step>, key: string, bars: nat)
    requires cfg.maxQtyPerBar.None? && cfg.latencyBars <= 0 && NeverBites(limits, bars) && |steps| <= bars
    requires forall i :: 0 <= i < |steps| ==> OneSignal(steps[i])
    ensures var w := Backtest(cfg, limits, steps);
            && |w.oms.risk.orderTimes| <= |steps|
            && Aim(w, key) == if LastScore(steps, key) > 0.0 then 10.0 else 0.0
  {
    hide Aim, BarRun, Disciplined;
    if steps == [] {
      NothingAimedAt(cfg, key);
    } else {
      var n := |steps| - 1;
      SignalsAreFollowed(cfg, limits, steps[..n], key, bars);
      BacktestsAreDisciplined(cfg, limits, steps[..n]);
      StepAims(cfg, limits, Backtest(cfg, limits, steps[..n]), steps[n], bars, key);
    }
  }

  lemma NothingAimedAt(cfg: SimConfig, key: string)
    ensures Aim(NewWorld(cfg), key) == 0.0
  {
  }

  /** And a bar of the instrument later, with nothing new to say, it is held. */
  lemma SignalsAreHeld(cfg: SimConfig, limits: RiskLimits, steps: seq<Step>, bar: Bar)
    requires cfg.maxQtyPerBar.None? && cfg.latencyBars <= 0 && NeverBites(limits, |steps| + 1)
    requires forall i :: 0 <= i < |steps| ==> OneSignal(steps[i])
    ensures QtyAt(Backtest(cfg, limits, steps + [Step(bar, [])]).trk.positions, bar.instrument.key)
            == if LastScore(steps, bar.instrument.key) > 0.0 then 10.0 else 0.0
  {
    hide Disciplined, BarTicked;
    var w := Backtest(cfg, limits, steps);
    assert (steps + [Step(bar, [])])[..|steps|] == steps;
    SignalsAreFollowed(cfg, limits, steps, bar.instrument.key, |steps| + 1);
    BacktestsAreDisciplined(cfg, limits, steps);
    TickKeepsAim(cfg, w, bar, bar.instrument.key);
    TickKeepsDiscipline(cfg, w, bar);
  }

  // ---- The moving-average strategy ----

  /** The last score of the strategy's steps is its last direction. */
  lemma {:induction false} LastScoreIsDirection(fast: int, slow: int, bars: seq<Bar>, clock: nat -> real, key: string)
    requires fast != 0 && slow != 0
    ensures var sent := Signalled(fast, slow, bars, key);
            LastScore(SmaSteps(fast, slow, bars, clock), key) == if sent == [] then 0.0 else sent[|sent| - 1] as real
  {
    hide Direction;
    if bars != [] {
      var n := |bars| - 1;
      LastScoreIsDirection(fast, slow, bars[..n], clock, key);
      var steps := SmaSteps(fast, slow, bars, clock);
      assert steps[..|steps| - 1] == SmaSteps(fast, slow, bars[..n], clock);
      var sent := Signalled(fast, slow, bars[..n], key);
      assert sent + [] == sent;
      SignalsAlternate(fast, slow, bars, key);
    }
  }

  /** The demo backtest, where risk stops nothing: it is long ten, or about to be, exactly of those
      instruments whose last crossing was upwards. */
  lemma SmaHoldsWhatCrossedUp(cfg: SimConfig, limits: RiskLimits, fast: int, slow: int, bars: seq<Bar>, clock: nat -> real,
                              key: string)
    requires cfg.maxQtyPerBar.None? && cfg.latencyBars <= 0 && fast != 0 && slow != 0 && NeverBites(limits, |bars|)
    ensures var sent := Signalled(fast, slow, bars, key);
            Aim(Backtest(cfg, limits, SmaSteps(fast, slow, bars, clock)), key)
            == if sent != [] && sent[|sent| - 1] == 1 then 10.0 else 0.0
  {
    hide Aim, Backtest;
    SmaSignalsOnce(fast, slow, bars, clock);
    SignalsAreFollowed(cfg, limits, SmaSteps(fast, slow, bars, clock), key, |bars|);
    LastScoreIsDirection(fast, slow, bars, clock, key);
    SignalsAlternate(fast, slow, bars, key);
  }
}
