/** The rate limit where it is enforced: over whole runs of the OMS, of a backtest and of the
    executor. */
module RateLimit {
  import opened Core
  import opened Ledgers
  import opened SimModel
  import opened Risk
  import opened OmsModel
  import opened BacktestModel
  import opened KillSwitch
  import opened Executor

  /** Submits come in the order of the clock. */
  predicate InOrder(es: seq<HostEvent>) {
    forall i, j :: 0 <= i < j < |es| && es[i].Submit? && es[j].Submit? ==> es[i].now <= es[j].now
  }

  /** The submit sends its order to the broker. */
  ghost predicate Sends(cfg: SimConfig, limits: RiskLimits, mode: string, o: OmsState, e: HostEvent)
    requires Known(o.sim.orders, o.sim.pending)
  {
    e.Submit? && Hosted(cfg, limits, mode, o, e).sim.brokerIds > o.sim.brokerIds
  }

  /** Or it is the kill-switch that stops it, the last of the gates: it has taken a slot all the same. */
  ghost predicate TakesSlot(cfg: SimConfig, limits: RiskLimits, mode: string, o: OmsState, e: HostEvent)
    requires Known(o.sim.orders, o.sim.pending)
  {
    Sends(cfg, limits, mode, o, e) || (e.Submit? && VerdictOn(limits, mode, o, e.t, e.now) == Verdict.KillSwitch)
  }

  /** When the submits of a run sent their orders. */
  ghost function SendTimes(cfg: SimConfig, limits: RiskLimits, mode: string, o: OmsState, es: seq<HostEvent>): seq<real>
    requires Known(o.sim.orders, o.sim.pending)
  {
    if es == [] then []
    else
      var n := |es| - 1;
      SendTimes(cfg, limits, mode, o, es[..n])
      + if Sends(cfg, limits, mode, HostedAll(cfg, limits, mode, o, es[..n]), es[n]) then [es[n].now] else []
  }

  /** When the submits of a run took their slots. */
  ghost function SlotsTaken(cfg: SimConfig, limits: RiskLimits, mode: string, o: OmsState, es: seq<HostEvent>): seq<real>
    requires Known(o.sim.orders, o.sim.pending)
  {
    if es == [] then []
    else
      var n := |es| - 1;
      SlotsTaken(cfg, limits, mode, o, es[..n])
      + if TakesSlot(cfg, limits, mode, HostedAll(cfg, limits, mode, o, es[..n]), es[n]) then [es[n].now] else []
  }

  // ---- A run, as the risk engine sees it ----

  function AttemptAt(o: OmsState, e: HostEvent): Attempt
    requires e.Submit?
  {
    Attempt(e.t, Held(o.positions, e.t.instrument).qty, o.risk.dailyRealisedPnl, e.now)
  }

  ghost function AttemptsOf(cfg: SimConfig, limits: RiskLimits, mode: string, o: OmsState, es: seq<HostEvent>): seq<Attempt>
    requires Known(o.sim.orders, o.sim.pending)
  {
    if es == [] then []
    else
      var n := |es| - 1;
      AttemptsOf(cfg, limits, mode, o, es[..n])
      + if es[n].Submit? then [AttemptAt(HostedAll(cfg, limits, mode, o, es[..n]), es[n])] else []
  }

  lemma SubmitChecks(limits: RiskLimits, mode: string, o: OmsState, e: HostEvent, before: seq<Attempt>)
    requires e.Submit? && o.risk.orderTimes == StateAfter(limits, mode, before).orderTimes
    ensures var more := before + [AttemptAt(o, e)];
            && LastVerdict(limits, mode, more) == VerdictOn(limits, mode, o, e.t, e.now)
            && StateAfter(limits, mode, more)
               == Checked(limits, o.risk, e.t, mode, Held(o.positions, e.t.instrument).qty, e.now)
            && SlotTimes(limits, mode, more)
               == SlotTimes(limits, mode, before) + Slot(VerdictOn(limits, mode, o, e.t, e.now), e.now)
  {
    hide Checked, Judged;
    var more := before + [AttemptAt(o, e)];
    assert more[..|more| - 1] == before;
    assert StateBefore(limits, mode, more) == o.risk;
  }

  lemma SubmitTakes(cfg: SimConfig, limits: RiskLimits, mode: string, o: OmsState, e: HostEvent)
    requires Known(o.sim.orders, o.sim.pending) && e.Submit?
    ensures Slot(VerdictOn(limits, mode, o, e.t, e.now), e.now)
            == if TakesSlot(cfg, limits, mode, o, e) then [e.now] else []
    ensures Hosted(cfg, limits, mode, o, e).risk
            == Checked(limits, o.risk, e.t, mode, Held(o.positions, e.t.instrument).qty, e.now)
  {
    hide Checked, Judged;
  }

  /** The engine's list, and the slots, are those of the checks the run amounts to. */
  lemma {:induction false} RunIsChecked(cfg: SimConfig, limits: RiskLimits, mode: string, o: OmsState, es: seq<HostEvent>)
    requires Known(o.sim.orders, o.sim.pending) && o.risk.orderTimes == []
    ensures var attempts := AttemptsOf(cfg, limits, mode, o, es);
            && HostedAll(cfg, limits, mode, o, es).risk.orderTimes == StateAfter(limits, mode, attempts).orderTimes
            && SlotsTaken(cfg, limits, mode, o, es) == SlotTimes(limits, mode, attempts)
  {
    hide Hosted, TakesSlot, StateAfter, SlotTimes, VerdictOn, Checked;
    if es == [] {
      NoChecks(limits, mode);
    } else {
      var n := |es| - 1;
      RunIsChecked(cfg, limits, mode, o, es[..n]);
      var o', before := HostedAll(cfg, limits, mode, o, es[..n]), AttemptsOf(cfg, limits, mode, o, es[..n]);
      if es[n].Submit? {
        SubmitChecks(limits, mode, o', es[n], before);
        SubmitTakes(cfg, limits, mode, o', es[n]);
      } else {
        PushChecksNothing(cfg, limits, mode, o', es[n]);
        assert before + [] == before;
        assert SlotsTaken(cfg, limits, mode, o, es[..n]) + [] == SlotsTaken(cfg, limits, mode, o, es[..n]);
      }
    }
  }

  lemma NoChecks(limits: RiskLimits, mode: string)
    ensures StateAfter(limits, mode, []).orderTimes == [] && SlotTimes(limits, mode, []) == []
  {
  }

  lemma PushChecksNothing(cfg: SimConfig, limits: RiskLimits, mode: string, o: OmsState, e: HostEvent)
    requires Known(o.sim.orders, o.sim.pending) && e.Push?
    ensures Hosted(cfg, limits, mode, o, e).risk.orderTimes == o.risk.orderTimes && !TakesSlot(cfg, limits, mode, o, e)
  {
    FilledParts(o.(sim := Ticked(cfg, o.sim, e.q)), Emitted(cfg, o.sim, e.q));
  }

  predicate SubmitsAt(es: seq<HostEvent>, now: real) {
    exists k :: 0 <= k < |es| && es[k].Submit? && es[k].now == now
  }

  lemma SubmitsAtSnoc(es: seq<HostEvent>, now: real)
    requires es != [] && SubmitsAt(es[..|es| - 1], now)
    ensures SubmitsAt(es, now) && (InOrder(es) && es[|es| - 1].Submit? ==> now <= es[|es| - 1].now)
  {
    var n := |es| - 1;
    var k :| 0 <= k < n && es[..n][k].Submit? && es[..n][k].now == now;
    assert es[k].Submit? && es[k].now == now;
  }

  lemma {:induction false} AttemptsInOrder(cfg: SimConfig, limits: RiskLimits, mode: string, o: OmsState, es: seq<HostEvent>)
    requires Known(o.sim.orders, o.sim.pending) && InOrder(es)
    ensures var attempts := AttemptsOf(cfg, limits, mode, o, es);
            Monotone(attempts) && forall i :: 0 <= i < |attempts| ==> SubmitsAt(es, attempts[i].now)
  {
    hide Hosted, SubmitsAt;
    if es != [] {
      var n := |es| - 1;
      assert forall i :: 0 <= i < n ==> es[..n][i] == es[i];
      AttemptsInOrder(cfg, limits, mode, o, es[..n]);
      var before, attempts := AttemptsOf(cfg, limits, mode, o, es[..n]), AttemptsOf(cfg, limits, mode, o, es);
      forall i | 0 <= i < |before|
        ensures SubmitsAt(es, before[i].now) && (es[n].Submit? ==> before[i].now <= es[n].now)
      {
        SubmitsAtSnoc(es, before[i].now);
      }
      if es[n].Submit? {
        SubmitsAtLast(es);
      }
    }
  }

  lemma SubmitsAtLast(es: seq<HostEvent>)
    requires es != [] && es[|es| - 1].Submit?
    ensures SubmitsAt(es, es[|es| - 1].now)
  {
  }

  // ---- What is promised ----

  /** The limit as the OMS enforces it, over any run of submits in the order of the clock, quotes and
      fills: in every half-open minute the submits that take a slot, by sending their order or by
      getting as far as a tripped kill-switch, are within the limit. */
  lemma SlotsPerMinute(cfg: SimConfig, limits: RiskLimits, mode: string, o: OmsState, es: seq<HostEvent>, from: real)
    requires Known(o.sim.orders, o.sim.pending) && o.risk.orderTimes == [] && InOrder(es)
    ensures InMinute(SlotsTaken(cfg, limits, mode, o, es), from)
            <= if limits.maxOrdersPerMinute > 0 then limits.maxOrdersPerMinute else 0
  {
    RunIsChecked(cfg, limits, mode, o, es);
    AttemptsInOrder(cfg, limits, mode, o, es);
    RateLimitHolds(limits, mode, AttemptsOf(cfg, limits, mode, o, es), from);
  }

  /** So no half-open minute sees more orders sent than the limit. */
  lemma SentPerMinute(cfg: SimConfig, limits: RiskLimits, mode: string, o: OmsState, es: seq<HostEvent>, from: real)
    requires Known(o.sim.orders, o.sim.pending) && o.risk.orderTimes == [] && InOrder(es)
    ensures InMinute(SendTimes(cfg, limits, mode, o, es), from)
            <= if limits.maxOrdersPerMinute > 0 then limits.maxOrdersPerMinute else 0
  {
    SlotsPerMinute(cfg, limits, mode, o, es, from);
    SendsTakeSlots(cfg, limits, mode, o, es, from);
  }

  lemma InMinuteNext(times: seq<real>, x: real, from: real)
    ensures InMinute(times + [x], from) == InMinute(times, from) + if from <= x < from + 60.0 then 1 else 0
    ensures InMinute(times + [], from) == InMinute(times, from)
  {
    assert (times + [x])[..|times|] == times;
    assert times + [] == times;
  }

  lemma {:induction false} SendsTakeSlots(cfg: SimConfig, limits: RiskLimits, mode: string, o: OmsState, es: seq<HostEvent>,
                                          from: real)
    requires Known(o.sim.orders, o.sim.pending)
    ensures InMinute(SendTimes(cfg, limits, mode, o, es), from) <= InMinute(SlotsTaken(cfg, limits, mode, o, es), from)
  {
    hide InMinute, HostedAll, Hosted, VerdictOn;
    if es != [] {
      var n := |es| - 1;
      SendsTakeSlots(cfg, limits, mode, o, es[..n], from);
      var now := if es[n].Submit? then es[n].now else from;
      InMinuteNext(SendTimes(cfg, limits, mode, o, es[..n]), now, from);
      InMinuteNext(SlotsTaken(cfg, limits, mode, o, es[..n]), now, from);
    }
  }

  /** The times that are less than a minute back. */
  function InLastMinute(times: seq<real>, now: real): nat {
    if times == [] then 0
    else InLastMinute(times[..|times| - 1], now) + if now - times[|times| - 1] < 60.0 then 1 else 0
  }

  lemma {:induction false} RecentAreInLastMinute(times: seq<real>, now: real)
    ensures |Recent(times, now - 60.0)| == InLastMinute(times, now)
  {
    if times != [] {
      RecentAreInLastMinute(times[..|times| - 1], now);
    }
  }

  /** And it refuses no order without need: one that clears the gates before is refused for its rate
      if and only if the submits of the run that took slots less than a minute ago fill the limit. */
  lemma RefusedForRateIff(cfg: SimConfig, limits: RiskLimits, mode: string, o: OmsState, es: seq<HostEvent>, t: Ticket, now: real)
    requires Known(o.sim.orders, o.sim.pending) && o.risk.orderTimes == [] && InOrder(es + [Submit(t, now)])
    ensures var o' := HostedAll(cfg, limits, mode, o, es);
            VerdictOn(limits, mode, o', t, now) == RateBreached <==>
              && t.mode == mode
              && (limits.maxQtyPerSymbol.Some? ==>
                    Abs(QtyAt(o'.positions, t.instrument.key) + SignedQty(t.side, t.qty)) <= limits.maxQtyPerSymbol.value)
              && (limits.maxNotionalPerOrder.Some? && t.limitPrice.Some? ==>
                    t.qty * t.limitPrice.value <= limits.maxNotionalPerOrder.value)
              && InLastMinute(SlotsTaken(cfg, limits, mode, o, es), now) >= limits.maxOrdersPerMinute
  {
    hide HostedAll, SlotsTaken, Recent, InLastMinute;
    RunAnswersFor(cfg, limits, mode, o, es, t, now);
    RecentAreInLastMinute(SlotsTaken(cfg, limits, mode, o, es), now);
  }

  /** The engine's list is as good as all the slots there ever were. */
  lemma RunAnswersFor(cfg: SimConfig, limits: RiskLimits, mode: string, o: OmsState, es: seq<HostEvent>, t: Ticket, now: real)
    requires Known(o.sim.orders, o.sim.pending) && o.risk.orderTimes == [] && InOrder(es + [Submit(t, now)])
    ensures Recent(HostedAll(cfg, limits, mode, o, es).risk.orderTimes, now - 60.0)
            == Recent(SlotsTaken(cfg, limits, mode, o, es), now - 60.0)
  {
    hide HostedAll, SlotsTaken, Recent, StateAfter, SlotTimes, SubmitsAt;
    var more := es + [Submit(t, now)];
    assert more[..|more| - 1] == es && forall k :: 0 <= k < |es| ==> more[k] == es[k];
    RunIsChecked(cfg, limits, mode, o, es);
    AttemptsInOrder(cfg, limits, mode, o, es);
    var attempts := AttemptsOf(cfg, limits, mode, o, es);
    if attempts != [] {
      SubmitsAtSnoc(more, attempts[|attempts| - 1].now);
    }
    PruningForgetsNothing(limits, mode, attempts, now - 60.0);
  }

  // ---- Backtests and executors are such runs ----

  lemma {:induction false} HostedAllConcat(cfg: SimConfig, limits: RiskLimits, mode: string, o: OmsState, es: seq<HostEvent>,
                                           fs: seq<HostEvent>)
    requires Known(o.sim.orders, o.sim.pending)
    ensures HostedAll(cfg, limits, mode, o, es + fs) == HostedAll(cfg, limits, mode, HostedAll(cfg, limits, mode, o, es), fs)
  {
    hide Hosted;
    if fs == [] {
      assert es + fs == es;
    } else {
      var n := |fs| - 1;
      assert (es + fs)[..|es + fs| - 1] == es + fs[..n];
      HostedAllConcat(cfg, limits, mode, o, es, fs[..n]);
    }
  }

  lemma OneHosted(cfg: SimConfig, limits: RiskLimits, mode: string, o: OmsState, e: HostEvent)
    requires Known(o.sim.orders, o.sim.pending)
    ensures HostedAll(cfg, limits, mode, o, [e]) == Hosted(cfg, limits, mode, o, e)
  {
    hide Hosted;
    assert [e][..0] == [];
  }

  lemma {:induction false} ForwardedIsFilled(w: World, fills: seq<Fill>)
    ensures ForwardedAll(w, fills).oms == FilledOmsAll(w.oms, fills)
  {
    hide FilledOms;
    if fills != [] {
      ForwardedIsFilled(w, fills[..|fills| - 1]);
    }
  }

  ghost function CueEvents(cfg: SimConfig, limits: RiskLimits, w: World, cues: seq<Cue>): seq<HostEvent>
    requires Coherent(w)
  {
    if cues == [] then []
    else
      var n := |cues| - 1;
      var t := OrderOn(CuedAll(cfg, limits, w, cues[..n]), cues[n]);
      CueEvents(cfg, limits, w, cues[..n]) + if t.Some? then [Submit(t.value, cues[n].now)] else []
  }

  /** A backtest, as the OMS lives through it: each bar a quote, each order a submit. */
  ghost function BacktestEvents(cfg: SimConfig, limits: RiskLimits, steps: seq<Step>): seq<HostEvent> {
    if steps == [] then []
    else
      var n := |steps| - 1;
      var w := Backtest(cfg, limits, steps[..n]);
      BacktestEvents(cfg, limits, steps[..n]) + [Push(steps[n].bar.Quote())]
      + CueEvents(cfg, limits, BarTicked(cfg, w, steps[n].bar), steps[n].cues)
  }

  lemma {:induction false} CuesAreHosted(cfg: SimConfig, limits: RiskLimits, w: World, cues: seq<Cue>)
    requires Coherent(w)
    ensures CuedAll(cfg, limits, w, cues).oms == HostedAll(cfg, limits, MODE, w.oms, CueEvents(cfg, limits, w, cues))
  {
    hide Submitted;
    if cues != [] {
      var n := |cues| - 1;
      CuesAreHosted(cfg, limits, w, cues[..n]);
      var es, t := CueEvents(cfg, limits, w, cues[..n]), OrderOn(CuedAll(cfg, limits, w, cues[..n]), cues[n]);
      if t.Some? {
        assert (es + [Submit(t.value, cues[n].now)])[..|es|] == es;
      } else {
        assert es + [] == es;
      }
    }
  }

  lemma TickIsHosted(cfg: SimConfig, limits: RiskLimits, w: World, bar: Bar)
    requires Coherent(w)
    ensures BarTicked(cfg, w, bar).oms == Hosted(cfg, limits, MODE, w.oms, Push(bar.Quote()))
  {
    ForwardedIsFilled(w.(oms := w.oms.(sim := Ticked(cfg, w.oms.sim, bar.Quote()))), BarFills(cfg, w, bar));
  }

  /** Every backtest is a run of the OMS on the simulated broker, so what holds of all such runs holds
      of it: the rate, the kill-switch, the profit it judges by. */
  lemma {:induction false} BacktestIsHosted(cfg: SimConfig, limits: RiskLimits, steps: seq<Step>)
    ensures Backtest(cfg, limits, steps).oms
            == HostedAll(cfg, limits, MODE, NewOms(cfg), BacktestEvents(cfg, limits, steps))
  {
    hide Hosted, BarTicked, CuedAll, HostedAll;
    if steps == [] {
      NothingHosted(cfg, limits);
    } else {
      var n := |steps| - 1;
      BacktestIsHosted(cfg, limits, steps[..n]);
      var w, s := Backtest(cfg, limits, steps[..n]), steps[n];
      var ticked, es := BarTicked(cfg, w, s.bar), BacktestEvents(cfg, limits, steps[..n]);
      TickIsHosted(cfg, limits, w, s.bar);
      OneHosted(cfg, limits, MODE, w.oms, Push(s.bar.Quote()));
      HostedAllConcat(cfg, limits, MODE, NewOms(cfg), es, [Push(s.bar.Quote())]);
      CuesAreHosted(cfg, limits, ticked, s.cues);
      HostedAllConcat(cfg, limits, MODE, NewOms(cfg), es + [Push(s.bar.Quote())], CueEvents(cfg, limits, ticked, s.cues));
    }
  }

  lemma NothingHosted(cfg: SimConfig, limits: RiskLimits)
    ensures HostedAll(cfg, limits, MODE, NewOms(cfg), []) == NewOms(cfg)
  {
  }

  /** What the executor submits. */
  function SubmitEvents(ts: seq<Ticket>, clock: nat -> real): seq<HostEvent> {
    seq(|ts|, i requires 0 <= i < |ts| => Submit(ts[i], clock(i)))
  }

  lemma {:induction false} ChildrenAreHosted(cfg: SimConfig, limits: RiskLimits, mode: string, o: OmsState, ts: seq<Ticket>,
                                             clock: nat -> real)
    requires Known(o.sim.orders, o.sim.pending)
    ensures SubmittedAll(cfg, limits, mode, o, ts, clock) == HostedAll(cfg, limits, mode, o, SubmitEvents(ts, clock))
  {
    hide Submitted;
    if ts != [] {
      var n := |ts| - 1;
      ChildrenAreHosted(cfg, limits, mode, o, ts[..n], clock);
      assert SubmitEvents(ts, clock)[..n] == SubmitEvents(ts[..n], clock);
    }
  }
}
