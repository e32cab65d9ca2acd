/** The kill-switch over whole runs: what a trip stops, and the one thing that lifts it. */
module KillSwitch {
  import opened Core
  import opened Totals
  import opened Ledgers
  import opened SimModel
  import opened Risk
  import opened OmsModel
  import opened OrderLife
  import opened OrderTheorems

  /** What a host can do with an OMS on the simulated broker: submit an order, or push a quote and
      forward the fills it brings. */
  datatype HostEvent = Submit(t: Ticket, now: real) | Push(q: Quote)

  ghost function FilledOmsAll(o: OmsState, fills: seq<Fill>): (o': OmsState)
    ensures o'.sim.pending == o.sim.pending && o'.sim.orders.Keys == o.sim.orders.Keys
  {
    if fills == [] then o else FilledOms(FilledOmsAll(o, fills[..|fills| - 1]), fills[|fills| - 1])
  }

  ghost function Hosted(cfg: SimConfig, limits: RiskLimits, mode: string, o: OmsState, e: HostEvent): (o': OmsState)
    requires Known(o.sim.orders, o.sim.pending)
    ensures Known(o'.sim.orders, o'.sim.pending)
  {
    match e
    case Submit(t, now) => Submitted(cfg, limits, mode, o, NewOrder(t), now)
    case Push(q) => FilledOmsAll(o.(sim := Ticked(cfg, o.sim, q)), Emitted(cfg, o.sim, q))
  }

  ghost function HostedAll(cfg: SimConfig, limits: RiskLimits, mode: string, o: OmsState, es: seq<HostEvent>): (o': OmsState)
    requires Known(o.sim.orders, o.sim.pending)
    ensures Known(o'.sim.orders, o'.sim.pending)
  {
    if es == [] then o else Hosted(cfg, limits, mode, HostedAll(cfg, limits, mode, o, es[..|es| - 1]), es[|es| - 1])
  }

  // ---- With nothing queued ----

  /** Nothing is queued and the day's loss is at or past the limit. */
  predicate Halted(limits: RiskLimits, o: OmsState) {
    o.sim.pending == [] && Killed(limits, o.risk.dailyRealisedPnl)
  }

  /** Trading has not moved: no fill, no position, no cash, no profit, no order sent. */
  predicate StoodStill(o: OmsState, o': OmsState) {
    && o'.sim.pending == o.sim.pending && o'.sim.queue == o.sim.queue && o'.sim.positions == o.sim.positions
    && o'.sim.cash == o.sim.cash && o'.sim.brokerIds == o.sim.brokerIds && o'.positions == o.positions
    && o'.risk.dailyRealisedPnl == o.risk.dailyRealisedPnl
  }

  lemma HaltedStep(cfg: SimConfig, limits: RiskLimits, mode: string, o: OmsState, e: HostEvent)
    requires Halted(limits, o)
    ensures StoodStill(o, Hosted(cfg, limits, mode, o, e))
  {
    match e
    case Submit(t, now) =>
      assert VerdictOn(limits, mode, o, t, now) != Passed;
    case Push(q) =>
      if q.Price().Some? {
        assert Swept(cfg, q.Price().value, q.instrument.key, [], o.sim.orders, 0) == Sweep(o.sim.orders, [], []);
        assert o.sim.queue + [] == o.sim.queue;
      }
  }

  /** A tripped kill-switch is absorbing: once tripped with nothing queued, no sequence of orders
      and quotes ever trades again. */
  lemma {:induction false} KillSwitchAbsorbs(cfg: SimConfig, limits: RiskLimits, mode: string, o: OmsState, es: seq<HostEvent>)
    requires Halted(limits, o)
    ensures var o' := HostedAll(cfg, limits, mode, o, es);
            Halted(limits, o') && StoodStill(o, o')
  {
    if es != [] {
      KillSwitchAbsorbs(cfg, limits, mode, o, es[..|es| - 1]);
      HaltedStep(cfg, limits, mode, HostedAll(cfg, limits, mode, o, es[..|es| - 1]), es[|es| - 1]);
    }
  }

  // ---- With any queue ----

  function Ids(pending: seq<Pend>): set<Id> {
    set p | p in pending :: p.id
  }

  /** What a tick emits comes from the queue, and so does what it leaves queued. */
  lemma {:induction false} SweptFromQueue(cfg: SimConfig, price: real, key: string, pending: seq<Pend>, orders: Orders,
                                          n: nat)
    requires n <= |pending| && Known(orders, pending) && SelfKeyed(orders)
    ensures var w := Swept(cfg, price, key, pending, orders, n);
            && SelfKeyed(w.orders) && Ids(w.still) <= Ids(pending)
            && forall i :: 0 <= i < |w.emitted| ==> w.emitted[i].orderId in Ids(pending)
  {
    hide Visited, SelfKeyed;
    if n > 0 {
      SweptFromQueue(cfg, price, key, pending, orders, n - 1);
      var w, p := Swept(cfg, price, key, pending, orders, n - 1), pending[n - 1];
      assert p.id in Ids(pending);
      var v := Visited(cfg, price, key, p.bars, w.orders[p.id]);
      VisitedOwner(cfg, price, key, p.bars, w.orders, p.id);
      AttributedNext(w, p, v, orders);
    }
  }

  /** Fills move positions, profit and records, and nothing else. */
  lemma {:induction false} FilledParts(o: OmsState, fills: seq<Fill>)
    ensures var o' := FilledOmsAll(o, fills);
            && o'.sim == o.sim.(orders := o'.sim.orders) && o'.risk.orderTimes == o.risk.orderTimes
            && o'.positions == PostedAll(o.positions, fills)
            && o'.risk.dailyRealisedPnl == (if fills == [] then o.risk.dailyRealisedPnl else Total(RealisedPnls(o'.positions)))
            && (SelfKeyed(o.sim.orders) ==> SelfKeyed(o'.sim.orders))
  {
    if fills != [] {
      FilledParts(o, fills[..|fills| - 1]);
    }
  }

  /** What one event does while the switch is tripped: nothing is sent, nothing joins the queue, and
      only a push that fills a queued order can move the profit. */
  ghost predicate HeldStill(cfg: SimConfig, o: OmsState, e: HostEvent, o': OmsState)
    requires Known(o.sim.orders, o.sim.pending)
  {
    && SelfKeyed(o'.sim.orders) && o'.sim.brokerIds == o.sim.brokerIds && Ids(o'.sim.pending) <= Ids(o.sim.pending)
    && (o'.risk.dailyRealisedPnl != o.risk.dailyRealisedPnl ==>
          && e.Push? && Emitted(cfg, o.sim, e.q) != []
          && forall i :: 0 <= i < |Emitted(cfg, o.sim, e.q)| ==> Emitted(cfg, o.sim, e.q)[i].orderId in Ids(o.sim.pending))
  }

  lemma TrippedStep(cfg: SimConfig, limits: RiskLimits, mode: string, o: OmsState, e: HostEvent)
    requires Known(o.sim.orders, o.sim.pending) && SelfKeyed(o.sim.orders) && Killed(limits, o.risk.dailyRealisedPnl)
    ensures HeldStill(cfg, o, e, Hosted(cfg, limits, mode, o, e))
  {
    match e
    case Submit(t, now) =>
      assert VerdictOn(limits, mode, o, t, now) != Passed;
    case Push(q) =>
      if q.Price().Some? {
        SweptFromQueue(cfg, q.Price().value, q.instrument.key, o.sim.pending, o.sim.orders, |o.sim.pending|);
      }
      FilledParts(o.(sim := Ticked(cfg, o.sim, q)), Emitted(cfg, o.sim, q));
  }

  /** The `k`th event is what lifts the switch: a push that fills orders queued at the trip, up to
      which the switch held and nothing was sent. */
  ghost predicate Lifts(cfg: SimConfig, limits: RiskLimits, mode: string, o: OmsState, es: seq<HostEvent>, k: nat)
    requires Known(o.sim.orders, o.sim.pending)
  {
    && k < |es| && es[k].Push?
    && var before, after := HostedAll(cfg, limits, mode, o, es[..k]), HostedAll(cfg, limits, mode, o, es[..k + 1]);
       var out := Emitted(cfg, before.sim, es[k].q);
       && Killed(limits, before.risk.dailyRealisedPnl) && !Killed(limits, after.risk.dailyRealisedPnl)
       && after.sim.brokerIds == o.sim.brokerIds
       && out != [] && forall i :: 0 <= i < |out| ==> out[i].orderId in Ids(o.sim.pending)
  }

  /** The switch still holds: tripped, nothing sent, and the queue no more than it was. */
  ghost predicate Holds(limits: RiskLimits, o: OmsState, o': OmsState) {
    && SelfKeyed(o'.sim.orders) && Killed(limits, o'.risk.dailyRealisedPnl)
    && o'.sim.brokerIds == o.sim.brokerIds && Ids(o'.sim.pending) <= Ids(o.sim.pending)
  }

  lemma HoldsOrLifts(cfg: SimConfig, limits: RiskLimits, mode: string, o: OmsState, es: seq<HostEvent>, k: nat)
    requires Known(o.sim.orders, o.sim.pending) && k < |es| && Holds(limits, o, HostedAll(cfg, limits, mode, o, es[..k]))
    ensures Holds(limits, o, HostedAll(cfg, limits, mode, o, es[..k + 1])) || Lifts(cfg, limits, mode, o, es, k)
  {
    hide Hosted, Killed;
    assert es[..k + 1][..k] == es[..k];
    TrippedStep(cfg, limits, mode, HostedAll(cfg, limits, mode, o, es[..k]), es[k]);
  }

  /** From a trip with any queue, over any run: the switch holds and no order is sent until some
      push fills an order that was queued at the trip and so lifts the profit above the limit; and
      without such a push it holds for good. */
  lemma {:induction false} HoldsUntilLifted(cfg: SimConfig, limits: RiskLimits, mode: string, o: OmsState, es: seq<HostEvent>)
    requires Known(o.sim.orders, o.sim.pending) && SelfKeyed(o.sim.orders) && Killed(limits, o.risk.dailyRealisedPnl)
    ensures Holds(limits, o, HostedAll(cfg, limits, mode, o, es)) || exists k :: Lifts(cfg, limits, mode, o, es, k)
  {
    hide Lifts, Holds;
    HoldsAtFirst(limits, o);
    if es != [] {
      var n := |es| - 1;
      HoldsUntilLifted(cfg, limits, mode, o, es[..n]);
      assert es[..n + 1] == es;
      if Holds(limits, o, HostedAll(cfg, limits, mode, o, es[..n])) {
        HoldsOrLifts(cfg, limits, mode, o, es, n);
      } else {
        var k :| Lifts(cfg, limits, mode, o, es[..n], k);
        LiftsLater(cfg, limits, mode, o, es, n, k);
      }
    }
  }

  lemma HoldsAtFirst(limits: RiskLimits, o: OmsState)
    requires SelfKeyed(o.sim.orders) && Killed(limits, o.risk.dailyRealisedPnl)
    ensures Holds(limits, o, o)
  {
  }

  lemma LiftsLater(cfg: SimConfig, limits: RiskLimits, mode: string, o: OmsState, es: seq<HostEvent>, n: nat, k: nat)
    requires Known(o.sim.orders, o.sim.pending) && n <= |es| && Lifts(cfg, limits, mode, o, es[..n], k)
    ensures Lifts(cfg, limits, mode, o, es, k)
  {
    hide Hosted, Killed;
    assert es[..n][..k] == es[..k] && es[..n][..k + 1] == es[..k + 1];
  }

  /** Said of single orders: a run from a trip sends an order only if the switch was lifted. */
  lemma SentOnlyIfLifted(cfg: SimConfig, limits: RiskLimits, mode: string, o: OmsState, es: seq<HostEvent>)
    requires Known(o.sim.orders, o.sim.pending) && SelfKeyed(o.sim.orders) && Killed(limits, o.risk.dailyRealisedPnl)
    requires HostedAll(cfg, limits, mode, o, es).sim.brokerIds != o.sim.brokerIds
          || !Killed(limits, HostedAll(cfg, limits, mode, o, es).risk.dailyRealisedPnl)
    ensures exists k :: Lifts(cfg, limits, mode, o, es, k)
  {
    hide Lifts;
    HoldsUntilLifted(cfg, limits, mode, o, es);
  }
}
