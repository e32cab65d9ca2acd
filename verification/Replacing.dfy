/** Placing an order object that the broker has met before. `place_order` accepts it: it reads SENT
    again, gets a new broker id and joins the queue again, whatever it has traded and whether or not
    it is still queued. This is what conservation comes to then. */
module Replacing {
  import opened Core
  import opened SimModel
  import opened OrderLife
  import opened OrderTheorems
  import opened KillSwitch

  datatype WideEvent = Plain(e: Event) | Again(id: Id)

  /** An order of another mode is refused, here as at first. */
  ghost function WideStep(cfg: SimConfig, mode: string, s: SimState, e: WideEvent): (s': SimState)
    requires Known(s.orders, s.pending)
    ensures Known(s'.orders, s'.pending)
  {
    match e
    case Plain(e) => Stepped(cfg, mode, s, e)
    case Again(id) => if id in s.orders && s.orders[id].ticket.id == id && s.orders[id].ticket.mode == mode
                      then Placed(cfg, s, s.orders[id]) else s
  }

  ghost function WideRun(cfg: SimConfig, mode: string, s: SimState, es: seq<WideEvent>): (s': SimState)
    requires Known(s.orders, s.pending)
    ensures Known(s'.orders, s'.pending)
  {
    if es == [] then s else WideStep(cfg, mode, WideRun(cfg, mode, s, es[..|es| - 1]), es[|es| - 1])
  }

  /** New order objects have new uuids; nothing is asked of objects placed again. */
  ghost predicate FreshIds(cfg: SimConfig, mode: string, s: SimState, es: seq<WideEvent>)
    requires Known(s.orders, s.pending)
  {
    es != [] ==>
      var n := |es| - 1;
      && FreshIds(cfg, mode, s, es[..n])
      && (es[n].Plain? && es[n].e.Place? ==> es[n].e.t.id !in WideRun(cfg, mode, s, es[..n]).orders)
  }

  /** The record tallies with the order's fills: quantity, bounds, and average. */
  predicate Tallies(r: OrderRec, fills: seq<Fill>) {
    && 0.0 <= r.filledQty <= r.ticket.qty && r.filledQty == QtyOf(fills)
    && (forall i :: 0 <= i < |fills| ==> fills[i].qty >= 0.0)
    && if r.avgFillPrice.None? then fills == []
       else fills != [] && r.filledQty > 0.0 && r.avgFillPrice.value * r.filledQty == NotionalPaid(fills)
  }

  ghost predicate AllTally(orders: Orders, fills: seq<Fill>) {
    forall id :: id in orders ==> Tallies(orders[id], FillsOf(fills, id))
  }

  lemma FillTallies(cfg: SimConfig, r: OrderRec, fills: seq<Fill>, f: Fill)
    requires SoundConfig(cfg) && Tallies(r, fills) && f.qty == FillQty(cfg, r)
    ensures Tallies(Executed(r, f), fills + [f])
  {
    hide RunningAverage;
    SnocSums(fills, f);
    if r.avgFillPrice.None? {
      NothingTallied(r, fills);
    } else {
      AverageOf(r, f);
    }
  }

  lemma NothingTallied(r: OrderRec, fills: seq<Fill>)
    requires Tallies(r, fills) && r.avgFillPrice.None?
    ensures fills == [] && r.filledQty == 0.0 && NotionalPaid(fills) == 0.0
  {
  }

  lemma VisitTallies(cfg: SimConfig, price: real, key: string, p: Pend, w: Sweep, queue: seq<Fill>, id: Id)
    requires SoundConfig(cfg) && p.id in w.orders && id in w.orders
    requires SelfKeyed(w.orders) && AllTally(w.orders, queue + w.emitted)
    ensures var v := Visited(cfg, price, key, p.bars, w.orders[p.id]);
            Tallies(w.orders[p.id := v.rec][id], FillsOf(queue + (w.emitted + Listed(v.fill)), id))
  {
    hide Visited, Tallies, Executed;
    var v := Visited(cfg, price, key, p.bars, w.orders[p.id]);
    VisitCases(cfg, price, key, p.bars, w.orders[p.id]);
    VisitedFills(cfg, price, key, p.bars, w.orders[p.id], id);
    assert queue + (w.emitted + Listed(v.fill)) == (queue + w.emitted) + Listed(v.fill);
    FillsOfConcat(queue + w.emitted, Listed(v.fill), id);
    var before := FillsOf(queue + w.emitted, id);
    assert before + [] == before;
    if v.fill.Some? && p.id == id {
      FillTallies(cfg, w.orders[id], before, v.fill.value);
    }
  }

  /** The matching loop keeps every record true, even of an order that is queued more than once. */
  lemma {:induction false} SweptTallies(cfg: SimConfig, price: real, key: string, pending: seq<Pend>, orders: Orders,
                                        queue: seq<Fill>, n: nat)
    requires SoundConfig(cfg) && n <= |pending| && Known(orders, pending) && SelfKeyed(orders) && AllTally(orders, queue)
    ensures var w := Swept(cfg, price, key, pending, orders, n);
            SelfKeyed(w.orders) && AllTally(w.orders, queue + w.emitted)
  {
    hide Visited, AllTally, SelfKeyed;
    if n == 0 {
      assert queue + [] == queue;
    } else {
      SweptTallies(cfg, price, key, pending, orders, queue, n - 1);
      NextTallies(cfg, price, key, pending[n - 1], Swept(cfg, price, key, pending, orders, n - 1), queue);
      SweptFromQueue(cfg, price, key, pending, orders, n);
    }
  }

  lemma NextTallies(cfg: SimConfig, price: real, key: string, p: Pend, w: Sweep, queue: seq<Fill>)
    requires SoundConfig(cfg) && p.id in w.orders && SelfKeyed(w.orders) && AllTally(w.orders, queue + w.emitted)
    ensures var v := Visited(cfg, price, key, p.bars, w.orders[p.id]);
            AllTally(w.orders[p.id := v.rec], queue + (w.emitted + Listed(v.fill)))
  {
    hide Visited, Tallies, SelfKeyed;
    var v := Visited(cfg, price, key, p.bars, w.orders[p.id]);
    forall id | id in w.orders[p.id := v.rec]
      ensures Tallies(w.orders[p.id := v.rec][id], FillsOf(queue + (w.emitted + Listed(v.fill)), id))
    {
      VisitTallies(cfg, price, key, p, w, queue, id);
    }
  }

  /** Fills are of orders on file. */
  ghost predicate Tallied(s: SimState) {
    Known(s.orders, s.pending) && SelfKeyed(s.orders) && Attributed(s) && AllTally(s.orders, s.queue)
  }

  lemma RelabelledTallies(r: OrderRec, brokerId: Id, fills: seq<Fill>)
    ensures Tallies(r.(brokerOrderId := Some(brokerId), status := Sent), fills) <==> Tallies(r, fills)
    ensures r.filledQty == 0.0 && r.avgFillPrice.None? ==> Tallies(r, [])
  {
  }

  lemma PlacedTallies(cfg: SimConfig, s: SimState, r: OrderRec)
    requires Tallied(s)
    requires if r.ticket.id in s.orders then r == s.orders[r.ticket.id] else r.filledQty == 0.0 && r.avgFillPrice.None?
    ensures Tallied(Placed(cfg, s, r))
  {
    hide Tallies;
    RelabelledTallies(r, s.brokerIds, FillsOf(s.queue, r.ticket.id));
    if r.ticket.id !in s.orders {
      UnknownHasNoFills(s.queue, r.ticket.id);
    }
  }

  lemma TickTallies(cfg: SimConfig, s: SimState, q: Quote)
    requires SoundConfig(cfg) && Tallied(s)
    ensures Tallied(Ticked(cfg, s, q))
  {
    hide Swept, Tallies;
    if q.Price().Some? {
      SweptTallies(cfg, q.Price().value, q.instrument.key, s.pending, s.orders, s.queue, |s.pending|);
      SweptAttributed(cfg, q.Price().value, q.instrument.key, s.pending, s.orders, |s.pending|);
    }
  }

  /** In every run, with orders placed again at will: the filled quantity is the sum of the order's
      fills, none of which is negative, never exceeds the order, and the average is the true one. */
  lemma {:induction false} WideRunsTally(cfg: SimConfig, mode: string, es: seq<WideEvent>)
    requires SoundConfig(cfg) && FreshIds(cfg, mode, NewSim(cfg), es)
    ensures Tallied(WideRun(cfg, mode, NewSim(cfg), es))
  {
    hide Tallied, Ticked, Placed;
    if es == [] {
      NewTallies(cfg);
    } else {
      var n := |es| - 1;
      WideRunsTally(cfg, mode, es[..n]);
      WideStepTallies(cfg, mode, WideRun(cfg, mode, NewSim(cfg), es[..n]), es[n]);
    }
  }

  lemma NewTallies(cfg: SimConfig)
    ensures Tallied(NewSim(cfg))
  {
  }

  lemma WideStepTallies(cfg: SimConfig, mode: string, s: SimState, e: WideEvent)
    requires SoundConfig(cfg) && Tallied(s) && (e.Plain? && e.e.Place? ==> e.e.t.id !in s.orders)
    ensures Tallied(WideStep(cfg, mode, s, e))
  {
    hide Tallies, Ticked, Placed;
    match e
    case Again(id) =>
      if id in s.orders {
        PlacedTallies(cfg, s, s.orders[id]);
      }
    case Plain(plain) =>
      if plain.Place? {
        PlacedTallies(cfg, s, NewOrder(plain.t));
      } else if plain.Tick? {
        TickTallies(cfg, s, plain.q);
      }
  }

  // ---- Placing again with care ----

  /** What a caller can check before placing an object again: it is not queued, and something of it is
      left to fill. */
  predicate MayAgain(s: SimState, id: Id)
    requires id in s.orders
  {
    WaitOf(s.pending, id).None? && s.orders[id].Remaining() > 0.0
  }

  predicate Guard(mode: string, s: SimState, e: WideEvent) {
    match e
    case Plain(e) => e.Place? ==> e.t.id !in s.orders
    case Again(id) => id in s.orders && s.orders[id].ticket.mode == mode ==> MayAgain(s, id)
  }

  ghost predicate Guarded(cfg: SimConfig, mode: string, s: SimState, es: seq<WideEvent>)
    requires Known(s.orders, s.pending)
  {
    es != [] ==>
      var n := |es| - 1;
      Guarded(cfg, mode, s, es[..n]) && Guard(mode, WideRun(cfg, mode, s, es[..n]), es[n])
  }

  /** One order's conservation, as in OrderTheorems but for one thing: an order placed again reads SENT
      even if it has traded before. */
  predicate StillConserved(l: Life) {
    var r := l.rec;
    && 0.0 <= r.filledQty <= r.ticket.qty
    && r.filledQty == QtyOf(l.fills)
    && (forall i :: 0 <= i < |l.fills| ==> FillFor(r.ticket, l.fills[i]))
    && (r.status == Filled <==> r.filledQty == r.ticket.qty)
    && (r.status != Filled ==> r.status == Sent || (r.status == PartiallyFilled && l.fills != []))
    && (l.wait.Some? ==> r.status != Filled)
  }

  ghost predicate StillOrderly(s: SimState) {
    && Sound(s) && Attributed(s)
    && forall id :: id in s.orders ==> StillConserved(LifeOf(s, id)) && TrueAverage(s.orders[id], FillsOf(s.queue, id))
  }

  lemma FillStillConserves(cfg: SimConfig, l: Life, f: Fill, l': Life)
    requires SoundConfig(cfg) && StillConserved(l) && TrueAverage(l.rec, l.fills) && l.wait.Some?
    requires f.qty == FillQty(cfg, l.rec) && (f.qty > 0.0 ==> FillFor(l.rec.ticket, f))
    requires l'.rec == Executed(l.rec, f) && l'.fills == l.fills + [f]
    requires l'.wait.Some? <==> l'.rec.status != Filled
    ensures StillConserved(l') && TrueAverage(l'.rec, l'.fills)
  {
    hide RunningAverage, TrueAverage;
    SnocSums(l.fills, f);
    assert l.fills == [] ==> l.rec.filledQty == 0.0;
    ExecutedAverage(l.rec, l.fills, f);
  }

  lemma VisitStillConserves(cfg: SimConfig, price: real, key: string, l: Life)
    requires SoundConfig(cfg) && StillConserved(l) && TrueAverage(l.rec, l.fills)
    ensures var l' := VisitedLife(cfg, price, key, l);
            StillConserved(l') && TrueAverage(l'.rec, l'.fills)
  {
    hide Visited, Executed, FillFor, TrueAverage;
    if l.wait.Some? {
      var v, l' := Visited(cfg, price, key, l.wait.value, l.rec), VisitedLife(cfg, price, key, l);
      VisitCases(cfg, price, key, l.wait.value, l.rec);
      if v.fill.Some? {
        FillStillConserves(cfg, l, v.fill.value, l');
      } else {
        assert l'.fills == l.fills;
      }
    }
  }

  /** Placing an order again that is not queued touches only that order. */
  lemma AgainLife(cfg: SimConfig, s: SimState, again: Id, id: Id)
    requires Sound(s) && again in s.orders && id in s.orders && WaitOf(s.pending, again).None?
    ensures var s' := Placed(cfg, s, s.orders[again]);
            && Sound(s') && id in s'.orders
            && LifeOf(s', id) == if id != again then LifeOf(s, id)
               else Life(s.orders[id].(brokerOrderId := Some(s.brokerIds), status := Sent), Some(cfg.latencyBars),
                         FillsOf(s.queue, id))
  {
    assert s.orders[again].ticket.id == again;
    assert Requeued(again, Some(cfg.latencyBars)) == [Pend(again, cfg.latencyBars)];
    WaitOfRequeued(s.pending, again, Some(cfg.latencyBars), id);
    DistinctRequeued(s.pending, again, Some(cfg.latencyBars));
  }

  lemma FreshStillConserved(l: Life)
    requires l.fills == [] && l.rec.filledQty == 0.0 && l.rec.avgFillPrice.None? && l.rec.status == Sent
    ensures StillConserved(l) && TrueAverage(l.rec, l.fills)
  {
  }

  lemma AgainStillConserved(l: Life, l': Life, brokerId: Id)
    requires StillConserved(l) && TrueAverage(l.rec, l.fills) && l.rec.Remaining() > 0.0
    requires l'.rec == l.rec.(brokerOrderId := Some(brokerId), status := Sent) && l'.fills == l.fills
    ensures StillConserved(l') && TrueAverage(l'.rec, l'.fills)
  {
  }

  lemma WideStepLife(cfg: SimConfig, mode: string, s: SimState, e: WideEvent, id: Id)
    requires SoundConfig(cfg) && StillOrderly(s) && Guard(mode, s, e) && id in WideStep(cfg, mode, s, e).orders
    ensures var s' := WideStep(cfg, mode, s, e);
            Sound(s') && StillConserved(LifeOf(s', id)) && TrueAverage(s'.orders[id], FillsOf(s'.queue, id))
  {
    hide StillConserved, TrueAverage, VisitedLife, Sound, Attributed;
    SoundParts(s);
    match e
    case Again(again) =>
      if again in s.orders && s.orders[again].ticket.mode == mode {
        AgainLife(cfg, s, again, id);
        if id == again {
          AgainStillConserved(LifeOf(s, id), LifeOf(WideStep(cfg, mode, s, e), id), s.brokerIds);
        }
      }
    case Plain(plain) =>
      if id in s.orders {
        StepLife(cfg, mode, s, plain, id);
        PlainStillConserved(cfg, LifeOf(s, id), plain);
      } else if plain.Place? {
        PlacedLife(cfg, s, plain.t, id);
        AttributedElsewhere(s, id);
        FreshStillConserved(LifeOf(WideStep(cfg, mode, s, e), id));
      }
  }

  lemma SoundParts(s: SimState)
    requires Sound(s)
    ensures Known(s.orders, s.pending) && SelfKeyed(s.orders)
  {
  }

  lemma AttributedElsewhere(s: SimState, id: Id)
    requires Attributed(s) && id !in s.orders
    ensures FillsOf(s.queue, id) == []
  {
    UnknownHasNoFills(s.queue, id);
  }

  lemma PlainStillConserved(cfg: SimConfig, l: Life, e: Event)
    requires SoundConfig(cfg) && StillConserved(l) && TrueAverage(l.rec, l.fills)
    ensures var l' := SteppedLife(cfg, l, e);
            StillConserved(l') && TrueAverage(l'.rec, l'.fills)
  {
    hide VisitedLife, TrueAverage;
    if e.Tick? && e.q.Price().Some? {
      VisitStillConserves(cfg, e.q.Price().value, e.q.instrument.key, l);
    }
  }

  lemma WideStepStillOrderly(cfg: SimConfig, mode: string, s: SimState, e: WideEvent)
    requires SoundConfig(cfg) && StillOrderly(s) && Guard(mode, s, e)
    ensures StillOrderly(WideStep(cfg, mode, s, e))
  {
    var s' := WideStep(cfg, mode, s, e);
    forall id | id in s'.orders
      ensures Sound(s') && StillConserved(LifeOf(s', id)) && TrueAverage(s'.orders[id], FillsOf(s'.queue, id))
    {
      WideStepLife(cfg, mode, s, e, id);
    }
    WideStepRest(cfg, mode, s, e);
  }

  lemma WideStepRest(cfg: SimConfig, mode: string, s: SimState, e: WideEvent)
    requires Sound(s) && Attributed(s) && Guard(mode, s, e)
    ensures Sound(WideStep(cfg, mode, s, e)) && Attributed(WideStep(cfg, mode, s, e))
  {
    hide Stepped;
    match e
    case Again(again) =>
      if again in s.orders && s.orders[again].ticket.mode == mode {
        AgainLife(cfg, s, again, again);
      }
    case Plain(plain) =>
      StepIsSound(cfg, mode, s, plain);
      StepKeepsAttribution(cfg, mode, s, plain);
  }

  /** A run that places objects again only with that check keeps every order in order: the filled
      quantity is the sum of strictly positive fills and never exceeds the order, FILLED means exactly
      filled, no filled order is queued, and the average is the true one. */
  lemma {:induction false} GuardedRunsAreOrderly(cfg: SimConfig, mode: string, s: SimState, es: seq<WideEvent>)
    requires SoundConfig(cfg) && StillOrderly(s) && Guarded(cfg, mode, s, es)
    ensures StillOrderly(WideRun(cfg, mode, s, es))
  {
    hide StillOrderly, WideStep, Guard;
    StillOrderlyIsKnown(s);
    if es != [] {
      var n := |es| - 1;
      GuardedRunsAreOrderly(cfg, mode, s, es[..n]);
      WideStepStillOrderly(cfg, mode, WideRun(cfg, mode, s, es[..n]), es[n]);
    }
  }

  lemma StillOrderlyIsKnown(s: SimState)
    requires StillOrderly(s)
    ensures Known(s.orders, s.pending)
  {
  }

  /** In particular from the start. */
  lemma NewIsOrderly(cfg: SimConfig)
    ensures StillOrderly(NewSim(cfg))
  {
  }
}
