/** Whole runs of the simulated broker, order by order: what one order's record, place in the
    queue and fills go through under any mix of ticks, cancels and other orders. */
module OrderLife {
  import opened Core
  import opened SimModel

  /** The fills of one order, in the order they were emitted. */
  function FillsOf(fills: seq<Fill>, id: Id): seq<Fill> {
    if fills == [] then []
    else
      var f := fills[|fills| - 1];
      FillsOf(fills[..|fills| - 1], id) + if f.orderId == id then [f] else []
  }

  lemma {:induction false} FillsOfConcat(fs: seq<Fill>, gs: seq<Fill>, id: Id)
    ensures FillsOf(fs + gs, id) == FillsOf(fs, id) + FillsOf(gs, id)
  {
    if gs == [] {
      assert fs + gs == fs;
    } else {
      var n := |gs| - 1;
      assert (fs + gs)[..|fs + gs| - 1] == fs + gs[..n];
      FillsOfConcat(fs, gs[..n], id);
    }
  }

  /** How long an order still has to wait in the queue, if it is queued. */
  function WaitOf(pending: seq<Pend>, id: Id): Option<int> {
    if pending == [] then None
    else
      var p := pending[|pending| - 1];
      if p.id == id then Some(p.bars) else WaitOf(pending[..|pending| - 1], id)
  }

  lemma WaitOfRequeued(pending: seq<Pend>, other: Id, kept: Option<int>, id: Id)
    ensures WaitOf(pending + Requeued(other, kept), id) ==
            if other == id && kept.Some? then kept else WaitOf(pending, id)
  {
    var more := pending + Requeued(other, kept);
    if kept.Some? {
      assert more[..|pending|] == pending;
    } else {
      assert more == pending;
    }
  }

  /** No order is queued twice. */
  predicate Distinct(pending: seq<Pend>) {
    pending != [] ==>
      var n := |pending| - 1;
      Distinct(pending[..n]) && WaitOf(pending[..n], pending[n].id).None?
  }

  predicate SelfKeyed(orders: Orders) {
    forall id :: id in orders ==> orders[id].ticket.id == id
  }

  /** What keeps the queue and the records apart by order. */
  predicate Sound(s: SimState) {
    Known(s.orders, s.pending) && Distinct(s.pending) && SelfKeyed(s.orders)
  }

  /** One order's share of the broker's state. */
  datatype Life = Life(rec: OrderRec, wait: Option<int>, fills: seq<Fill>)

  function LifeOf(s: SimState, id: Id): Life
    requires id in s.orders
  {
    Life(s.orders[id], WaitOf(s.pending, id), FillsOf(s.queue, id))
  }

  /** A queued order's visit by a tick, on its own. */
  function VisitedLife(cfg: SimConfig, price: real, key: string, l: Life): Life {
    if l.wait.None? then l
    else
      var v := Visited(cfg, price, key, l.wait.value, l.rec);
      Life(v.rec, v.kept, l.fills + Listed(v.fill))
  }

  function TickedLife(cfg: SimConfig, l: Life, q: Quote): Life {
    if q.Price().None? then l else VisitedLife(cfg, q.Price().value, q.instrument.key, l)
  }

  /** Whoever visits, a fill carries its own order's uuid, instrument and side. */
  lemma VisitedFills(cfg: SimConfig, price: real, key: string, bars: int, r: OrderRec, id: Id)
    ensures var v := Visited(cfg, price, key, bars, r);
            && v.rec.ticket == r.ticket
            && FillsOf(Listed(v.fill), id) == (if r.ticket.id == id then Listed(v.fill) else [])
  {
    var v := Visited(cfg, price, key, bars, r);
    if v.fill.Some? {
      assert [v.fill.value][..0] == [];
    }
  }

  /** One step of the matching loop, seen from one order. */
  lemma NextLife(w: Sweep, p: Pend, v: Visit, w': Sweep, id: Id)
    requires p.id in w.orders && id in w.orders && SelfKeyed(w.orders) && Distinct(w.still)
    requires WaitOf(w.still, p.id).None? && v.rec.ticket.id == p.id
    requires FillsOf(Listed(v.fill), id) == if p.id == id then Listed(v.fill) else []
    requires w' == Sweep(w.orders[p.id := v.rec], w.still + Requeued(p.id, v.kept), w.emitted + Listed(v.fill))
    ensures SelfKeyed(w'.orders) && Distinct(w'.still)
    ensures Life(w'.orders[id], WaitOf(w'.still, id), FillsOf(w'.emitted, id)) ==
            if p.id == id then Life(v.rec, v.kept, FillsOf(w.emitted, id) + Listed(v.fill))
            else Life(w.orders[id], WaitOf(w.still, id), FillsOf(w.emitted, id))
  {
    WaitOfRequeued(w.still, p.id, v.kept, id);
    FillsOfConcat(w.emitted, Listed(v.fill), id);
    DistinctRequeued(w.still, p.id, v.kept);
  }

  /** The matching loop, seen from one order: it is visited once if it is queued, and other
      orders' visits do not touch it. */
  lemma {:induction false} SweptLife(cfg: SimConfig, price: real, key: string, pending: seq<Pend>, orders: Orders,
                                     n: nat, id: Id)
    requires n <= |pending| && Known(orders, pending) && SelfKeyed(orders) && Distinct(pending[..n])
    requires id in orders
    ensures var w := Swept(cfg, price, key, pending, orders, n);
            && SelfKeyed(w.orders) && Distinct(w.still)
            && Life(w.orders[id], WaitOf(w.still, id), FillsOf(w.emitted, id))
               == VisitedLife(cfg, price, key, Life(orders[id], WaitOf(pending[..n], id), []))
  {
    if n > 0 {
      var p := pending[n - 1];
      assert pending[..n][..n - 1] == pending[..n - 1];
      SweptLife(cfg, price, key, pending, orders, n - 1, id);
      SweptLife(cfg, price, key, pending, orders, n - 1, p.id);
      var w := Swept(cfg, price, key, pending, orders, n - 1);
      var v := Visited(cfg, price, key, p.bars, w.orders[p.id]);
      VisitedFills(cfg, price, key, p.bars, w.orders[p.id], id);
      NextLife(w, p, v, Swept(cfg, price, key, pending, orders, n), id);
    }
  }

  lemma DistinctRequeued(pending: seq<Pend>, id: Id, kept: Option<int>)
    requires Distinct(pending) && WaitOf(pending, id).None?
    ensures Distinct(pending + Requeued(id, kept))
  {
    var more := pending + Requeued(id, kept);
    if kept.Some? {
      assert more[..|pending|] == pending;
    } else {
      assert more == pending;
    }
  }

  lemma LifeAfterSweep(cfg: SimConfig, price: real, key: string, s: SimState, s': SimState, id: Id)
    requires Sound(s) && id in s.orders
    requires var w := Swept(cfg, price, key, s.pending, s.orders, |s.pending|);
             s'.orders == w.orders && s'.pending == w.still && s'.queue == s.queue + w.emitted
    ensures Sound(s') && LifeOf(s', id) == VisitedLife(cfg, price, key, LifeOf(s, id))
  {
    hide Swept, Visited;
    assert s.pending[..|s.pending|] == s.pending;
    SweptLife(cfg, price, key, s.pending, s.orders, |s.pending|, id);
    FillsOfConcat(s.queue, Swept(cfg, price, key, s.pending, s.orders, |s.pending|).emitted, id);
  }

  /** The broker's tick acts on every order independently of the others. */
  lemma TickedIsPerOrder(cfg: SimConfig, s: SimState, q: Quote, id: Id)
    requires Sound(s) && id in s.orders
    ensures Sound(Ticked(cfg, s, q)) && LifeOf(Ticked(cfg, s, q), id) == TickedLife(cfg, LifeOf(s, id), q)
  {
    if q.Price().Some? {
      LifeAfterSweep(cfg, q.Price().value, q.instrument.key, s, Ticked(cfg, s, q), id);
    }
  }

  // ---- Runs ----

  datatype Event = Place(t: Ticket) | Cancel(brokerId: Id) | Tick(q: Quote)

  /** Placing an order of another mode is refused. */
  ghost function Stepped(cfg: SimConfig, mode: string, s: SimState, e: Event): (s': SimState)
    requires Known(s.orders, s.pending)
    ensures Known(s'.orders, s'.pending)
  {
    match e
    case Place(t) => if t.mode == mode then Placed(cfg, s, NewOrder(t)) else s
    case Cancel(brokerId) => Unqueued(s, brokerId)
    case Tick(q) => Ticked(cfg, s, q)
  }

  ghost function Run(cfg: SimConfig, mode: string, s: SimState, es: seq<Event>): (s': SimState)
    requires Known(s.orders, s.pending)
    ensures Known(s'.orders, s'.pending)
  {
    if es == [] then s else Stepped(cfg, mode, Run(cfg, mode, s, es[..|es| - 1]), es[|es| - 1])
  }

  /** Every placed order is a new one: its uuid has not been met before. */
  ghost predicate Legal(cfg: SimConfig, mode: string, s: SimState, es: seq<Event>)
    requires Known(s.orders, s.pending)
  {
    es != [] ==>
      var n := |es| - 1;
      && Legal(cfg, mode, s, es[..n])
      && (es[n].Place? ==> es[n].t.id !in Run(cfg, mode, s, es[..n]).orders)
  }

  function SteppedLife(cfg: SimConfig, l: Life, e: Event): Life {
    match e
    case Place(_) => l
    case Cancel(brokerId) => if l.rec.brokerOrderId == Some(brokerId) then l.(wait := None) else l
    case Tick(q) => TickedLife(cfg, l, q)
  }

  function RunLife(cfg: SimConfig, l: Life, es: seq<Event>): Life {
    if es == [] then l else SteppedLife(cfg, RunLife(cfg, l, es[..|es| - 1]), es[|es| - 1])
  }

  lemma {:induction false} WithoutWait(pending: seq<Pend>, orders: Orders, brokerId: Id, id: Id)
    requires Known(orders, pending) && Distinct(pending) && id in orders
    ensures var kept := Without(pending, orders, brokerId);
            && Distinct(kept)
            && WaitOf(kept, id) == (if orders[id].brokerOrderId == Some(brokerId) then None else WaitOf(pending, id))
  {
    if pending != [] {
      var n := |pending| - 1;
      var p := pending[n];
      WithoutWait(pending[..n], orders, brokerId, id);
      WithoutWait(pending[..n], orders, brokerId, p.id);
      var keep := if orders[p.id].brokerOrderId != Some(brokerId) then Some(p.bars) else None;
      WaitOfRequeued(Without(pending[..n], orders, brokerId), p.id, keep, id);
      DistinctRequeued(Without(pending[..n], orders, brokerId), p.id, keep);
    }
  }

  lemma {:induction false} QueuedIsKnown(pending: seq<Pend>, orders: Orders, id: Id)
    requires Known(orders, pending) && id !in orders
    ensures WaitOf(pending, id).None?
  {
    if pending != [] {
      QueuedIsKnown(pending[..|pending| - 1], orders, id);
    }
  }

  lemma PlacedLife(cfg: SimConfig, s: SimState, t: Ticket, id: Id)
    requires Sound(s) && t.id !in s.orders && (id in s.orders || id == t.id)
    ensures var s' := Placed(cfg, s, NewOrder(t));
            && Sound(s')
            && LifeOf(s', id) == if id in s.orders then LifeOf(s, id)
               else Life(NewOrder(t).(brokerOrderId := Some(s.brokerIds), status := Sent), Some(cfg.latencyBars),
                         FillsOf(s.queue, id))
  {
    QueuedIsKnown(s.pending, s.orders, t.id);
    assert Requeued(t.id, Some(cfg.latencyBars)) == [Pend(t.id, cfg.latencyBars)];
    WaitOfRequeued(s.pending, t.id, Some(cfg.latencyBars), id);
    DistinctRequeued(s.pending, t.id, Some(cfg.latencyBars));
  }

  lemma StepLife(cfg: SimConfig, mode: string, s: SimState, e: Event, id: Id)
    requires Sound(s) && id in s.orders && (e.Place? ==> e.t.id !in s.orders)
    ensures var s' := Stepped(cfg, mode, s, e);
            && Sound(s') && id in s'.orders && LifeOf(s', id) == SteppedLife(cfg, LifeOf(s, id), e)
  {
    match e
    case Place(t) =>
      PlacedLife(cfg, s, t, id);
    case Cancel(brokerId) =>
      WithoutWait(s.pending, s.orders, brokerId, id);
    case Tick(q) =>
      TickedIsPerOrder(cfg, s, q, id);
  }

  /** A whole run, seen from one order, is that order's own run: the broker is the independent
      product of its orders. */
  lemma {:induction false} RunIsPerOrder(cfg: SimConfig, mode: string, s: SimState, es: seq<Event>, id: Id)
    requires Sound(s) && id in s.orders && Legal(cfg, mode, s, es)
    ensures var s' := Run(cfg, mode, s, es);
            && Sound(s') && id in s'.orders && LifeOf(s', id) == RunLife(cfg, LifeOf(s, id), es)
  {
    if es != [] {
      var n := |es| - 1;
      RunIsPerOrder(cfg, mode, s, es[..n], id);
      StepLife(cfg, mode, Run(cfg, mode, s, es[..n]), es[n], id);
    }
  }
}
