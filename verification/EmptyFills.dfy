/** When placing an order object again leads to an empty fill: exactly when it is still queued or has
    nothing left to fill. */
module EmptyFills {
  import opened Core
  import opened SimModel
  import opened OrderLife
  import opened OrderTheorems
  import opened KillSwitch
  import opened Replacing

  // ---- An order that may be queued more than once ----

  /** The waits of the order's places in the queue. */
  function Waits(pending: seq<Pend>, id: Id): seq<int> {
    if pending == [] then []
    else
      var p := pending[|pending| - 1];
      Waits(pending[..|pending| - 1], id) + if p.id == id then [p.bars] else []
  }

  function KeptWait(kept: Option<int>): seq<int> {
    Listed(kept)
  }

  lemma WaitsRequeued(pending: seq<Pend>, other: Id, kept: Option<int>, id: Id)
    ensures Waits(pending + Requeued(other, kept), id) == Waits(pending, id) + if other == id then KeptWait(kept) else []
  {
    var more := pending + Requeued(other, kept);
    if kept.Some? {
      assert more[..|pending|] == pending;
    } else {
      assert more == pending;
    }
    assert Waits(pending, id) + [] == Waits(pending, id);
  }

  /** One order's record, places in the queue, and fills of a tick. */
  datatype Multi = Multi(rec: OrderRec, waits: seq<int>, fills: seq<Fill>)

  function VisitOnce(cfg: SimConfig, price: real, key: string, m: Multi, wait: int): Multi {
    var v := Visited(cfg, price, key, wait, m.rec);
    Multi(v.rec, m.waits + KeptWait(v.kept), m.fills + Listed(v.fill))
  }

  /** A tick visits each of the order's places in turn. */
  function VisitAll(cfg: SimConfig, price: real, key: string, r: OrderRec, waits: seq<int>): Multi {
    if waits == [] then Multi(r, [], [])
    else VisitOnce(cfg, price, key, VisitAll(cfg, price, key, r, waits[..|waits| - 1]), waits[|waits| - 1])
  }

  lemma VisitAllSnoc(cfg: SimConfig, price: real, key: string, r: OrderRec, waits: seq<int>, wait: int)
    ensures VisitAll(cfg, price, key, r, waits + [wait]) == VisitOnce(cfg, price, key, VisitAll(cfg, price, key, r, waits), wait)
  {
    assert (waits + [wait])[..|waits|] == waits;
  }

  function MultiOf(w: Sweep, id: Id): Multi
    requires id in w.orders
  {
    Multi(w.orders[id], Waits(w.still, id), FillsOf(w.emitted, id))
  }

  lemma NextMulti(cfg: SimConfig, price: real, key: string, w: Sweep, p: Pend, id: Id)
    requires p.id in w.orders && id in w.orders && SelfKeyed(w.orders)
    ensures var v := Visited(cfg, price, key, p.bars, w.orders[p.id]);
            var w' := Sweep(w.orders[p.id := v.rec], w.still + Requeued(p.id, v.kept), w.emitted + Listed(v.fill));
            MultiOf(w', id) == if p.id == id then VisitOnce(cfg, price, key, MultiOf(w, id), p.bars) else MultiOf(w, id)
  {
    hide Visited;
    var v := Visited(cfg, price, key, p.bars, w.orders[p.id]);
    WaitsRequeued(w.still, p.id, v.kept, id);
    FillsOfConcat(w.emitted, Listed(v.fill), id);
    VisitedFills(cfg, price, key, p.bars, w.orders[p.id], id);
    assert w.orders[p.id].ticket.id == p.id;
    assert Waits(w.still, id) + [] == Waits(w.still, id) && FillsOf(w.emitted, id) + [] == FillsOf(w.emitted, id);
  }

  /** The matching loop, seen from one order in however many places. */
  lemma {:induction false} SweptMulti(cfg: SimConfig, price: real, key: string, pending: seq<Pend>, orders: Orders,
                                      n: nat, id: Id)
    requires n <= |pending| && Known(orders, pending) && SelfKeyed(orders) && id in orders
    ensures MultiOf(Swept(cfg, price, key, pending, orders, n), id)
            == VisitAll(cfg, price, key, orders[id], Waits(pending[..n], id))
  {
    hide VisitOnce, VisitAll, SelfKeyed, Visited, MultiOf, Waits;
    if n == 0 {
      NothingVisited(cfg, price, key, pending, orders, id);
    } else {
      var w, p := Swept(cfg, price, key, pending, orders, n - 1), pending[n - 1];
      SweptMulti(cfg, price, key, pending, orders, n - 1, id);
      SweptFromQueue(cfg, price, key, pending, orders, n - 1);
      NextMulti(cfg, price, key, w, p, id);
      WaitsNext(pending, n, id);
      VisitAllSnoc(cfg, price, key, orders[id], Waits(pending[..n - 1], id), p.bars);
    }
  }

  lemma WaitsNext(pending: seq<Pend>, n: nat, id: Id)
    requires 0 < n <= |pending|
    ensures Waits(pending[..n], id)
            == if pending[n - 1].id == id then Waits(pending[..n - 1], id) + [pending[n - 1].bars]
               else Waits(pending[..n - 1], id)
  {
    assert pending[..n][..n - 1] == pending[..n - 1];
    var waits := Waits(pending[..n - 1], id);
    assert waits + [] == waits;
  }

  lemma NothingVisited(cfg: SimConfig, price: real, key: string, pending: seq<Pend>, orders: Orders, id: Id)
    requires id in orders
    ensures MultiOf(Sweep(orders, [], []), id) == VisitAll(cfg, price, key, orders[id], Waits(pending[..0], id))
  {
  }

  // ---- Ticks that match ----

  /** A price at which the order trades: its limit, or any price for a market order. */
  function MatchingPrice(t: Ticket): real {
    if t.orderType.Limit? then t.limitPrice.value else 1.0
  }

  function MatchingQuote(t: Ticket): Quote {
    var p := Some(MatchingPrice(t));
    Quote(t.instrument, p, p, p)
  }

  lemma MatchingQuotePrice(t: Ticket)
    ensures MatchingQuote(t).Price() == Some(MatchingPrice(t))
  {
  }

  predicate Tradable(t: Ticket) {
    t.orderType in {Market, Limit}
  }

  function SlicesLeft(cfg: SimConfig, left: real): (n: nat)
    requires SoundConfig(cfg)
    ensures left > 0.0 ==> n > 0
  {
    if left <= 0.0 then 0 else SliceCount(cfg, left)
  }

  lemma OneSliceLess(cfg: SimConfig, left: real, slice: real)
    requires SoundConfig(cfg) && left > 0.0
    requires slice == if cfg.maxQtyPerBar.Some? then Min(left, cfg.maxQtyPerBar.value) else left
    ensures 0.0 < slice <= left && SlicesLeft(cfg, left - slice) == SlicesLeft(cfg, left) - 1
  {
    if cfg.maxQtyPerBar.Some? {
      var cap := cfg.maxQtyPerBar.value;
      if left > cap {
        QuotientLess(left, cap);
      } else {
        CeilDivCovers(left, cap, 1);
        CeilDivCovers(left, cap, 0);
      }
    }
  }

  lemma QuotientLess(x: real, y: real)
    requires y > 0.0
    ensures CeilDiv(x - y, y) == CeilDiv(x, y) - 1
  {
    var n := CeilDiv(x, y);
    CeilDivCovers(x, y, n);
    CeilDivCovers(x, y, n - 1);
    CeilDivCovers(x - y, y, n - 1);
    CeilDivCovers(x - y, y, n - 2);
    assert (n - 1) as real * y == n as real * y - y && (n - 2) as real * y == (n - 1) as real * y - y;
  }

  function Due(wait: int): nat {
    if wait > 0 then wait else 0
  }

  function SumDue(waits: seq<int>): nat {
    if waits == [] then 0 else SumDue(waits[..|waits| - 1]) + Due(waits[|waits| - 1])
  }

  lemma SumDueConcat(waits: seq<int>, kept: Option<int>)
    ensures SumDue(waits + KeptWait(kept)) == SumDue(waits) + if kept.Some? then Due(kept.value) else 0
  {
    if kept.Some? {
      assert (waits + [kept.value])[..|waits|] == waits;
    } else {
      assert waits + [] == waits;
    }
  }

  predicate SomeEmpty(fills: seq<Fill>) {
    exists i :: 0 <= i < |fills| && fills[i].qty <= 0.0
  }

  predicate InBounds(r: OrderRec) {
    0.0 <= r.filledQty <= r.ticket.qty
  }

  /** What one visit at a matching price can be: a shorter wait, an empty fill, or one slice less, with
      the place given up exactly when the last of the order is filled. */
  lemma VisitProgress(cfg: SimConfig, r: OrderRec, wait: int)
    requires SoundConfig(cfg) && Tradable(r.ticket) && InBounds(r)
    ensures var t := r.ticket; var v := Visited(cfg, MatchingPrice(t), t.instrument.key, wait, r);
            && v.rec.ticket == t && InBounds(v.rec)
            && if v.fill.None? then v.rec == r && v.kept == Some(wait - 1) && wait > 0
               else if r.Remaining() == 0.0 then v.fill.value.qty == 0.0
               else && Due(wait) == 0 && SlicesLeft(cfg, v.rec.Remaining()) == SlicesLeft(cfg, r.Remaining()) - 1
                    && (v.kept == if v.rec.Remaining() == 0.0 then None else Some(wait))
  {
    hide RunningAverage, SliceCount;
    if r.Remaining() > 0.0 {
      OneSliceLess(cfg, r.Remaining(), FillQty(cfg, r));
    }
  }

  /** What is left of the work to be done after a tick's visits, or some of them. */
  predicate Progressed(cfg: SimConfig, r: OrderRec, waits: seq<int>, m: Multi)
    requires SoundConfig(cfg)
  {
    && m.rec.ticket == r.ticket && InBounds(m.rec)
    && |m.waits| + (if r.Remaining() > 0.0 && m.rec.Remaining() == 0.0 then 1 else 0) >= |waits|
    && (r.Remaining() == 0.0 ==> m.rec.Remaining() == 0.0)
    && SumDue(m.waits) + SlicesLeft(cfg, m.rec.Remaining()) + |waits| <= SumDue(waits) + SlicesLeft(cfg, r.Remaining())
  }

  lemma SomeEmptyGrows(fills: seq<Fill>, fill: Option<Fill>)
    ensures SomeEmpty(fills) || (fill.Some? && fill.value.qty <= 0.0) ==> SomeEmpty(fills + Listed(fill))
  {
    if SomeEmpty(fills) {
      var i :| 0 <= i < |fills| && fills[i].qty <= 0.0;
      assert (fills + Listed(fill))[i] == fills[i];
    } else if fill.Some? {
      assert (fills + Listed(fill))[|fills|] == fill.value;
    }
  }

  lemma NextProgress(cfg: SimConfig, r: OrderRec, waits: seq<int>, wait: int, m: Multi)
    requires SoundConfig(cfg) && Tradable(r.ticket) && InBounds(r) && Progressed(cfg, r, waits, m)
    ensures var m' := VisitOnce(cfg, MatchingPrice(r.ticket), r.ticket.instrument.key, m, wait);
            m'.rec.ticket == r.ticket && (SomeEmpty(m'.fills) || Progressed(cfg, r, waits + [wait], m'))
  {
    hide Visited, SlicesLeft, SomeEmpty, MatchingPrice, SumDue;
    var v := Visited(cfg, MatchingPrice(r.ticket), r.ticket.instrument.key, wait, m.rec);
    VisitProgress(cfg, m.rec, wait);
    SomeEmptyGrows(m.fills, v.fill);
    SumDueConcat(m.waits, v.kept);
    SumDueConcat(waits, Some(wait));
  }

  lemma {:induction false} TickProgress(cfg: SimConfig, r: OrderRec, waits: seq<int>)
    requires SoundConfig(cfg) && Tradable(r.ticket) && InBounds(r)
    ensures var m := VisitAll(cfg, MatchingPrice(r.ticket), r.ticket.instrument.key, r, waits);
            m.rec.ticket == r.ticket && (SomeEmpty(m.fills) || Progressed(cfg, r, waits, m))
  {
    hide VisitOnce, SlicesLeft, SomeEmpty, MatchingPrice, Progressed;
    if waits == [] {
      NoProgressYet(cfg, r);
    } else {
      var n, t := |waits| - 1, r.ticket;
      TickProgress(cfg, r, waits[..n]);
      var m := VisitAll(cfg, MatchingPrice(t), t.instrument.key, r, waits[..n]);
      assert waits[..n] + [waits[n]] == waits;
      if SomeEmpty(m.fills) {
        StillEmpty(cfg, r, m, waits[n]);
      } else {
        NextProgress(cfg, r, waits[..n], waits[n], m);
      }
    }
  }

  lemma NoProgressYet(cfg: SimConfig, r: OrderRec)
    requires SoundConfig(cfg) && InBounds(r)
    ensures Progressed(cfg, r, [], Multi(r, [], []))
  {
  }

  lemma StillEmpty(cfg: SimConfig, r: OrderRec, m: Multi, wait: int)
    requires SomeEmpty(m.fills) && m.rec.ticket == r.ticket
    ensures var m' := VisitOnce(cfg, MatchingPrice(r.ticket), r.ticket.instrument.key, m, wait);
            SomeEmpty(m'.fills) && m'.rec.ticket == r.ticket
  {
    hide SomeEmpty, MatchingPrice;
    var v := Visited(cfg, MatchingPrice(r.ticket), r.ticket.instrument.key, wait, m.rec);
    SomeEmptyGrows(m.fills, v.fill);
  }

  // ---- Ticking until the empty fill comes ----

  /** The order has a place in the queue to spare: two while something is left, one when nothing is. */
  predicate Spare(s: SimState, id: Id)
    requires id in s.orders
  {
    |Waits(s.pending, id)| >= if s.orders[id].Remaining() > 0.0 then 2 else 1
  }

  /** Whatever the run adds to the order's fills contains one that is not positive. */
  ghost predicate EmitsEmpty(cfg: SimConfig, mode: string, s: SimState, es: seq<WideEvent>, id: Id)
    requires Known(s.orders, s.pending)
  {
    var fills := FillsOf(WideRun(cfg, mode, s, es).queue, id);
    exists i :: |FillsOf(s.queue, id)| <= i < |fills| && fills[i].qty <= 0.0
  }

  /** What is left of the work before the order has to emit an empty fill. */
  function Work(cfg: SimConfig, s: SimState, id: Id): nat
    requires SoundConfig(cfg) && id in s.orders
  {
    SumDue(Waits(s.pending, id)) + SlicesLeft(cfg, s.orders[id].Remaining())
  }

  predicate Ready(s: SimState, id: Id) {
    && Known(s.orders, s.pending) && SelfKeyed(s.orders) && id in s.orders
    && Tradable(s.orders[id].ticket) && InBounds(s.orders[id]) && Spare(s, id)
  }

  /** The effect of a matching tick on the order. */
  lemma TickMulti(cfg: SimConfig, s: SimState, id: Id)
    requires SoundConfig(cfg) && Ready(s, id)
    ensures var r := s.orders[id];
            var s', m := Ticked(cfg, s, MatchingQuote(r.ticket)),
                         VisitAll(cfg, MatchingPrice(r.ticket), r.ticket.instrument.key, r, Waits(s.pending, id));
            && SelfKeyed(s'.orders) && s'.orders[id] == m.rec && Waits(s'.pending, id) == m.waits
            && FillsOf(s'.queue, id) == FillsOf(s.queue, id) + m.fills
  {
    hide Visited, VisitAll, MatchingPrice;
    var t := s.orders[id].ticket;
    var price, key := MatchingPrice(t), t.instrument.key;
    MatchingQuotePrice(t);
    assert s.pending[..|s.pending|] == s.pending;
    SweptMulti(cfg, price, key, s.pending, s.orders, |s.pending|, id);
    SweptFromQueue(cfg, price, key, s.pending, s.orders, |s.pending|);
    FillsOfConcat(s.queue, Swept(cfg, price, key, s.pending, s.orders, |s.pending|).emitted, id);
  }

  /** A matching tick emits an empty fill, or leaves the order ready and with less work to do. */
  lemma TickComesNearer(cfg: SimConfig, s: SimState, id: Id)
    requires SoundConfig(cfg) && Ready(s, id)
    ensures var s' := Ticked(cfg, s, MatchingQuote(s.orders[id].ticket));
            var before, after := FillsOf(s.queue, id), FillsOf(s'.queue, id);
            && |before| <= |after|
            && ((exists i :: |before| <= i < |after| && after[i].qty <= 0.0)
                || (Ready(s', id) && Work(cfg, s', id) < Work(cfg, s, id)))
  {
    hide VisitAll, Ticked, MatchingPrice, MatchingQuote, SumDue, SlicesLeft, FillsOf, Waits;
    var r := s.orders[id];
    TickMulti(cfg, s, id);
    TickProgress(cfg, r, Waits(s.pending, id));
    var m := VisitAll(cfg, MatchingPrice(r.ticket), r.ticket.instrument.key, r, Waits(s.pending, id));
    if SomeEmpty(m.fills) {
      var i :| 0 <= i < |m.fills| && m.fills[i].qty <= 0.0;
      assert (FillsOf(s.queue, id) + m.fills)[|FillsOf(s.queue, id)| + i] == m.fills[i];
    }
  }

  lemma {:induction false} WideRunConcat(cfg: SimConfig, mode: string, s: SimState, es: seq<WideEvent>, fs: seq<WideEvent>)
    requires Known(s.orders, s.pending)
    ensures WideRun(cfg, mode, s, es + fs) == WideRun(cfg, mode, WideRun(cfg, mode, s, es), fs)
    ensures Guarded(cfg, mode, s, es + fs) <==> Guarded(cfg, mode, s, es) && Guarded(cfg, mode, WideRun(cfg, mode, s, es), fs)
  {
    hide WideStep, Guard;
    if fs == [] {
      assert es + fs == es;
    } else {
      var n := |fs| - 1;
      assert (es + fs)[..|es + fs| - 1] == es + fs[..n] && (es + fs)[|es + fs| - 1] == fs[n];
      WideRunConcat(cfg, mode, s, es, fs[..n]);
    }
  }

  lemma OneTick(cfg: SimConfig, mode: string, s: SimState, q: Quote)
    requires Known(s.orders, s.pending)
    ensures var es := [Plain(Tick(q))];
            WideRun(cfg, mode, s, es) == Ticked(cfg, s, q) && Guarded(cfg, mode, s, es)
  {
    var es := [Plain(Tick(q))];
    assert es[..0] == [];
  }

  /** With a place to spare, some ticks of the order's own instrument, at a price at which it trades,
      bring an empty fill. */
  lemma {:induction false} EmptyFillComes(cfg: SimConfig, mode: string, s: SimState, id: Id) returns (es: seq<WideEvent>)
    requires SoundConfig(cfg) && Ready(s, id)
    ensures Guarded(cfg, mode, s, es) && EmitsEmpty(cfg, mode, s, es, id)
    decreases Work(cfg, s, id)
  {
    hide WideRun, Guarded, Ticked, Waits, FillsOf, MatchingQuote, Work;
    var q := MatchingQuote(s.orders[id].ticket);
    var s', tick := Ticked(cfg, s, q), [Plain(Tick(q))];
    TickComesNearer(cfg, s, id);
    OneTick(cfg, mode, s, q);
    var before, after := FillsOf(s.queue, id), FillsOf(s'.queue, id);
    if exists i :: |before| <= i < |after| && after[i].qty <= 0.0 {
      es := tick;
    } else {
      var rest := EmptyFillComes(cfg, mode, s', id);
      es := tick + rest;
      WideRunConcat(cfg, mode, s, tick, rest);
    }
  }

  // ---- The condition ----

  lemma {:induction false} QueuedHasWaits(pending: seq<Pend>, id: Id)
    ensures WaitOf(pending, id).Some? <==> Waits(pending, id) != []
  {
    if pending != [] {
      QueuedHasWaits(pending[..|pending| - 1], id);
    }
  }

  lemma CarelessIsReady(cfg: SimConfig, s: SimState, id: Id)
    requires StillOrderly(s) && id in s.orders && Tradable(s.orders[id].ticket) && !MayAgain(s, id)
    ensures Ready(Placed(cfg, s, s.orders[id]), id)
  {
    hide Waits, WaitOf, TrueAverage, FillsOf;
    assert StillConserved(LifeOf(s, id));
    assert s.orders[id].ticket.id == id;
    QueuedHasWaits(s.pending, id);
    assert Requeued(id, Some(cfg.latencyBars)) == [Pend(id, cfg.latencyBars)];
    WaitsRequeued(s.pending, id, Some(cfg.latencyBars), id);
  }

  /** After a guarded run all fills are positive. */
  lemma GuardedEmitsNoEmpty(cfg: SimConfig, mode: string, s: SimState, es: seq<WideEvent>, id: Id)
    requires SoundConfig(cfg) && StillOrderly(s) && id in s.orders && Guarded(cfg, mode, s, es)
    ensures !EmitsEmpty(cfg, mode, s, es, id)
  {
    hide WideStep, Guard, TrueAverage, WideRun, Guarded;
    GuardedRunsAreOrderly(cfg, mode, s, es);
    var s' := WideRun(cfg, mode, s, es);
    OrdersStay(cfg, mode, s, es, id);
    assert StillConserved(LifeOf(s', id));
  }

  lemma {:induction false} OrdersStay(cfg: SimConfig, mode: string, s: SimState, es: seq<WideEvent>, id: Id)
    requires Known(s.orders, s.pending) && id in s.orders
    ensures id in WideRun(cfg, mode, s, es).orders
  {
    if es != [] {
      OrdersStay(cfg, mode, s, es[..|es| - 1], id);
    }
  }

  /** In any state in order, placing a market or limit order's object again admits a continuation that
      emits an empty fill of it, with everything after placed with care, if and only if it is still
      queued or has nothing left to fill. */
  lemma AgainEmptiesIff(cfg: SimConfig, mode: string, s: SimState, id: Id)
    requires SoundConfig(cfg) && StillOrderly(s) && id in s.orders
    requires s.orders[id].ticket.mode == mode && Tradable(s.orders[id].ticket)
    ensures (exists es :: Guarded(cfg, mode, WideStep(cfg, mode, s, Again(id)), es)
                          && EmitsEmpty(cfg, mode, WideStep(cfg, mode, s, Again(id)), es, id))
            <==> WaitOf(s.pending, id).Some? || s.orders[id].Remaining() == 0.0
  {
    hide Guarded, EmitsEmpty, WaitOf, TrueAverage, Ready;
    var s' := WideStep(cfg, mode, s, Again(id));
    AgainIsPlaced(cfg, mode, s, id);
    if MayAgain(s, id) {
      WideStepStillOrderly(cfg, mode, s, Again(id));
      forall es | Guarded(cfg, mode, s', es)
        ensures !EmitsEmpty(cfg, mode, s', es, id)
      {
        GuardedEmitsNoEmpty(cfg, mode, s', es, id);
      }
    } else {
      CarelessIsReady(cfg, s, id);
      var es := EmptyFillComes(cfg, mode, s', id);
    }
  }

  lemma AgainIsPlaced(cfg: SimConfig, mode: string, s: SimState, id: Id)
    requires StillOrderly(s) && id in s.orders && s.orders[id].ticket.mode == mode
    ensures WideStep(cfg, mode, s, Again(id)) == Placed(cfg, s, s.orders[id])
    ensures s.orders[id].Remaining() >= 0.0
  {
    assert s.orders[id].ticket.id == id;
    assert StillConserved(LifeOf(s, id));
  }
}
