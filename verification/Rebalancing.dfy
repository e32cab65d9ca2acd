/** Where the executor's child orders lead: towards the plan without overshooting it, and, once
    they are filled, to a portfolio it has nothing more to say about. */
module Rebalancing {
  import opened Core
  import opened Totals
  import opened Ledgers
  import opened OrderLife
  import opened OrderTheorems
  import opened Executor

  /** Each position is filed under its own instrument's key. */
  predicate Filed(b: Book) {
    forall k :: k in b ==> b[k].instrument.key == k
  }

  /** A positive fill of one of the children, wherever and at whatever price it traded. */
  predicate ChildFill(ts: seq<Ticket>, f: Fill, firstId: Id) {
    && firstId <= f.orderId < firstId + |ts|
    && var t := ts[f.orderId - firstId];
       f.instrument == t.instrument && f.side == t.side && f.qty > 0.0
  }

  predicate ChildFills(ts: seq<Ticket>, fills: seq<Fill>, firstId: Id) {
    forall i :: 0 <= i < |fills| ==> ChildFill(ts, fills[i], firstId)
  }

  function FilledQty(t: Ticket, fills: seq<Fill>): real {
    QtyOf(FillsOf(fills, t.id))
  }

  /** Honest brokers fill no child beyond its quantity, and `done` ones fill every child whole. */
  predicate Within(ts: seq<Ticket>, fills: seq<Fill>) {
    forall i :: 0 <= i < |ts| ==> FilledQty(ts[i], fills) <= ts[i].qty
  }

  predicate Done(ts: seq<Ticket>, fills: seq<Fill>) {
    forall i :: 0 <= i < |ts| ==> FilledQty(ts[i], fills) == ts[i].qty
  }

  /** The signed quantity ordered on one instrument. */
  function Ordered(ts: seq<Ticket>, key: string): real {
    if ts == [] then 0.0
    else
      var t := ts[|ts| - 1];
      Ordered(ts[..|ts| - 1], key) + if t.instrument.key == key then SignedQty(t.side, t.qty) else 0.0
  }

  /** The signed quantity filled on one instrument, child by child. */
  function FilledOn(ts: seq<Ticket>, fills: seq<Fill>, key: string): real {
    if ts == [] then 0.0
    else
      var t := ts[|ts| - 1];
      FilledOn(ts[..|ts| - 1], fills, key) + if t.instrument.key == key then SignedQty(t.side, FilledQty(t, fills)) else 0.0
  }

  lemma FilledQtySnoc(t: Ticket, fills: seq<Fill>, f: Fill)
    ensures FilledQty(t, fills + [f]) == FilledQty(t, fills) + if f.orderId == t.id then f.qty else 0.0
  {
    assert (fills + [f])[..|fills|] == fills;
    var own := FillsOf(fills, t.id);
    if f.orderId == t.id {
      assert (own + [f])[..|own|] == own;
    } else {
      assert own + [] == own;
    }
  }

  lemma {:induction false} FilledOnSnoc(ts: seq<Ticket>, fills: seq<Fill>, f: Fill, key: string, firstId: Id)
    requires Numbered(ts, firstId)
    ensures FilledOn(ts, fills + [f], key) == FilledOn(ts, fills, key) +
              if firstId <= f.orderId < firstId + |ts| && ts[f.orderId - firstId].instrument.key == key
              then SignedQty(ts[f.orderId - firstId].side, f.qty) else 0.0
  {
    if ts != [] {
      FilledOnSnoc(ts[..|ts| - 1], fills, f, key, firstId);
      FilledQtySnoc(ts[|ts| - 1], fills, f);
    }
  }

  lemma {:induction false} NothingFilled(ts: seq<Ticket>, key: string)
    ensures FilledOn(ts, [], key) == 0.0
  {
    if ts != [] {
      NothingFilled(ts[..|ts| - 1], key);
    }
  }

  /** Counting by children and counting by fills agree. */
  lemma {:induction false} TradedIsFilled(ts: seq<Ticket>, fills: seq<Fill>, key: string, firstId: Id)
    requires Numbered(ts, firstId) && ChildFills(ts, fills, firstId)
    ensures TradedOn(fills, key) == FilledOn(ts, fills, key)
  {
    if fills == [] {
      NothingFilled(ts, key);
    } else {
      var n := |fills| - 1;
      TradedIsFilled(ts, fills[..n], key, firstId);
      FilledOnSnoc(ts, fills[..n], fills[n], key, firstId);
      assert fills[..n] + [fills[n]] == fills;
    }
  }

  // ---- What the plan orders on one instrument ----

  lemma {:induction false} OrderedConcat(ts: seq<Ticket>, us: seq<Ticket>, key: string)
    ensures Ordered(ts + us, key) == Ordered(ts, key) + Ordered(us, key)
  {
    if us == [] {
      assert ts + us == ts;
    } else {
      assert (ts + us)[..|ts + us| - 1] == ts + us[..|us| - 1];
      OrderedConcat(ts, us[..|us| - 1], key);
    }
  }

  lemma {:induction false} ChildrenOrder(i: Instrument, delta: real, qtys: seq<real>, mode: string, id: Id, key: string)
    requires forall k :: 0 <= k < |qtys| ==> qtys[k] > 0.0
    ensures Ordered(Children(i, delta, qtys, mode, id), key)
            == if i.key == key then SignedQty(if delta > 0.0 then Buy else Sell, Sum(qtys)) else 0.0
  {
    if qtys != [] {
      var n := |qtys| - 1;
      ChildrenOrder(i, delta, qtys[..n], mode, id, key);
      assert Children(i, delta, qtys, mode, id)[..n] == Children(i, delta, qtys[..n], mode, id);
    }
  }

  function MoveQty(t: Target, marks: map<string, real>, equity: real, b: Book): real {
    var move := Move(t, marks, equity, b);
    if move.None? then 0.0 else move.value
  }

  /** Everything the executor says about one target. */
  datatype Ask = Ask(marks: map<string, real>, equity: real, b: Book, mode: string, chunk: real, firstId: Id)

  ghost function Asked(targets: seq<Target>, a: Ask): seq<Ticket>
    requires a.chunk > 0.0
  {
    Tickets(targets, a.marks, a.equity, a.b, a.mode, a.chunk, a.firstId)
  }

  /** The children of one target, after those of the targets before it. */
  ghost function Batch(t: Target, a: Ask, before: nat): (ts: seq<Ticket>)
    requires a.chunk > 0.0 && Filed(a.b)
    ensures forall k :: 0 <= k < |ts| ==>
              && ts[k].instrument.key == t.key && t.key in a.b
              && ts[k].side == if MoveQty(t, a.marks, a.equity, a.b) > 0.0 then Buy else Sell
  {
    var move := Move(t, a.marks, a.equity, a.b);
    if move.None? then []
    else Children(a.b[t.key].instrument, move.value, Slices(Abs(move.value), a.chunk), a.mode, a.firstId + before)
  }

  lemma AskedSnoc(targets: seq<Target>, a: Ask)
    requires a.chunk > 0.0 && Filed(a.b) && targets != []
    ensures var n := |targets| - 1;
            Asked(targets, a) == Asked(targets[..n], a) + Batch(targets[n], a, |Asked(targets[..n], a)|)
  {
    hide Move, Slices, Children, Filed;
  }

  /** A target's children order exactly its distance. */
  lemma BatchOrders(t: Target, a: Ask, before: nat, key: string)
    requires a.chunk > 0.0 && Filed(a.b)
    ensures Ordered(Batch(t, a, before), key) == if t.key == key then MoveQty(t, a.marks, a.equity, a.b) else 0.0
  {
    var move := Move(t, a.marks, a.equity, a.b);
    if move.Some? {
      ChildrenOrder(a.b[t.key].instrument, move.value, Slices(Abs(move.value), a.chunk), a.mode, a.firstId + before, key);
    }
  }

  /** On an instrument no target names, nothing is ordered; on a named one, its target's distance,
      all in its direction. */
  lemma {:induction false} PlanOrders(targets: seq<Target>, a: Ask, key: string)
    requires a.chunk > 0.0 && Filed(a.b) && Plan("", targets).Valid()
    ensures var ts := Asked(targets, a);
            && (forall i :: 0 <= i < |ts| ==> ts[i].instrument.key in a.b)
            && ((forall j :: 0 <= j < |targets| ==> targets[j].key != key) ==>
                  Ordered(ts, key) == 0.0 && forall i :: 0 <= i < |ts| ==> ts[i].instrument.key != key)
            && forall j :: 0 <= j < |targets| && targets[j].key == key ==>
                 var move := MoveQty(targets[j], a.marks, a.equity, a.b);
                 && Ordered(ts, key) == move
                 && forall i :: 0 <= i < |ts| && ts[i].instrument.key == key ==>
                      ts[i].side == if move > 0.0 then Buy else Sell
  {
    hide Asked, Ordered, MoveQty, Batch;
    if targets == [] {
      NothingAsked(a, key);
    } else {
      var n := |targets| - 1;
      PlanOrders(targets[..n], a, key);
      AskedSnoc(targets, a);
      var before := Asked(targets[..n], a);
      BatchOrders(targets[n], a, |before|, key);
      OrderedConcat(before, Batch(targets[n], a, |before|), key);
      assert forall j :: 0 <= j < n ==> targets[..n][j] == targets[j];
    }
  }

  lemma NothingAsked(a: Ask, key: string)
    requires a.chunk > 0.0
    ensures Asked([], a) == [] && Ordered([], key) == 0.0
  {
  }

  // ---- Partial fills ----

  lemma {:induction false} FilledQtyNotNegative(ts: seq<Ticket>, fills: seq<Fill>, firstId: Id, t: Ticket)
    requires ChildFills(ts, fills, firstId)
    ensures FilledQty(t, fills) >= 0.0
  {
    if fills != [] {
      var n := |fills| - 1;
      FilledQtyNotNegative(ts, fills[..n], firstId, t);
      FilledQtySnoc(t, fills[..n], fills[n]);
      assert fills[..n] + [fills[n]] == fills;
    }
  }

  /** On one instrument, with all its children on one side, the filled part is between nothing and
      everything. */
  lemma {:induction false} FilledBetween(ts: seq<Ticket>, fills: seq<Fill>, key: string, side: Side)
    requires Within(ts, fills) && forall i :: 0 <= i < |ts| ==> FilledQty(ts[i], fills) >= 0.0
    requires forall i :: 0 <= i < |ts| && ts[i].instrument.key == key ==> ts[i].side == side
    ensures var filled, all := FilledOn(ts, fills, key), Ordered(ts, key);
            if side.Buy? then 0.0 <= filled <= all else all <= filled <= 0.0
    ensures Done(ts, fills) ==> FilledOn(ts, fills, key) == Ordered(ts, key)
  {
    hide FilledQty;
    if ts != [] {
      FilledBetween(ts[..|ts| - 1], fills, key, side);
    }
  }

  /** The quantity on one instrument after any honest fills of the children. */
  lemma QtyAfter(targets: seq<Target>, a: Ask, fills: seq<Fill>, j: nat)
    requires a.chunk > 0.0 && Filed(a.b) && Plan("", targets).Valid() && j < |targets|
    requires ChildFills(Asked(targets, a), fills, a.firstId) && Within(Asked(targets, a), fills)
    ensures var move, q := MoveQty(targets[j], a.marks, a.equity, a.b), QtyAt(a.b, targets[j].key);
            var q' := QtyAt(PostedAll(a.b, fills), targets[j].key);
            && (if move > 0.0 then q <= q' <= q + move else q + move <= q' <= q)
            && (Done(Asked(targets, a), fills) ==> q' == q + move)
  {
    hide MoveQty, PostedAll, Tickets, Ordered, FilledOn, TradedOn, FilledQty;
    var key, ts := targets[j].key, Asked(targets, a);
    QtyMoves(a.b, fills, key);
    TicketIds(targets, a.marks, a.equity, a.b, a.mode, a.chunk, a.firstId);
    TradedIsFilled(ts, fills, key, a.firstId);
    PlanOrders(targets, a, key);
    forall i | 0 <= i < |ts|
      ensures FilledQty(ts[i], fills) >= 0.0
    {
      FilledQtyNotNegative(ts, fills, a.firstId, ts[i]);
    }
    FilledBetween(ts, fills, key, if MoveQty(targets[j], a.marks, a.equity, a.b) > 0.0 then Buy else Sell);
  }

  // ---- The theorems ----

  /** However far a broker gets with the children, each planned position lies between where it was
      and its target: the executor never overshoots. */
  lemma NeverOvershoots(targets: seq<Target>, a: Ask, fills: seq<Fill>, j: nat)
    requires a.chunk > 0.0 && Filed(a.b) && Plan("", targets).Valid() && j < |targets| && targets[j].key in a.marks
    requires ChildFills(Asked(targets, a), fills, a.firstId) && Within(Asked(targets, a), fills)
    ensures var target := TargetQty(targets[j], a.marks[targets[j].key], a.equity);
            var q, q' := QtyAt(a.b, targets[j].key), QtyAt(PostedAll(a.b, fills), targets[j].key);
            q <= q' <= target || target <= q' <= q || (q' == q && Abs(target - q) < 1.0) || (q' == q && targets[j].key !in a.b)
  {
    hide PostedAll, Asked, TargetQty, ChildFills, Within, Done;
    QtyAfter(targets, a, fills, j);
  }

  /** With every child filled, each planned position with a mark and a known instrument is within
      one unit of its target, and exactly on it if anything was ordered. */
  lemma ReachesTarget(targets: seq<Target>, a: Ask, fills: seq<Fill>, j: nat)
    requires a.chunk > 0.0 && Filed(a.b) && Plan("", targets).Valid() && j < |targets|
    requires targets[j].key in a.marks && targets[j].key in a.b
    requires ChildFills(Asked(targets, a), fills, a.firstId) && Done(Asked(targets, a), fills)
    ensures var target := TargetQty(targets[j], a.marks[targets[j].key], a.equity);
            var q' := QtyAt(PostedAll(a.b, fills), targets[j].key);
            && Abs(target - q') < 1.0
            && (Move(targets[j], a.marks, a.equity, a.b).Some? ==> q' == target)
  {
    assert Within(Asked(targets, a), fills);
    hide PostedAll, Asked, TargetQty, ChildFills, Within, Done;
    QtyAfter(targets, a, fills, j);
  }

  lemma {:induction false} NoNewPositions(b: Book, ts: seq<Ticket>, fills: seq<Fill>, firstId: Id)
    requires ChildFills(ts, fills, firstId) && forall i :: 0 <= i < |ts| ==> ts[i].instrument.key in b
    ensures PostedAll(b, fills).Keys == b.Keys
  {
    if fills != [] {
      NoNewPositions(b, ts, fills[..|fills| - 1], firstId);
    }
  }

  lemma {:induction false} NoMoves(targets: seq<Target>, a: Ask)
    requires a.chunk > 0.0 && forall j :: 0 <= j < |targets| ==> Move(targets[j], a.marks, a.equity, a.b).None?
    ensures Asked(targets, a) == []
  {
    if targets != [] {
      NoMoves(targets[..|targets| - 1], a);
    }
  }

  /** A fixed point: reconciling again with the same plan, marks and equity orders nothing. */
  lemma SecondPassIsSilent(targets: seq<Target>, a: Ask, fills: seq<Fill>, nextId: Id)
    requires a.chunk > 0.0 && Filed(a.b) && Plan("", targets).Valid()
    requires ChildFills(Asked(targets, a), fills, a.firstId) && Done(Asked(targets, a), fills)
    ensures Asked(targets, a.(b := PostedAll(a.b, fills), firstId := nextId)) == []
  {
    hide Asked, PostedAll, TargetQty, ChildFills, Done;
    PlanOrders(targets, a, "");
    NoNewPositions(a.b, Asked(targets, a), fills, a.firstId);
    var again := a.(b := PostedAll(a.b, fills), firstId := nextId);
    forall j | 0 <= j < |targets|
      ensures Move(targets[j], again.marks, again.equity, again.b).None?
    {
      if targets[j].key in a.marks && targets[j].key in a.b {
        ReachesTarget(targets, a, fills, j);
      }
    }
    NoMoves(targets, again);
  }
}
