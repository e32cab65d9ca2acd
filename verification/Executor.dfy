/** src/tradingplatform/agents/executor.py: turning a target portfolio into child orders. */
module Executor {
  import opened Core
  import opened Totals
  import opened Positions
  import opened Ledgers
  import opened SimModel
  import opened Risk
  import opened OmsModel
  import opened Oms

  // ---- Splitting a quantity ----

  /** The first `n` children: full chunks, and what is left at the end. */
  function SlicesTo(total: real, chunk: real, n: nat): (xs: seq<real>)
    requires chunk > 0.0 && (n > 0 ==> Times(n - 1, chunk) < total)
    ensures |xs| == n && forall i :: 0 <= i < n ==> 0.0 < xs[i] <= chunk
    ensures Sum(xs) == if n == 0 then 0.0 else Min(total, Times(n, chunk))
  {
    hide Times;
    if n == 0 then []
    else
      TimesNext(n, chunk);
      TimesNext(n - 1, chunk);
      var before := SlicesTo(total, chunk, n - 1);
      var last := Min(total - Times(n - 1, chunk), chunk);
      SumSnoc(before, last);
      before + [last]
  }

  /** The fewest chunks that cover a quantity. */
  function SliceNumber(total: real, chunk: real): (n: nat)
    requires chunk > 0.0
    ensures total <= 0.0 ==> n == 0
    ensures total > 0.0 ==> n > 0 && Times(n - 1, chunk) < total <= Times(n, chunk)
  {
    if total <= 0.0 then 0
    else
      var n := CeilDiv(total, chunk);
      CeilDivCovers(total, chunk, 0);
      CeilDivCovers(total, chunk, n);
      CeilDivCovers(total, chunk, n - 1);
      n
  }

  lemma BeforeTheLast(total: real, chunk: real, k: nat)
    requires chunk > 0.0 && total > 0.0
    ensures k < SliceNumber(total, chunk) <==> Times(k, chunk) < total
  {
    CeilDivCovers(total, chunk, k);
  }

  /** A quantity cut into the fewest chunks that cover it, each positive and at most a chunk,
      adding up to it. */
  function Slices(total: real, chunk: real): (xs: seq<real>)
    requires chunk > 0.0
    ensures |xs| == SliceNumber(total, chunk)
    ensures forall i :: 0 <= i < |xs| ==> 0.0 < xs[i] <= chunk
    ensures Sum(xs) == Max(0.0, total)
  {
    hide Times;
    SlicesTo(total, chunk, SliceNumber(total, chunk))
  }

  /** One more pass of the splitting loop. */
  lemma NextSlice(total: real, chunk: real, out: seq<real>, remaining: real)
    requires chunk > 0.0 && remaining > 0.0 && |out| <= SliceNumber(total, chunk)
    requires |out| > 0 ==> Times(|out| - 1, chunk) < total
    requires out == SlicesTo(total, chunk, |out|) && remaining == total - Sum(out)
    ensures |out| < SliceNumber(total, chunk) && Times(|out|, chunk) < total
    ensures out + [Min(remaining, chunk)] == SlicesTo(total, chunk, |out| + 1)
  {
    hide Times, SliceNumber;
    TimesNext(|out|, chunk);
    TimesNext(|out| + 1, chunk);
    if total > 0.0 {
      BeforeTheLast(total, chunk, |out|);
    }
  }

  /** All slices taken: nothing remains, and nothing was needed before. */
  lemma SlicesTaken(total: real, chunk: real, out: seq<real>)
    requires chunk > 0.0 && |out| <= SliceNumber(total, chunk) && (|out| > 0 ==> Times(|out| - 1, chunk) < total)
    requires out == SlicesTo(total, chunk, |out|) && total - Sum(out) <= 0.0
    ensures out == Slices(total, chunk)
  {
    hide Times, SliceNumber, Sum;
    if total > 0.0 {
      BeforeTheLast(total, chunk, |out|);
    }
  }

  /** The splitting loop over exact numbers; it ends, since every pass but the last takes a whole
      chunk. */
  method Split(total: real, chunk: real) returns (out: seq<real>)
    requires chunk > 0.0
    ensures out == Slices(total, chunk)
  {
    hide SlicesTo, SliceNumber, Slices, Sum, Times;
    out := [];
    var remaining := total;
    assert SlicesTo(total, chunk, 0) == [];
    while remaining > 0.0
      invariant |out| <= SliceNumber(total, chunk) && (|out| > 0 ==> Times(|out| - 1, chunk) < total)
      invariant out == SlicesTo(total, chunk, |out|) && remaining == total - Sum(out)
      decreases SliceNumber(total, chunk) - |out|
    {
      NextSlice(total, chunk, out, remaining);
      var take := Min(remaining, chunk);
      SumSnoc(out, take);
      out := out + [take];
      remaining := remaining - take;
    }
    SlicesTaken(total, chunk, out);
  }

  // ---- From a plan to child orders ----

  datatype Target = Target(key: string, weight: real)

  /** Targets in the order the dictionary holds them. */
  datatype Plan = Plan(mode: string, targets: seq<Target>)
  {
    /** A dictionary has each key once. */
    predicate Valid() {
      forall i, j :: 0 <= i < j < |targets| ==> targets[i].key != targets[j].key
    }
  }

  datatype Refusal = UnsupportedMode | DivisionByZero

  datatype Result<T> = Ok(value: T) | Err(refusal: Refusal)

  function TargetQty(t: Target, mark: real, equity: real): real {
    Quot(equity * t.weight, mark)
  }

  /** The quantity to trade towards a target, if any: it takes a mark, a distance of at least one
      unit, and a position that says which instrument this is. */
  function Move(t: Target, marks: map<string, real>, equity: real, b: Book): Option<real> {
    if t.key !in marks then None
    else
      var delta := TargetQty(t, marks[t.key], equity) - QtyAt(b, t.key);
      if Abs(delta) < 1.0 || t.key !in b then None else Some(delta)
  }

  predicate ZeroMark(targets: seq<Target>, marks: map<string, real>) {
    exists i :: 0 <= i < |targets| && targets[i].key in marks && marks[targets[i].key] == 0.0
  }

  /** Market orders for the slices of one move, with consecutive uuids. */
  function Children(i: Instrument, delta: real, qtys: seq<real>, mode: string, id: Id): seq<Ticket>
    requires forall k :: 0 <= k < |qtys| ==> qtys[k] > 0.0
  {
    seq(|qtys|, k requires 0 <= k < |qtys| =>
      Ticket(id + k, i, if delta > 0.0 then Buy else Sell, qtys[k], Market, None, None, mode))
  }

  /** Everything the plan asks for, target after target. */
  function Tickets(targets: seq<Target>, marks: map<string, real>, equity: real, b: Book, mode: string, chunk: real,
                   firstId: Id): seq<Ticket>
    requires chunk > 0.0
  {
    if targets == [] then []
    else
      var n := |targets| - 1;
      var before := Tickets(targets[..n], marks, equity, b, mode, chunk, firstId);
      var move := Move(targets[n], marks, equity, b);
      before + if move.None? then []
               else Children(b[targets[n].key].instrument, move.value, Slices(Abs(move.value), chunk), mode,
                             firstId + |before|)
  }

  function SubmittedAll(cfg: SimConfig, limits: RiskLimits, mode: string, o: OmsState, ts: seq<Ticket>,
                        clock: nat -> real): OmsState {
    if ts == [] then o
    else
      var n := |ts| - 1;
      Submitted(cfg, limits, mode, SubmittedAll(cfg, limits, mode, o, ts[..n], clock), NewOrder(ts[n]), clock(n))
  }

  // ---- What becomes of the children ----

  /** The tickets that a dictionary of orders shows as sent, in their order. */
  function SentOf(ts: seq<Ticket>, orders: Orders): seq<Ticket> {
    if ts == [] then []
    else
      var t := ts[|ts| - 1];
      SentOf(ts[..|ts| - 1], orders) + if t.id in orders && orders[t.id].status.Sent? then [t] else []
  }

  function Entries(ts: seq<Ticket>, bars: int): seq<Pend> {
    seq(|ts|, i requires 0 <= i < |ts| => Pend(ts[i].id, bars))
  }

  /** A child's record: nothing filled, and rejected, or sent under a broker id. */
  predicate FreshRecord(t: Ticket, r: OrderRec) {
    && r.ticket == t && r.filledQty == 0.0 && r.avgFillPrice.None?
    && if r.brokerOrderId.Some? then r.status.Sent? else r.status.Rejected?
  }

  /** Every ticket is on file, rejected or sent, and older orders are as they were. */
  ghost predicate OnFile(orders: Orders, ts: seq<Ticket>, orders': Orders) {
    && (forall id :: id in orders' <==> id in orders || exists i :: 0 <= i < |ts| && ts[i].id == id)
    && (forall id :: id in orders ==> orders'[id] == orders[id])
    && forall i :: 0 <= i < |ts| ==> FreshRecord(ts[i], orders'[ts[i].id])
  }

  /** The sent ones have joined the end of the queue, each once and in their order, under consecutive
      broker ids; older entries are as they were, and nothing has traded. */
  ghost predicate Joined(cfg: SimConfig, s: SimState, sent: seq<Ticket>, s': SimState) {
    && s'.pending == s.pending + Entries(sent, cfg.latencyBars)
    && s'.brokerIds == s.brokerIds + |sent|
    && (forall i :: 0 <= i < |sent| ==> sent[i].id in s'.orders && s'.orders[sent[i].id].brokerOrderId == Some(s.brokerIds + i))
    && s'.positions == s.positions && s'.cash == s.cash && s'.queue == s.queue
  }

  ghost predicate Lodged(cfg: SimConfig, o: OmsState, ts: seq<Ticket>, o': OmsState) {
    && OnFile(o.sim.orders, ts, o'.sim.orders) && Joined(cfg, o.sim, SentOf(ts, o'.sim.orders), o'.sim)
    && o'.positions == o.positions && o'.risk.dailyRealisedPnl == o.risk.dailyRealisedPnl
  }

  lemma {:induction false} SentOfSame(ts: seq<Ticket>, orders: Orders, orders': Orders)
    requires forall i :: 0 <= i < |ts| ==> ts[i].id in orders && ts[i].id in orders' && orders'[ts[i].id] == orders[ts[i].id]
    ensures SentOf(ts, orders') == SentOf(ts, orders)
    ensures forall i :: 0 <= i < |SentOf(ts, orders)| ==> SentOf(ts, orders)[i] in ts
  {
    if ts != [] {
      SentOfSame(ts[..|ts| - 1], orders, orders');
    }
  }

  lemma SentOfNext(ts: seq<Ticket>, t: Ticket, orders: Orders, orders': Orders)
    requires (forall i :: 0 <= i < |ts| ==> ts[i].id in orders && ts[i].id != t.id) && t.id in orders'
    requires orders' == orders[t.id := orders'[t.id]]
    ensures SentOf(ts + [t], orders') == if orders'[t.id].status.Sent? then SentOf(ts, orders) + [t] else SentOf(ts, orders)
    ensures forall i :: 0 <= i < |SentOf(ts, orders)| ==> SentOf(ts, orders)[i] in ts
  {
    SentOfSame(ts, orders, orders');
    assert (ts + [t])[..|ts|] == ts;
    assert SentOf(ts, orders) + [] == SentOf(ts, orders);
  }

  lemma EntriesNext(ts: seq<Ticket>, t: Ticket, bars: int)
    ensures Entries(ts + [t], bars) == Entries(ts, bars) + [Pend(t.id, bars)]
  {
  }

  lemma OneMoreOnFile(orders: Orders, ts: seq<Ticket>, t: Ticket, orders': Orders, r: OrderRec)
    requires OnFile(orders, ts, orders') && t.id !in orders && FreshRecord(t, r)
    requires forall i :: 0 <= i < |ts| ==> ts[i].id != t.id
    ensures OnFile(orders, ts + [t], orders'[t.id := r])
  {
    hide FreshRecord;
    var more, now := ts + [t], orders'[t.id := r];
    forall id
      ensures id in now <==> id in orders || exists i :: 0 <= i < |more| && more[i].id == id
    {
      if i :| 0 <= i < |ts| && ts[i].id == id {
        assert more[i].id == id;
      }
      assert more[|ts|].id == t.id;
    }
  }

  lemma OneMoreJoined(cfg: SimConfig, s: SimState, sent: seq<Ticket>, s1: SimState, t: Ticket, s2: SimState)
    requires Joined(cfg, s, sent, s1) && forall i :: 0 <= i < |sent| ==> sent[i].id != t.id
    requires s2 == s1.(orders := s1.orders[t.id := OrderRec(t, Some(s1.brokerIds), Sent, 0.0, None)],
                       pending := s1.pending + [Pend(t.id, cfg.latencyBars)], brokerIds := s1.brokerIds + 1)
    ensures Joined(cfg, s, sent + [t], s2)
  {
    EntriesNext(sent, t, cfg.latencyBars);
  }

  lemma RejectedJoined(cfg: SimConfig, s: SimState, sent: seq<Ticket>, s1: SimState, t: Ticket, s2: SimState)
    requires Joined(cfg, s, sent, s1) && forall i :: 0 <= i < |sent| ==> sent[i].id != t.id
    requires t.id in s2.orders && s2 == s1.(orders := s1.orders[t.id := s2.orders[t.id]])
    ensures Joined(cfg, s, sent, s2)
  {
  }

  lemma OnFileIds(orders: Orders, ts: seq<Ticket>, orders': Orders)
    requires OnFile(orders, ts, orders')
    ensures forall i :: 0 <= i < |ts| ==> ts[i].id in orders'
  {
  }

  lemma SubmitLodges(cfg: SimConfig, limits: RiskLimits, mode: string, o: OmsState, ts: seq<Ticket>, t: Ticket, o1: OmsState,
                     now: real)
    requires Lodged(cfg, o, ts, o1) && t.id !in o.sim.orders && forall i :: 0 <= i < |ts| ==> ts[i].id != t.id
    ensures Lodged(cfg, o, ts + [t], Submitted(cfg, limits, mode, o1, NewOrder(t), now))
  {
    hide Submitted, SentOf, Entries, VerdictOn, OnFile, Joined;
    var o2, sent := Submitted(cfg, limits, mode, o1, NewOrder(t), now), SentOf(ts, o1.sim.orders);
    SubmitFiles(cfg, limits, mode, o1, t, now);
    OnFileIds(o.sim.orders, ts, o1.sim.orders);
    SentOfNext(ts, t, o1.sim.orders, o2.sim.orders);
    OneMoreOnFile(o.sim.orders, ts, t, o1.sim.orders, o2.sim.orders[t.id]);
    if o2.sim.orders[t.id].status.Sent? {
      OneMoreJoined(cfg, o.sim, sent, o1.sim, t, o2.sim);
    } else {
      RejectedJoined(cfg, o.sim, sent, o1.sim, t, o2.sim);
    }
  }

  lemma NothingLodged(cfg: SimConfig, o: OmsState)
    ensures Lodged(cfg, o, [], o)
  {
    assert Entries([], cfg.latencyBars) == [];
    assert o.sim.pending + [] == o.sim.pending;
  }

  lemma {:induction false} AllLodged(cfg: SimConfig, limits: RiskLimits, mode: string, o: OmsState, ts: seq<Ticket>,
                                     clock: nat -> real, firstId: Id)
    requires Numbered(ts, firstId) && forall id :: id in o.sim.orders ==> id < firstId
    ensures Lodged(cfg, o, ts, SubmittedAll(cfg, limits, mode, o, ts, clock))
  {
    hide Lodged, Submitted;
    if ts == [] {
      NothingLodged(cfg, o);
    } else {
      var n := |ts| - 1;
      AllLodged(cfg, limits, mode, o, ts[..n], clock, firstId);
      SubmitLodges(cfg, limits, mode, o, ts[..n], ts[n], SubmittedAll(cfg, limits, mode, o, ts[..n], clock), clock(n));
      assert ts[..n] + [ts[n]] == ts;
    }
  }

  /** With the limits off and slots for all, every child of the broker's mode is sent. */
  lemma {:induction false} UnlimitedAreSent(cfg: SimConfig, limits: RiskLimits, mode: string, o: OmsState, ts: seq<Ticket>,
                                            clock: nat -> real, firstId: Id)
    requires Numbered(ts, firstId) && (forall id :: id in o.sim.orders ==> id < firstId)
    requires Roomy(limits, o, |ts|)
    requires forall i :: 0 <= i < |ts| ==> ts[i].mode == mode
    ensures SentOf(ts, SubmittedAll(cfg, limits, mode, o, ts, clock).sim.orders) == ts
    ensures |SubmittedAll(cfg, limits, mode, o, ts, clock).risk.orderTimes| <= |o.risk.orderTimes| + |ts|
  {
    hide Submitted, SentOf, VerdictOn;
    if ts == [] {
      NoneSent(o.sim.orders);
    } else {
      var n := |ts| - 1;
      UnlimitedAreSent(cfg, limits, mode, o, ts[..n], clock, firstId);
      AllLodged(cfg, limits, mode, o, ts[..n], clock, firstId);
      var o1 := SubmittedAll(cfg, limits, mode, o, ts[..n], clock);
      UnlimitedPasses(limits, mode, o1, ts[n], clock(n));
      SubmitFiles(cfg, limits, mode, o1, ts[n], clock(n));
      SentOfNext(ts[..n], ts[n], o1.sim.orders, SubmittedAll(cfg, limits, mode, o, ts, clock).sim.orders);
      assert ts[..n] + [ts[n]] == ts;
    }
  }

  lemma NoneSent(orders: Orders)
    ensures SentOf([], orders) == []
  {
  }

  lemma UnlimitedPasses(limits: RiskLimits, mode: string, o: OmsState, t: Ticket, now: real)
    requires Roomy(limits, o, 1) && t.mode == mode
    ensures VerdictOn(limits, mode, o, t, now) == Passed
  {
    RecentIsShorter(o.risk.orderTimes, now - 60.0);
  }

  /** A market order of the broker's mode for at most a chunk of something held. */
  predicate IsChild(t: Ticket, b: Book, mode: string, chunk: real) {
    && t.orderType == Market && t.limitPrice.None? && t.stopPrice.None? && t.mode == mode && t.qty <= chunk
    && exists key :: key in b && b[key].instrument == t.instrument
  }

  lemma {:induction false} TicketsAreChildren(targets: seq<Target>, marks: map<string, real>, equity: real, b: Book, mode: string,
                                              chunk: real, firstId: Id)
    requires chunk > 0.0
    ensures forall i :: 0 <= i < |Tickets(targets, marks, equity, b, mode, chunk, firstId)| ==>
              IsChild(Tickets(targets, marks, equity, b, mode, chunk, firstId)[i], b, mode, chunk)
  {
    hide Move, SliceNumber, Slices;
    if targets != [] {
      var n := |targets| - 1;
      TicketsAreChildren(targets[..n], marks, equity, b, mode, chunk, firstId);
      MoveIsHeld(targets[n], marks, equity, b);
    }
  }

  lemma MoveIsHeld(t: Target, marks: map<string, real>, equity: real, b: Book)
    ensures Move(t, marks, equity, b).Some? ==> t.key in b
  {
  }

  /** The limits are off, but for a rate that has slots left for this many. */
  predicate Roomy(limits: RiskLimits, o: OmsState, n: nat) {
    && limits.maxQtyPerSymbol.None? && limits.maxNotionalPerOrder.None? && limits.maxDailyLoss.None?
    && |o.risk.orderTimes| + n <= limits.maxOrdersPerMinute
  }

  lemma ChildrenAreLodged(cfg: SimConfig, limits: RiskLimits, mode: string, o: OmsState, ts: seq<Ticket>, clock: nat -> real,
                          firstId: Id, b: Book, chunk: real)
    requires Numbered(ts, firstId) && (forall id :: id in o.sim.orders ==> id < firstId)
    requires forall i :: 0 <= i < |ts| ==> IsChild(ts[i], b, mode, chunk)
    ensures var o' := SubmittedAll(cfg, limits, mode, o, ts, clock);
            Lodged(cfg, o, ts, o') && (Roomy(limits, o, |ts|) ==> SentOf(ts, o'.sim.orders) == ts)
  {
    hide Lodged, SentOf, SubmittedAll;
    AllLodged(cfg, limits, mode, o, ts, clock, firstId);
    if Roomy(limits, o, |ts|) {
      UnlimitedAreSent(cfg, limits, mode, o, ts, clock, firstId);
    }
  }

  class ExecutorAgent {
    const oms: OMS
    const maxChildQty: real

    constructor (oms: OMS, maxChildQty: real)
      ensures this.oms == oms && this.maxChildQty == maxChildQty
    {
      this.oms, this.maxChildQty := oms, maxChildQty;
    }

    /** The planning loop; nothing is sent before it is through. */
    method Collect(targets: seq<Target>, marks: map<string, real>, equity: real, positions: map<string, Position>,
                   firstId: Id, ghost b: Book, ghost cells: set<Position>) returns (r: Result<seq<Ticket>>)
      requires maxChildQty > 0.0 && Mirrors(positions, b, cells)
      ensures r == if ZeroMark(targets, marks) then Err(DivisionByZero)
                   else Ok(Tickets(targets, marks, equity, b, oms.broker.mode, maxChildQty, firstId))
    {
      hide Slices, Quot, Children;
      var ts: seq<Ticket> := [];
      for i := 0 to |targets|
        invariant !ZeroMark(targets[..i], marks)
        invariant ts == Tickets(targets[..i], marks, equity, b, oms.broker.mode, maxChildQty, firstId)
      {
        assert targets[..i + 1][..i] == targets[..i];
        var t := targets[i];
        if t.key !in marks {
          continue;
        }
        if marks[t.key] == 0.0 {
          return Err(DivisionByZero);
        }
        var targetQty := TargetQty(t, marks[t.key], equity);
        var curQty := if t.key in positions then positions[t.key].qty else 0.0;
        var delta := targetQty - curQty;
        if Abs(delta) < 1.0 || t.key !in positions {
          continue;
        }
        var qtys := Split(Abs(delta), maxChildQty);
        ts := ts + Children(positions[t.key].instrument, delta, qtys, oms.broker.mode, firstId + |ts|);
      }
      assert targets[..|targets|] == targets;
      return Ok(ts);
    }

    /** `clock` gives the time of each child's risk check; uuids from `firstId` on are unused. */
    method Reconcile(plan: Plan, marks: map<string, real>, equity: real, positions: map<string, Position>,
                     firstId: Id, clock: nat -> real, ghost b: Book, ghost cells: set<Position>)
      returns (r: Result<seq<Order>>)
      requires oms.Valid() && maxChildQty > 0.0 && Mirrors(positions, b, cells)
      requires forall id :: id in oms.orders ==> id < firstId
      modifies oms`orders, oms`state, oms.risk`orderTimes
      modifies oms.broker`pending, oms.broker`brokerIds, oms.broker`known, oms.broker`objects, oms.broker`state
      ensures oms.Valid()
      ensures plan.mode != "weights" ==> r == Err(UnsupportedMode)
      ensures r == Err(DivisionByZero) <==>
                plan.mode == "weights" && exists t :: t in plan.targets && t.key in marks && marks[t.key] == 0.0
      ensures r.Err? ==> oms.state == old(oms.state)
      ensures r.Ok? ==>
                var ts := Tickets(plan.targets, marks, equity, b, oms.broker.mode, maxChildQty, firstId);
                && plan.mode == "weights" && |r.value| == |ts| && (forall i :: 0 <= i < |ts| ==> r.value[i].ticket == ts[i])
                && oms.state == SubmittedAll(oms.broker.config, oms.risk.limits, oms.broker.mode, old(oms.state), ts, clock)
                && Lodged(oms.broker.config, old(oms.state), ts, oms.state)
                && forall i :: 0 <= i < |ts| ==> ts[i].id in oms.orders && oms.orders[ts[i].id] == r.value[i]
      ensures r.Ok? && Roomy(oms.risk.limits, old(oms.state), |r.value|) ==>
                SentOf(Tickets(plan.targets, marks, equity, b, oms.broker.mode, maxChildQty, firstId), oms.state.sim.orders)
                == Tickets(plan.targets, marks, equity, b, oms.broker.mode, maxChildQty, firstId)
    {
      hide Lodged, SentOf, Tickets, SubmittedAll, OMS.Valid, Roomy, IsChild;
      if plan.mode != "weights" {
        return Err(UnsupportedMode);
      }
      var collected := Collect(plan.targets, marks, equity, positions, firstId, b, cells);
      if collected.Err? {
        return Err(collected.refusal);
      }
      TicketIds(plan.targets, marks, equity, b, oms.broker.mode, maxChildQty, firstId);
      TicketsAreChildren(plan.targets, marks, equity, b, oms.broker.mode, maxChildQty, firstId);
      oms.OrdersAreOnFile();
      ChildrenAreLodged(oms.broker.config, oms.risk.limits, oms.broker.mode, oms.state, collected.value, clock, firstId, b,
                        maxChildQty);
      var orders := SubmitAll(collected.value, firstId, clock);
      return Ok(orders);
    }

    method SubmitChild(t: Ticket, now: real) returns (order: Order)
      requires oms.Valid() && t.id !in oms.orders
      modifies oms`orders, oms`state, oms.risk`orderTimes
      modifies oms.broker`pending, oms.broker`brokerIds, oms.broker`known, oms.broker`objects, oms.broker`state
      ensures oms.Valid() && order.ticket == t && oms.orders == old(oms.orders)[t.id := order]
      ensures oms.state
           == Submitted(oms.broker.config, oms.risk.limits, oms.broker.mode, old(oms.state), NewOrder(t), now)
    {
      hide Submitted;
      order := new Order(t);
      oms.Submit(order, now);
    }

    method SubmitAll(ts: seq<Ticket>, firstId: Id, clock: nat -> real) returns (orders: seq<Order>)
      requires oms.Valid() && forall id :: id in oms.orders ==> id < firstId
      requires Numbered(ts, firstId)
      modifies oms`orders, oms`state, oms.risk`orderTimes
      modifies oms.broker`pending, oms.broker`brokerIds, oms.broker`known, oms.broker`objects, oms.broker`state
      ensures oms.Valid() && |orders| == |ts|
      ensures forall i :: 0 <= i < |ts| ==>
                orders[i].ticket == ts[i] && ts[i].id in oms.orders && oms.orders[ts[i].id] == orders[i]
      ensures oms.state == SubmittedAll(oms.broker.config, oms.risk.limits, oms.broker.mode, old(oms.state), ts, clock)
    {
      hide Submitted, OMS.Valid;
      orders := [];
      for i := 0 to |ts|
        invariant oms.Valid() && forall id :: id in oms.orders ==> id < firstId + i
        invariant |orders| == i
        invariant forall j :: 0 <= j < i ==>
                    orders[j].ticket == ts[j] && ts[j].id in oms.orders && oms.orders[ts[j].id] == orders[j]
        invariant oms.state
               == SubmittedAll(oms.broker.config, oms.risk.limits, oms.broker.mode, old(oms.state), ts[..i], clock)
      {
        assert ts[..i + 1][..i] == ts[..i];
        var order := SubmitChild(ts[i], clock(i));
        orders := orders + [order];
      }
      assert ts[..|ts|] == ts;
    }
  }

  lemma {:induction false} TicketIds(targets: seq<Target>, marks: map<string, real>, equity: real, b: Book, mode: string,
                                     chunk: real, firstId: Id)
    requires chunk > 0.0
    ensures Numbered(Tickets(targets, marks, equity, b, mode, chunk, firstId), firstId)
  {
    hide Slices, Move;
    if targets != [] {
      var n := |targets| - 1;
      TicketIds(targets[..n], marks, equity, b, mode, chunk, firstId);
    }
  }

  /** Consecutive uuids. */
  predicate Numbered(ts: seq<Ticket>, firstId: Id) {
    forall i :: 0 <= i < |ts| ==> ts[i].id == firstId + i
  }
}
