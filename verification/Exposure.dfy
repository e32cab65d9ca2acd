/** The per-symbol limit of the risk engine: exactly when it bounds the position, with any number of
    orders in flight. The gate looks at filled quantities only (gates.py:62-69), so that is a matter
    of what is still to come. */
module Exposure {
  import opened Core
  import opened Totals
  import opened Positions
  import opened Ledgers
  import opened SimModel
  import opened Risk
  import opened OmsModel
  import opened KillSwitch
  import opened LimitQueue

  /** An OMS, and the orders that some broker is still working. */
  datatype Desk = Desk(oms: OmsState, live: set<Id>)

  /** What is left of the live orders of one side on one instrument, order by order. */
  function ComingOf(orders: Orders, live: set<Id>, key: string, side: Side): map<Id, real> {
    map id | id in live && id in orders && orders[id].ticket.instrument.key == key && orders[id].ticket.side == side
      :: orders[id].Remaining()
  }

  /** What is still to come. */
  function Coming(d: Desk, key: string, side: Side): map<Id, real> {
    ComingOf(d.oms.sim.orders, d.live, key, side)
  }

  function Quantity(d: Desk, key: string): real {
    QtyAt(d.oms.positions, key)
  }

  /** Within the limit if everything still to be bought is bought, and if everything still to be sold
      is sold. A caller can compute this before submitting. */
  ghost predicate Room(max: real, d: Desk, key: string) {
    && Quantity(d, key) + Total(Coming(d, key, Buy)) <= max
    && -max <= Quantity(d, key) - Total(Coming(d, key, Sell))
  }

  /** Live orders are on file and not overfilled. */
  predicate Kept(d: Desk) {
    forall id :: id in d.live ==>
      id in d.oms.sim.orders && d.oms.sim.orders[id].ticket.id == id && d.oms.sim.orders[id].Remaining() >= 0.0
  }

  /** An honest fill: of a live order, on its instrument and side, positive, and no more than is left
      of it; at any price and fee. */
  predicate Honest(d: Desk, f: Fill) {
    && f.orderId in d.live && f.orderId in d.oms.sim.orders
    && var r := d.oms.sim.orders[f.orderId];
       f.instrument == r.ticket.instrument && f.side == r.ticket.side && 0.0 < f.qty <= r.Remaining()
  }

  ghost function Booked(d: Desk, fills: seq<Fill>): Desk {
    d.(oms := FilledOmsAll(d.oms, fills))
  }

  ghost predicate HonestAll(d: Desk, fills: seq<Fill>) {
    fills != [] ==> HonestAll(d, fills[..|fills| - 1]) && Honest(Booked(d, fills[..|fills| - 1]), fills[|fills| - 1])
  }

  predicate Matches(t: Ticket, key: string, side: Side) {
    t.instrument.key == key && t.side == side
  }

  /** A live order's record changes, but not its ticket. */
  lemma RecordComes(orders: Orders, live: set<Id>, id: Id, r: OrderRec, key: string, side: Side)
    requires id in live && id in orders && r.ticket == orders[id].ticket
    ensures Total(ComingOf(orders[id := r], live, key, side)) ==
            Total(ComingOf(orders, live, key, side)) +
              if Matches(r.ticket, key, side) then r.Remaining() - orders[id].Remaining() else 0.0
  {
    hide Total;
    var coming, coming' := ComingOf(orders, live, key, side), ComingOf(orders[id := r], live, key, side);
    if Matches(r.ticket, key, side) {
      assert coming' == coming[id := r.Remaining()];
      TotalUpdate(coming, id, r.Remaining());
    } else {
      assert coming' == coming;
    }
  }

  /** A new order is filed, and is live or not. */
  lemma OrderComes(orders: Orders, live: set<Id>, id: Id, r: OrderRec, joins: bool, key: string, side: Side)
    requires id !in live && id !in orders
    ensures Total(ComingOf(orders[id := r], if joins then live + {id} else live, key, side)) ==
            Total(ComingOf(orders, live, key, side)) + if joins && Matches(r.ticket, key, side) then r.Remaining() else 0.0
  {
    hide Total;
    var coming := ComingOf(orders, live, key, side);
    var coming' := ComingOf(orders[id := r], if joins then live + {id} else live, key, side);
    if joins && Matches(r.ticket, key, side) {
      assert coming' == coming[id := r.Remaining()];
      TotalUpdate(coming, id, r.Remaining());
    } else {
      assert coming' == coming;
    }
  }

  // ---- One fill ----

  /** A fill moves its quantity from what is to come to what is held. */
  lemma FillMoves(d: Desk, f: Fill, key: string, side: Side)
    requires Kept(d) && Honest(d, f)
    ensures var d' := d.(oms := FilledOms(d.oms, f));
            && Kept(d')
            && Quantity(d', key) == Quantity(d, key) + (if f.instrument.key == key then f.Signed() else 0.0)
            && Total(Coming(d', key, side)) ==
                 Total(Coming(d, key, side)) - if f.instrument.key == key && f.side == side then f.qty else 0.0
  {
    hide Total, RunningAverage, ComingOf;
    var orders, id := d.oms.sim.orders, f.orderId;
    RecordComes(orders, d.live, id, Executed(orders[id], f), key, side);
  }

  lemma {:induction false} FillsKeepRoom(max: real, d: Desk, fills: seq<Fill>, key: string)
    requires Kept(d) && Room(max, d, key) && HonestAll(d, fills)
    ensures Kept(Booked(d, fills)) && Room(max, Booked(d, fills), key)
  {
    hide FilledOms, Quantity, Coming, Total, Kept, Honest;
    if fills != [] {
      var n := |fills| - 1;
      FillsKeepRoom(max, d, fills[..n], key);
      FillKeepsRoom(max, Booked(d, fills[..n]), fills[n], key);
    }
  }

  lemma FillKeepsRoom(max: real, d: Desk, f: Fill, key: string)
    requires Kept(d) && Room(max, d, key) && Honest(d, f)
    ensures var d' := d.(oms := FilledOms(d.oms, f));
            Kept(d') && Room(max, d', key)
  {
    hide FilledOms, Quantity, Coming, Total;
    FillMoves(d, f, key, Buy);
    FillMoves(d, f, key, Sell);
  }

  lemma ComingNotNegative(d: Desk, key: string, side: Side)
    requires Kept(d)
    ensures Total(Coming(d, key, side)) >= 0.0
  {
    TotalNotNegative(Coming(d, key, side));
  }

  lemma RoomIsWithin(max: real, d: Desk, key: string)
    requires Kept(d) && Room(max, d, key)
    ensures Abs(Quantity(d, key)) <= max
  {
    ComingNotNegative(d, key, Buy);
    ComingNotNegative(d, key, Sell);
  }

  // ---- The worst that honest fills can do ----

  /** What is left of some of the orders. */
  function Left(orders: Orders, ids: set<Id>): map<Id, real> {
    map id | id in ids && id in orders :: orders[id].Remaining()
  }

  function RestOf(r: OrderRec): Fill {
    Fill(r.ticket.id, r.ticket.instrument, r.ticket.side, r.Remaining(), 0.0, 0.0)
  }

  /** A broker may fill any of the live orders of one side to their ends, and nothing else. */
  lemma {:induction false} SomeFillTheRest(d: Desk, key: string, side: Side, ids: set<Id>) returns (fills: seq<Fill>)
    requires Kept(d) && ids <= Coming(d, key, side).Keys
    ensures HonestAll(d, fills)
    ensures Quantity(Booked(d, fills), key) == Quantity(d, key) + SignedQty(side, Total(Left(d.oms.sim.orders, ids)))
    ensures var orders, orders' := d.oms.sim.orders, Booked(d, fills).oms.sim.orders;
            Kept(Booked(d, fills)) && forall id :: id in orders && id !in ids ==> id in orders' && orders'[id] == orders[id]
    decreases |ids|
  {
    hide Quantity, Total, FilledOms, Executed;
    if ids == {} {
      fills := [];
      NothingLeft(d.oms.sim.orders);
    } else {
      var x :| x in ids;
      var before := SomeFillTheRest(d, key, side, ids - {x});
      LeftRemove(d.oms.sim.orders, ids, x);
      var r := Booked(d, before).oms.sim.orders[x];
      if r.Remaining() == 0.0 {
        fills := before;
      } else {
        fills := before + [RestOf(r)];
        AppendRest(d, before, r, key, side, x);
      }
    }
  }

  lemma NothingLeft(orders: Orders)
    ensures Total(Left(orders, {})) == 0.0
  {
  }

  lemma LeftRemove(orders: Orders, ids: set<Id>, x: Id)
    requires x in ids && x in orders
    ensures Total(Left(orders, ids)) == orders[x].Remaining() + Total(Left(orders, ids - {x}))
  {
    TotalRemove(Left(orders, ids), x);
    assert Left(orders, ids) - {x} == Left(orders, ids - {x});
  }

  lemma AppendRest(d: Desk, before: seq<Fill>, r: OrderRec, key: string, side: Side, x: Id)
    requires Kept(Booked(d, before)) && HonestAll(d, before)
    requires x in d.live && x in Booked(d, before).oms.sim.orders && r == Booked(d, before).oms.sim.orders[x]
    requires r.ticket.instrument.key == key && r.ticket.side == side && r.Remaining() > 0.0
    ensures var fills := before + [RestOf(r)];
            && HonestAll(d, fills) && Kept(Booked(d, fills))
            && Quantity(Booked(d, fills), key) == Quantity(Booked(d, before), key) + SignedQty(side, r.Remaining())
            && (forall id :: id in Booked(d, before).oms.sim.orders && id != x ==>
                  id in Booked(d, fills).oms.sim.orders
                  && Booked(d, fills).oms.sim.orders[id] == Booked(d, before).oms.sim.orders[id])
  {
    hide Quantity, Total, Coming, Executed;
    var f := RestOf(r);
    assert (before + [f])[..|before|] == before;
    FillMoves(Booked(d, before), f, key, side);
  }

  /** The worst case of one side is reached. */
  lemma WorstCase(d: Desk, key: string, side: Side) returns (fills: seq<Fill>)
    requires Kept(d)
    ensures HonestAll(d, fills)
    ensures Quantity(Booked(d, fills), key) == Quantity(d, key) + SignedQty(side, Total(Coming(d, key, side)))
  {
    var coming := Coming(d, key, side);
    fills := SomeFillTheRest(d, key, side, coming.Keys);
    assert Left(d.oms.sim.orders, coming.Keys) == coming;
  }

  /** Exactly when the limit is safe: whatever honest fills the live orders get, in any number,
      order, size and price, the position stays within the limit if and only if there is room for
      everything still to come on either side. */
  lemma SafeIffRoom(max: real, d: Desk, key: string)
    requires Kept(d)
    ensures (forall fills :: HonestAll(d, fills) ==> Abs(Quantity(Booked(d, fills), key)) <= max) <==> Room(max, d, key)
  {
    hide Quantity, Coming, Total, HonestAll, Booked;
    if Room(max, d, key) {
      forall fills | HonestAll(d, fills)
        ensures Abs(Quantity(Booked(d, fills), key)) <= max
      {
        FillsKeepRoom(max, d, fills, key);
        RoomIsWithin(max, Booked(d, fills), key);
      }
    }
    var buys := WorstCase(d, key, Buy);
    var sells := WorstCase(d, key, Sell);
  }

  // ---- Runs ----

  /** Submitting through the OMS; a fill reaching it; and a live order ending unfilled, whyever. */
  datatype DeskEvent = Send(t: Ticket, now: real) | Trade(f: Fill) | End(id: Id)

  ghost function Moved(cfg: SimConfig, limits: RiskLimits, mode: string, d: Desk, e: DeskEvent): Desk {
    match e
    case Send(t, now) =>
      Desk(Submitted(cfg, limits, mode, d.oms, NewOrder(t), now), if Sent(limits, mode, d, e) then d.live + {t.id} else d.live)
    case Trade(f) => d.(oms := FilledOms(d.oms, f))
    case End(id) => d.(live := d.live - {id})
  }

  /** The risk engine lets the order pass, so it reaches the broker. */
  predicate Sent(limits: RiskLimits, mode: string, d: Desk, e: DeskEvent) {
    e.Send? && VerdictOn(limits, mode, d.oms, e.t, e.now) == Passed
  }

  ghost function MovedAll(cfg: SimConfig, limits: RiskLimits, mode: string, d: Desk, es: seq<DeskEvent>): Desk {
    if es == [] then d else Moved(cfg, limits, mode, MovedAll(cfg, limits, mode, d, es[..|es| - 1]), es[|es| - 1])
  }

  /** Submitted orders are new, and fills are honest. */
  predicate Proper(d: Desk, e: DeskEvent) {
    match e
    case Send(t, _) => t.id !in d.oms.sim.orders
    case Trade(f) => Honest(d, f)
    case End(_) => true
  }

  ghost predicate ProperAll(cfg: SimConfig, limits: RiskLimits, mode: string, d: Desk, es: seq<DeskEvent>) {
    es != [] ==>
      var n := |es| - 1;
      ProperAll(cfg, limits, mode, d, es[..n]) && Proper(MovedAll(cfg, limits, mode, d, es[..n]), es[n])
  }

  /** There is room for the order too: what a caller would have to check, and the gate does not. */
  ghost predicate Fits(max: real, d: Desk, t: Ticket) {
    var key := t.instrument.key;
    if t.side.Buy? then Quantity(d, key) + Total(Coming(d, key, Buy)) + t.qty <= max
    else -max <= Quantity(d, key) - Total(Coming(d, key, Sell)) - t.qty
  }

  /** Every order of the run that reaches the broker on this instrument fits when it is submitted. */
  ghost predicate AllFit(cfg: SimConfig, limits: RiskLimits, mode: string, max: real, d: Desk, es: seq<DeskEvent>, key: string) {
    es != [] ==>
      var n := |es| - 1;
      var before := MovedAll(cfg, limits, mode, d, es[..n]);
      && AllFit(cfg, limits, mode, max, d, es[..n], key)
      && (Sent(limits, mode, before, es[n]) && es[n].t.instrument.key == key ==> Fits(max, before, es[n].t))
  }

  lemma SendFiles(cfg: SimConfig, limits: RiskLimits, mode: string, d: Desk, t: Ticket, now: real)
    ensures var d' := Moved(cfg, limits, mode, d, Send(t, now));
            && d'.oms.positions == d.oms.positions && t.id in d'.oms.sim.orders
            && d'.live == (if Sent(limits, mode, d, Send(t, now)) then d.live + {t.id} else d.live)
            && var r := d'.oms.sim.orders[t.id];
               r.ticket == t && r.filledQty == 0.0 && d'.oms.sim.orders == d.oms.sim.orders[t.id := r]
  {
    hide Judged, Checked;
  }

  /** A sent order joins what is to come. */
  lemma SendComes(cfg: SimConfig, limits: RiskLimits, mode: string, d: Desk, t: Ticket, now: real, key: string, side: Side)
    requires Kept(d) && t.id !in d.oms.sim.orders
    ensures var d' := Moved(cfg, limits, mode, d, Send(t, now));
            && Kept(d') && Quantity(d', key) == Quantity(d, key)
            && Total(Coming(d', key, side)) == Total(Coming(d, key, side)) +
                 if Sent(limits, mode, d, Send(t, now)) && Matches(t, key, side) then t.qty else 0.0
  {
    hide Moved, Sent, Total, ComingOf;
    SendFiles(cfg, limits, mode, d, t, now);
    var r := Moved(cfg, limits, mode, d, Send(t, now)).oms.sim.orders[t.id];
    OrderComes(d.oms.sim.orders, d.live, t.id, r, Sent(limits, mode, d, Send(t, now)), key, side);
  }

  lemma EndLeaves(d: Desk, id: Id, key: string, side: Side)
    requires Kept(d)
    ensures Total(Coming(d.(live := d.live - {id}), key, side)) <= Total(Coming(d, key, side))
  {
    var coming, coming' := Coming(d, key, side), Coming(d.(live := d.live - {id}), key, side);
    if id in coming {
      TotalRemove(coming, id);
      assert coming' == coming - {id};
    } else {
      assert coming' == coming;
    }
  }

  /** The one step that can use up room is sending an order, and it leaves room if and only if the
      order fits. */
  lemma StepKeepsRoomIff(cfg: SimConfig, limits: RiskLimits, mode: string, max: real, d: Desk, e: DeskEvent, key: string)
    requires Kept(d) && Room(max, d, key) && Proper(d, e)
    ensures var d' := Moved(cfg, limits, mode, d, e);
            && Kept(d')
            && (Room(max, d', key) <==> (Sent(limits, mode, d, e) && e.t.instrument.key == key ==> Fits(max, d, e.t)))
  {
    hide Total, FilledOms, Submitted, Coming;
    match e
    case Send(t, now) =>
      SendComes(cfg, limits, mode, d, t, now, key, Buy);
      SendComes(cfg, limits, mode, d, t, now, key, Sell);
    case Trade(f) =>
      FillKeepsRoom(max, d, f, key);
    case End(id) =>
      EndLeaves(d, id, key, Buy);
      EndLeaves(d, id, key, Sell);
  }

  /** Room in every state of a run, hence a position within the limit whatever happens next, if and
      only if each order fits when it is submitted. */
  lemma {:induction false} RoomThroughoutIff(cfg: SimConfig, limits: RiskLimits, mode: string, max: real, d: Desk,
                                             es: seq<DeskEvent>, key: string)
    requires Kept(d) && Room(max, d, key) && ProperAll(cfg, limits, mode, d, es)
    ensures AllFit(cfg, limits, mode, max, d, es, key) ==> Kept(MovedAll(cfg, limits, mode, d, es))
    ensures RoomThroughout(cfg, limits, mode, max, d, es, key) <==> AllFit(cfg, limits, mode, max, d, es, key)
  {
    hide Kept, Room, Moved, Fits, Sent, Proper;
    if es != [] {
      var n := |es| - 1;
      RoomThroughoutIff(cfg, limits, mode, max, d, es[..n], key);
      if RoomThroughout(cfg, limits, mode, max, d, es[..n], key) {
        RoomAtEnd(cfg, limits, mode, max, d, es[..n], key);
        StepKeepsRoomIff(cfg, limits, mode, max, MovedAll(cfg, limits, mode, d, es[..n]), es[n], key);
      }
    }
  }

  ghost predicate RoomThroughout(cfg: SimConfig, limits: RiskLimits, mode: string, max: real, d: Desk, es: seq<DeskEvent>,
                                 key: string)
  {
    && Room(max, MovedAll(cfg, limits, mode, d, es), key)
    && (es != [] ==> RoomThroughout(cfg, limits, mode, max, d, es[..|es| - 1], key))
  }

  lemma RoomAtEnd(cfg: SimConfig, limits: RiskLimits, mode: string, max: real, d: Desk, es: seq<DeskEvent>, key: string)
    requires RoomThroughout(cfg, limits, mode, max, d, es, key)
    ensures Room(max, MovedAll(cfg, limits, mode, d, es), key)
  {
  }

  // ---- One order at a time ----

  /** Nothing is still to come on the instrument. */
  ghost predicate Idle(d: Desk, key: string) {
    Total(Coming(d, key, Buy)) == 0.0 && Total(Coming(d, key, Sell)) == 0.0
  }

  /** Every order that reaches the broker is submitted when its instrument is idle. */
  ghost predicate OneAtATime(cfg: SimConfig, limits: RiskLimits, mode: string, d: Desk, es: seq<DeskEvent>, key: string) {
    es != [] ==>
      var n := |es| - 1;
      var before := MovedAll(cfg, limits, mode, d, es[..n]);
      && OneAtATime(cfg, limits, mode, d, es[..n], key)
      && (Sent(limits, mode, before, es[n]) && es[n].t.instrument.key == key ==> Idle(before, key))
  }

  /** Then passing the gate is fitting. */
  lemma GateSufficesWhenIdle(limits: RiskLimits, mode: string, d: Desk, e: DeskEvent)
    requires limits.maxQtyPerSymbol.Some? && Sent(limits, mode, d, e) && Idle(d, e.t.instrument.key)
    ensures Fits(limits.maxQtyPerSymbol.value, d, e.t)
  {
    hide Coming, Total, Recent;
  }

  lemma {:induction false} OneAtATimeFits(cfg: SimConfig, limits: RiskLimits, mode: string, d: Desk, es: seq<DeskEvent>,
                                          key: string)
    requires limits.maxQtyPerSymbol.Some? && OneAtATime(cfg, limits, mode, d, es, key)
    ensures AllFit(cfg, limits, mode, limits.maxQtyPerSymbol.value, d, es, key)
  {
    hide Fits, Idle, Moved, Judged;
    if es != [] {
      var n := |es| - 1;
      OneAtATimeFits(cfg, limits, mode, d, es[..n], key);
      var before := MovedAll(cfg, limits, mode, d, es[..n]);
      if Sent(limits, mode, before, es[n]) && es[n].t.instrument.key == key {
        GateSufficesWhenIdle(limits, mode, before, es[n]);
      }
    }
  }

  /** So with at most one order at a time on an instrument, the risk engine's gate keeps a position
      that starts within the limit within it for good: between partial fills, through flips, and
      whatever honest fills come next. */
  lemma ExposureBound(cfg: SimConfig, limits: RiskLimits, mode: string, d: Desk, es: seq<DeskEvent>, key: string)
    requires limits.maxQtyPerSymbol.Some? && Kept(d) && Idle(d, key)
    requires Abs(Quantity(d, key)) <= limits.maxQtyPerSymbol.value
    requires ProperAll(cfg, limits, mode, d, es) && OneAtATime(cfg, limits, mode, d, es, key)
    ensures var d' := MovedAll(cfg, limits, mode, d, es);
            && Abs(Quantity(d', key)) <= limits.maxQtyPerSymbol.value
            && forall fills :: HonestAll(d', fills) ==> Abs(Quantity(Booked(d', fills), key)) <= limits.maxQtyPerSymbol.value
  {
    hide Total, Coming, MovedAll, AllFit, HonestAll, Kept, Booked, Quantity;
    var max := limits.maxQtyPerSymbol.value;
    OneAtATimeFits(cfg, limits, mode, d, es, key);
    RoomThroughoutIff(cfg, limits, mode, max, d, es, key);
    RoomAtEnd(cfg, limits, mode, max, d, es, key);
    RoomIsWithin(max, MovedAll(cfg, limits, mode, d, es), key);
    SafeIffRoom(max, MovedAll(cfg, limits, mode, d, es), key);
  }

  // ---- Two orders at a time ----

  const LIMITS := RiskLimits(Some(100.0), None, 60, None)

  function Sixty(id: Id, i: Instrument, mode: string): Ticket {
    Ticket(id, i, Buy, 60.0, Limit, Some(1.0), None, mode)
  }

  /** Two orders of 60, submitted before either has filled, and a price that fills both. */
  function TwoOrders(i: Instrument, mode: string): seq<HostEvent> {
    [Submit(Sixty(0, i, mode), 0.0), Submit(Sixty(1, i, mode), 1.0), Push(Quote(i, None, None, Some(1.0)))]
  }

  lemma SixtyPasses(limits: RiskLimits, mode: string, o: OmsState, t: Ticket, now: real)
    requires limits == LIMITS && o.positions == map[] && |o.risk.orderTimes| < 60
    requires t.mode == mode && t.side.Buy? && t.qty == 60.0
    ensures VerdictOn(limits, mode, o, t, now) == Passed
  {
    hide Recent;
    RecentIsShorter(o.risk.orderTimes, now - 60.0);
  }

  lemma BothPass(cfg: SimConfig, i: Instrument, mode: string)
    ensures var o := HostedAll(cfg, LIMITS, mode, NewOms(cfg), TwoOrders(i, mode)[..2]);
            o.positions == map[] && Queued(cfg, o.sim, [Sixty(0, i, mode), Sixty(1, i, mode)])
  {
    hide Submitted, VerdictOn, Queued;
    var es, o, t, u := TwoOrders(i, mode), NewOms(cfg), Sixty(0, i, mode), Sixty(1, i, mode);
    NothingQueued(cfg);
    var o1 := Submitted(cfg, LIMITS, mode, o, NewOrder(t), 0.0);
    SixtyPasses(LIMITS, mode, o, t, 0.0);
    SubmitQueues(cfg, LIMITS, mode, o, [], t, 0.0);
    assert [] + [t] == [t];
    SixtyPasses(LIMITS, mode, o1, u, 1.0);
    SubmitQueues(cfg, LIMITS, mode, o1, [t], u, 1.0);
    assert [t] + [u] == [t, u];
    assert es[..2][..1] == es[..1] && es[..1][..0] == [] && es[..2][1] == es[1] && es[..1][0] == es[0];
    assert HostedAll(cfg, LIMITS, mode, o, es[..1][..0]) == o;
    assert HostedAll(cfg, LIMITS, mode, o, es[..1]) == o1;
  }

  lemma NothingQueued(cfg: SimConfig)
    ensures Queued(cfg, NewSim(cfg), [])
  {
  }

  lemma BothHit(cfg: SimConfig, i: Instrument, mode: string)
    ensures var ts := [Sixty(0, i, mode), Sixty(1, i, mode)];
            Hits(cfg, ts, i.key, 1.0) == [LimitFill(cfg, ts[0]), LimitFill(cfg, ts[1])]
  {
    var ts := [Sixty(0, i, mode), Sixty(1, i, mode)];
    assert ts[..1] == [ts[0]];
    OneHit(cfg, ts[0], i.key, 1.0);
  }

  /** The gate does not check what fits: two orders of 60 that the risk engine passes under a limit of
      100 end, on the simulated broker and from nothing, at a position of 120. */
  lemma TwoLiveOrdersBreach(cfg: SimConfig, i: Instrument, mode: string)
    requires cfg.maxQtyPerBar.None? && cfg.latencyBars <= 0
    ensures QtyAt(HostedAll(cfg, LIMITS, mode, NewOms(cfg), TwoOrders(i, mode)).positions, i.key) == 120.0
  {
    hide Hosted, Hits, Queued, Traded;
    var es, ts := TwoOrders(i, mode), [Sixty(0, i, mode), Sixty(1, i, mode)];
    var o := HostedAll(cfg, LIMITS, mode, NewOms(cfg), es[..2]);
    BothPass(cfg, i, mode);
    BothHit(cfg, i, mode);
    PushBooks(cfg, LIMITS, mode, o, es[2].q, 1.0, ts);
    var fills := [LimitFill(cfg, ts[0]), LimitFill(cfg, ts[1])];
    QtyMoves(o.positions, fills, i.key);
    assert fills[..1] == [fills[0]] && fills[..1][..0] == [];
    assert TradedOn(fills[..1], i.key) == 60.0;
  }
}
