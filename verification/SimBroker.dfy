/** src/tradingplatform/brokers/sim.py: the in-process broker, loop and heap and all, proved to
    follow the state machine of SimModel. */
module SimBroker {
  import opened Core
  import opened Positions
  import opened Ledgers
  import opened SimModel

  /** The order part of booking a fill, on the shared order object. */
  method Execute(order: Order, f: Fill)
    modifies order
    ensures order.Record() == Executed(old(order.Record()), f)
  {
    var newFilled := order.filledQty + f.qty;
    if order.avgFillPrice.None? {
      order.avgFillPrice := Some(f.price);
    } else {
      order.avgFillPrice := Some(RunningAverage(order.avgFillPrice.value, order.filledQty, f));
    }
    order.filledQty := newFilled;
    order.status := if order.ticket.qty - order.filledQty == 0.0 then Filled else PartiallyFilled;
  }

  method MarkSent(order: Order, brokerId: Id)
    modifies order
    ensures order.Record() == old(order.Record()).(brokerOrderId := Some(brokerId), status := Sent)
  {
    order.brokerOrderId := Some(brokerId);
    order.status := Sent;
  }

  class SimBroker {
    const config: SimConfig
    const mode: string
    /** Order objects by uuid: the references that the queue's entries stand for. */
    var known: map<Id, Order>
    var pending: seq<Pend>
    var positions: map<string, Position>
    var cash: map<string, real>
    var fillQueue: seq<Fill>
    var brokerIds: nat
    ghost var objects: set<Order>
    ghost var cells: set<Position>
    ghost var state: SimState

    constructor (config: SimConfig, mode: string)
      ensures Valid() && this.config == config && this.mode == mode
      ensures state == NewSim(config) && known == map[] && objects == {} && cells == {}
    {
      this.config, this.mode := config, mode;
      known, pending, positions, fillQueue, brokerIds := map[], [], map[], [], 0;
      cash := map[config.baseCurrency := config.startingCash];
      objects, cells, state := {}, {}, NewSim(config);
    }

    /** The fields hold the abstract state. */
    ghost predicate Valid()
      reads this, cells, objects
    {
      && Records(known, state.orders, objects) && Known(state.orders, state.pending) && Mirrors(positions, state.positions, cells)
      && pending == state.pending && cash == state.cash && fillQueue == state.queue && brokerIds == state.brokerIds
    }

    /** The end of accepting an order: it becomes known and joins the queue. */
    method Enqueue(order: Order, ghost s: SimState)
      requires Records(known[order.ticket.id := order], s.orders, objects + {order}) && Mirrors(positions, s.positions, cells)
      requires s.pending == pending + [Pend(order.ticket.id, config.latencyBars)] && Known(s.orders, s.pending)
      requires cash == s.cash && fillQueue == s.queue && brokerIds + 1 == s.brokerIds
      modifies this`pending, this`brokerIds, this`known, this`objects, this`state
      ensures Valid() && state == s && known == old(known)[order.ticket.id := order] && objects == old(objects) + {order}
      ensures order.brokerOrderId == old(order.brokerOrderId) && order.status == old(order.status)
    {
      known, objects := known[order.ticket.id := order], objects + {order};
      pending := pending + [Pend(order.ticket.id, config.latencyBars)];
      brokerIds := brokerIds + 1;
      state := s;
    }

    /** An order object enters the process without reaching the queue. */
    method Meet(order: Order, ghost s: SimState)
      requires Mirrors(positions, s.positions, cells) && Records(known[order.ticket.id := order], s.orders, objects + {order})
      requires Known(s.orders, pending) && s == state.(orders := s.orders) && pending == state.pending
      requires cash == state.cash && fillQueue == state.queue && brokerIds == state.brokerIds
      modifies this`known, this`objects, this`state
      ensures Valid() && state == s && known == old(known)[order.ticket.id := order] && objects == old(objects) + {order}
    {
      known, objects := known[order.ticket.id := order], objects + {order};
      state := s;
    }

    /** Refuses an order of another mode, leaving everything as it was. */
    method PlaceOrder(order: Order) returns (brokerId: Option<Id>)
      requires Valid() && (order.ticket.id in known ==> known[order.ticket.id] == order)
      modifies this`pending, this`brokerIds, this`known, this`objects, this`state, order
      ensures Valid()
      ensures order.ticket.mode != mode ==> brokerId == None && unchanged(this, order)
      ensures order.ticket.mode == mode ==>
                && brokerId == Some(old(brokerIds)) && state == Placed(config, old(state), old(order.Record()))
                && known == old(known)[order.ticket.id := order] && objects == old(objects) + {order}
                && order.brokerOrderId == brokerId && order.status == Sent
    {
      if order.ticket.mode != mode {
        return None;
      }
      ghost var s := Placed(config, state, order.Record());
      MarkSent(order, brokerIds);
      Enqueue(order, s);
      brokerId := order.brokerOrderId;
    }

    method CancelOrder(brokerId: Id)
      requires Valid()
      modifies this`pending, this`state
      ensures Valid() && state == Unqueued(old(state), brokerId)
    {
      var kept: seq<Pend> := [];
      for i := 0 to |pending|
        modifies {}
        invariant kept == Without(pending[..i], state.orders, brokerId)
      {
        assert pending[..i + 1][..i] == pending[..i];
        if known[pending[i].id].brokerOrderId != Some(brokerId) {
          kept := kept + [pending[i]];
        }
      }
      assert pending[..|pending|] == pending;
      pending := kept;
      state := Unqueued(state, brokerId);
    }

    /** Books a fill: the order's record, the position and the cash of its currency. */
    method ApplyFill(order: Order, f: Fill, ghost b: Book)
      requires Mirrors(positions, b, cells)
      modifies this`positions, this`cash, this`cells, order, cells
      ensures Mirrors(positions, Posted(b, f), cells)
      ensures fresh(cells - old(cells))
      ensures order.Record() == Executed(old(order.Record()), f)
      ensures cash == CashPosted(old(cash), f)
    {
      Execute(order, f);
      positions, cells := Post(positions, f, b, cells);
      cash := PayCurrency(cash, f);
    }

    /** The body of the matching loop, for one queued order. */
    method VisitOrder(order: Order, bars: int, price: real, key: string, ghost b: Book)
      returns (kept: Option<int>, fill: Option<Fill>)
      requires Mirrors(positions, b, cells)
      modifies this`positions, this`cash, this`cells, order, cells
      ensures Visit(order.Record(), kept, fill) == Visited(config, price, key, bars, old(order.Record()))
      ensures Mirrors(positions, PostedAll(b, Listed(fill)), cells)
      ensures fresh(cells - old(cells))
      ensures cash == CashPostedAll(old(cash), Listed(fill))
    {
      kept, fill := Some(bars), None;
      if order.ticket.instrument.key != key {
        return;
      }
      if bars > 0 {
        kept := Some(bars - 1);
        return;
      }
      fill := TryMatch(config, order.Record(), price);
      if fill.Some? {
        PostedAllSnoc(b, [], fill.value);
        CashPostedAllSnoc(cash, [], fill.value);
        ApplyFill(order, fill.value, b);
        if order.status == Filled {
          kept := None;
        }
      }
    }

    /** The same, for a known order, after `emitted` has been booked since `s`. */
    method VisitKnown(order: Order, bars: int, price: real, key: string, ghost recs: Orders, ghost s: SimState,
                      ghost emitted: seq<Fill>)
      returns (v: Visit)
      requires Records(known, recs, objects) && order.ticket.id in known && known[order.ticket.id] == order
      requires Mirrors(positions, PostedAll(s.positions, emitted), cells) && cash == CashPostedAll(s.cash, emitted)
      modifies this`positions, this`cash, this`cells, order, cells
      ensures v == Visited(config, price, key, bars, recs[order.ticket.id])
      ensures Records(known, recs[order.ticket.id := v.rec], objects) && fresh(cells - old(cells))
      ensures Mirrors(positions, PostedAll(s.positions, emitted + Listed(v.fill)), cells)
      ensures cash == CashPostedAll(s.cash, emitted + Listed(v.fill))
    {
      var kept, fill := VisitOrder(order, bars, price, key, PostedAll(s.positions, emitted));
      v := Visit(order.Record(), kept, fill);
      PostedAllConcat(s.positions, emitted, Listed(v.fill));
      CashPostedAllConcat(s.cash, emitted, Listed(v.fill));
    }

    /** The first `n` of the queue have been visited since `s`. */
    ghost predicate Matched(price: real, key: string, s: SimState, n: nat, emitted: seq<Fill>, still: seq<Pend>)
      requires n <= |s.pending| && Known(s.orders, s.pending)
      reads this, cells, objects
    {
      var w := Swept(config, price, key, s.pending, s.orders, n);
      && Records(known, w.orders, objects) && still == w.still && emitted == w.emitted
      && Mirrors(positions, PostedAll(s.positions, emitted), cells) && cash == CashPostedAll(s.cash, emitted)
    }

    method MatchNext(p: Pend, price: real, key: string, ghost s: SimState, ghost n: nat, emitted: seq<Fill>, still: seq<Pend>)
      returns (emitted': seq<Fill>, still': seq<Pend>)
      requires Known(s.orders, s.pending) && n < |s.pending| && p == s.pending[n]
      requires Matched(price, key, s, n, emitted, still)
      modifies this`positions, this`cash, this`cells, objects, cells
      ensures Matched(price, key, s, n + 1, emitted', still') && fresh(cells - old(cells))
    {
      ghost var w := Swept(config, price, key, s.pending, s.orders, n);
      var v := VisitKnown(known[p.id], p.bars, price, key, w.orders, s, emitted);
      emitted' := emitted + Listed(v.fill);
      still' := still + Requeued(p.id, v.kept);
    }

    /** The matching loop; `still` is the rebuilt queue. */
    method MatchAll(price: real, key: string, ghost s: SimState)
      returns (emitted: seq<Fill>, still: seq<Pend>)
      requires Known(s.orders, s.pending) && pending == s.pending
      requires Matched(price, key, s, 0, [], [])
      modifies this`positions, this`cash, this`cells, objects, cells
      ensures Matched(price, key, s, |s.pending|, emitted, still) && fresh(cells - old(cells))
    {
      hide Matched;
      emitted, still := [], [];
      for i := 0 to |pending|
        invariant Matched(price, key, s, i, emitted, still) && fresh(cells - old(cells))
      {
        emitted, still := MatchNext(pending[i], price, key, s, i, emitted, still);
      }
    }

    /** The end of a tick: the rebuilt queue takes over and the fills are queued for consumers. */
    method Requeue(still: seq<Pend>, emitted: seq<Fill>, ghost s: SimState)
      requires Records(known, s.orders, objects) && Known(s.orders, still) && Mirrors(positions, s.positions, cells)
      requires still == s.pending && cash == s.cash && fillQueue + emitted == s.queue && brokerIds == s.brokerIds
      modifies this`pending, this`fillQueue, this`state
      ensures Valid() && state == s
    {
      pending := still;
      fillQueue := fillQueue + emitted;
      state := s;
    }

    method Tick(q: Quote) returns (emitted: seq<Fill>)
      requires Valid()
      modifies this`pending, this`positions, this`cash, this`cells, this`fillQueue, this`state
      modifies objects, cells
      ensures Valid() && state == Ticked(config, old(state), q) && emitted == Emitted(config, old(state), q)
      ensures fresh(cells - old(cells))
    {
      var price := q.Price();
      if price.None? {
        return [];
      }
      var still;
      emitted, still := MatchAll(price.value, q.instrument.key, state);
      Requeue(still, emitted, Ticked(config, state, q));
    }
  }

  /** The broker's cash branch, in the currency of the fill. */
  method PayCurrency(cash: map<string, real>, f: Fill) returns (cash': map<string, real>)
    ensures cash' == CashPosted(cash, f)
  {
    var ccy := f.instrument.currency;
    var had := if ccy in cash then cash[ccy] else 0.0;
    var notional := f.price * f.qty;
    if f.side == Buy {
      cash' := cash[ccy := had - notional - f.fees];
    } else {
      cash' := cash[ccy := had + notional - f.fees];
    }
    assert cash'[ccy] == had + CashFlow(f);
  }
}
