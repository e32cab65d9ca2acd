/** src/tradingplatform/oms/manager.py: the order manager object, sharing its order objects with
    the broker, proved to follow OmsModel. */
module Oms {
  import opened Core
  import opened Totals
  import opened Positions
  import opened Ledgers
  import opened SimModel
  import opened SimBroker
  import opened Risk
  import opened OmsModel

  class OMS {
    const broker: SimBroker
    const risk: RiskEngine
    var orders: map<Id, Order>
    var positions: map<string, Position>
    ghost var cells: set<Position>
    ghost var state: OmsState

    constructor (broker: SimBroker, risk: RiskEngine)
      requires broker.Valid() && broker.known == map[]
      ensures Valid() && this.broker == broker && this.risk == risk && cells == {}
      ensures state == OmsState(broker.state, map[], risk.Value())
    {
      this.broker, this.risk, orders, positions := broker, risk, map[], map[];
      cells, state := {}, OmsState(broker.state, map[], risk.Value());
    }

    /** The fields hold the abstract state; the order dictionary holds the broker's objects. */
    ghost predicate Valid()
      reads this, broker, broker.cells, broker.objects, cells, risk
    {
      && broker.Valid() && broker.state == state.sim && orders == broker.known
      && Mirrors(positions, state.positions, cells) && cells !! broker.cells
      && risk.Value() == state.risk
    }

    /** After the verdict: a rejected order is only kept, a passed one goes to the broker. */
    method Route(order: Order, verdict: Verdict)
      requires broker.Valid() && orders == broker.known
      requires order.ticket.id in orders ==> orders[order.ticket.id] == order
      requires verdict == Passed ==> order.ticket.mode == broker.mode
      modifies order, broker`pending, broker`brokerIds, broker`known, broker`objects, broker`state
      ensures broker.Valid() && broker.known == old(orders)[order.ticket.id := order]
      ensures broker.objects == old(broker.objects) + {order}
      ensures broker.state == Routed(broker.config, old(broker.state), old(order.Record()), verdict)
    {
      if verdict != Passed {
        ghost var s := Routed(broker.config, broker.state, order.Record(), verdict);
        order.status := Rejected;
        broker.Meet(order, s);
      } else {
        var brokerId := broker.PlaceOrder(order);
        // The broker has already written what the source writes again here.
        assert order.brokerOrderId == brokerId && order.status == Sent;
      }
    }

    ghost method Settle(s: OmsState)
      requires broker.Valid() && broker.state == s.sim && orders == broker.known
      requires Mirrors(positions, s.positions, cells) && cells !! broker.cells && risk.Value() == s.risk
      modifies this`state
      ensures Valid() && state == s
    {
      state := s;
    }

    lemma OrdersAreKnown()
      requires Valid()
      ensures orders == broker.known && broker.Valid() && broker.state == state.sim
    {
    }

    lemma OrdersAreOnFile()
      requires Valid()
      ensures orders.Keys == state.sim.orders.Keys
    {
    }

    /** The host has ticked the broker; the OMS reads the same objects. */
    ghost method BrokerTicked()
      requires broker.Valid() && orders == broker.known && Mirrors(positions, state.positions, cells)
      requires cells !! broker.cells && risk.Value() == state.risk
      modifies this`state
      ensures Valid() && state == old(state).(sim := broker.state)
    {
      state := state.(sim := broker.state);
    }

    method Submit(order: Order, now: real)
      requires Valid() && (order.ticket.id in orders ==> orders[order.ticket.id] == order)
      modifies this`orders, this`state, risk`orderTimes, order
      modifies broker`pending, broker`brokerIds, broker`known, broker`objects, broker`state
      ensures Valid() && orders == old(orders)[order.ticket.id := order] && broker.objects == old(broker.objects) + {order}
      ensures state == Submitted(broker.config, risk.limits, broker.mode, old(state), old(order.Record()), now)
    {
      hide SimBroker.Valid, Checked, Routed, Recent;
      ghost var s := Submitted(broker.config, risk.limits, broker.mode, state, order.Record(), now);
      var verdict := risk.Check(order.ticket, broker.mode, positions, now, state.positions, cells);
      Route(order, verdict);
      orders := orders[order.ticket.id := order];
      Settle(s);
    }

    /** The order part of a fill, on the object shared with the broker. */
    method FillOrder(f: Fill)
      requires broker.Valid() && orders == broker.known
      modifies broker.objects, broker`state
      ensures broker.Valid() && broker.state == old(broker.state).(orders := RecordFilled(old(broker.state.orders), f))
    {
      ghost var s := broker.state.(orders := RecordFilled(broker.state.orders, f));
      if f.orderId in orders {
        ExecuteOms(orders[f.orderId], f);
        broker.state := s;
      }
    }

    /** The position part of a fill, and the profit it leaves the risk engine to judge by. */
    method BookFill(f: Fill, ghost b: Book)
      requires Mirrors(positions, b, cells) && cells !! broker.cells && broker.Valid()
      modifies this`positions, this`cells, cells, risk`dailyRealisedPnl
      ensures Mirrors(positions, Posted(b, f), cells) && cells !! broker.cells && broker.Valid()
      ensures risk.dailyRealisedPnl == Total(RealisedPnls(Posted(b, f)))
      ensures fresh(cells - old(cells))
    {
      hide SimBroker.Valid, Posted, RealisedPnls, Total;
      BookPosition(f, b);
      var sum := SumRealised(positions, Posted(b, f), cells);
      risk.dailyRealisedPnl := sum;
    }

    method BookPosition(f: Fill, ghost b: Book)
      requires Mirrors(positions, b, cells) && cells !! broker.cells
      modifies this`positions, this`cells, cells
      ensures Mirrors(positions, Posted(b, f), cells) && cells !! broker.cells && fresh(cells - old(cells))
    {
      positions, cells := Post(positions, f, b, cells);
    }

    method OnFill(f: Fill)
      requires Valid()
      modifies this`positions, this`cells, this`state, cells, risk`dailyRealisedPnl
      modifies broker.objects, broker`state
      ensures Valid() && state == FilledOms(old(state), f)
      ensures fresh(cells - old(cells)) && cells !! broker.cells
    {
      FillOrder(f);
      BookFill(f, state.positions);
      Settle(FilledOms(state, f));
    }
  }

  method ExecuteOms(order: Order, f: Fill)
    modifies order
    ensures order.Record() == Executed(old(order.Record()), f)
  {
    BothBookAlike(order.Record(), f);
    order.filledQty := order.filledQty + f.qty;
    if order.avgFillPrice.None? {
      order.avgFillPrice := Some(f.price);
    } else {
      order.avgFillPrice := Some(OmsAverage(order.avgFillPrice.value, order.filledQty, f));
    }
    order.status := if order.ticket.qty - order.filledQty == 0.0 then Filled else PartiallyFilled;
  }

  /** The realised profit of all positions. */
  method SumRealised(positions: map<string, Position>, ghost b: Book, ghost cells: set<Position>) returns (sum: real)
    requires Mirrors(positions, b, cells)
    ensures sum == Total(RealisedPnls(b))
  {
    sum := 0.0;
    var keys := positions.Keys;
    ghost var values := RealisedPnls(b);
    ghost var left := values;
    while keys != {}
      invariant keys <= positions.Keys
      invariant left.Keys == keys && forall k :: k in left ==> left[k] == values[k]
      invariant sum + Total(left) == Total(values)
      decreases keys
    {
      var k :| k in keys;
      TotalRemove(left, k);
      sum := sum + positions[k].realisedPnl;
      keys := keys - {k};
      left := left - {k};
    }
    assert left == map[];
  }
}
