/** The value types of src/tradingplatform/core, shared by every component.
    `Decimal` is `real`, and a uuid is a number that is only ever compared for equality. */
module Core {

  datatype Option<+T> = None | Some(value: T)
  {
    function UnwrapOr(other: T): T {
      if Some? then value else other
    }
  }

  type Id = nat

  datatype Side = Buy | Sell

  datatype OrderType = Market | Limit | Stop | StopLimit

  datatype OrderStatus = New | Sent | PartiallyFilled | Filled | Cancelled | Rejected

  /** `key` stands for the "symbol.mic" string that every dictionary is indexed by. */
  datatype Instrument = Instrument(key: string, currency: string)

  datatype Fill = Fill(orderId: Id, instrument: Instrument, side: Side, qty: real, price: real, fees: real)
  {
    /** Quantity signed by side: positive for a purchase. */
    function Signed(): real {
      SignedQty(side, qty)
    }
  }

  datatype Quote = Quote(instrument: Instrument, bid: Option<real>, ask: Option<real>, last: Option<real>)
  {
    function Mid(): Option<real> {
      if bid.Some? && ask.Some? then Some((bid.value + ask.value) / 2.0) else last
    }

    /** The price a tick trades at. A `last` of zero counts as absent, as Python's `or` has it. */
    function Price(): Option<real> {
      if last.Some? && last.value != 0.0 then last else Mid()
    }
  }

  datatype TicketFields = Ticket(id: Id, instrument: Instrument, side: Side, qty: real, orderType: OrderType,
                                 limitPrice: Option<real>, stopPrice: Option<real>, mode: string)
  {
    /** What the order's validator demands; building any other order raises. */
    predicate Valid() {
      && (orderType in {Limit, StopLimit} ==> limitPrice.Some?)
      && (orderType in {Stop, StopLimit} ==> stopPrice.Some?)
      && qty > 0.0
    }
  }

  /** The fields of an order that never change once it is built. */
  type Ticket = t: TicketFields | t.Valid()
    witness Ticket(0, Instrument("", ""), Buy, 1.0, Market, None, None, "")

  /** An order's whole record at one moment. */
  datatype OrderRec = OrderRec(ticket: Ticket, brokerOrderId: Option<Id>, status: OrderStatus,
                               filledQty: real, avgFillPrice: Option<real>)
  {
    function Remaining(): real {
      ticket.qty - filledQty
    }
  }

  function NewOrder(t: Ticket): OrderRec {
    OrderRec(t, None, New, 0.0, None)
  }

  function SignedQty(side: Side, qty: real): real {
    if side.Buy? then qty else -qty
  }

  function Abs(x: real): real {
    if x >= 0.0 then x else -x
  }

  function Min(x: real, y: real): real {
    if y < x then y else x
  }

  function Max(x: real, y: real): real {
    if y > x then y else x
  }

  /** Division where the source would raise on a zero divisor; see README. */
  function Quot(x: real, y: real): (q: real)
    ensures y != 0.0 ==> q * y == x
  {
    if y == 0.0 then 0.0 else x / y
  }

  function Times(n: int, x: real): real {
    n as real * x
  }

  lemma TimesNext(n: int, x: real)
    ensures Times(n, x) == Times(n - 1, x) + x && Times(0, x) == 0.0
  {
  }

  /** The number of pieces of size `y` needed to cover `x`. */
  function CeilDiv(x: real, y: real): int
    requires y > 0.0
  {
    -(-(x / y)).Floor
  }

  lemma CeilDivCovers(x: real, y: real, k: int)
    requires y > 0.0
    ensures k >= CeilDiv(x, y) <==> k as real * y >= x
  {
    var q := x / y;
    assert q * y == x;
    if k as real >= q {
      assert k as real * y >= q * y;
    } else {
      assert (q - k as real) * y > 0.0;
    }
  }

  /** An order as it lives on the heap: the broker and the OMS hold the same object. */
  class Order {
    const ticket: Ticket
    var brokerOrderId: Option<Id>
    var status: OrderStatus
    var filledQty: real
    var avgFillPrice: Option<real>

    constructor (t: Ticket)
      ensures ticket == t && Record() == NewOrder(t)
    {
      ticket := t;
      brokerOrderId, status, filledQty, avgFillPrice := None, New, 0.0, None;
    }

    function Record(): OrderRec
      reads this
    {
      OrderRec(ticket, brokerOrderId, status, filledQty, avgFillPrice)
    }
  }

  type Orders = map<Id, OrderRec>
}
