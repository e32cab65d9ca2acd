/** What one tick does to one order, to the last figure: whether it trades, at what price, for how
    much and for which fee, and where that leaves its record and its place in the queue. */
module TickTerms {
  import opened Core
  import opened SimModel
  import opened OrderLife

  /** The price of a quote: its last trade, unless there is none or it is zero; then the middle of bid
      and ask, if there are both; and else the last trade after all. */
  function PriceOf(q: Quote): Option<real> {
    if q.last.Some? && q.last.value != 0.0 then q.last
    else if q.bid.Some? && q.ask.Some? then Some((q.bid.value + q.ask.value) / 2.0)
    else q.last
  }

  /** At a price an order trades at: a market order at any, a limit order at one that has reached its
      limit, and a stop order at none. */
  predicate Trades(t: Ticket, price: real) {
    match t.orderType
    case Market => true
    case Limit => if t.side.Buy? then price <= t.limitPrice.value else price >= t.limitPrice.value
    case _ => false
  }

  /** So many ten-thousandths of the price. */
  function Slippage(cfg: SimConfig, price: real): real {
    price * cfg.slippageBps / 10000.0
  }

  /** The terms: slippage against a market order, the limit for a limit order; what remains, up to the
      cap; and the fee per share, or the minimum if that is more. */
  function TermsOf(cfg: SimConfig, r: OrderRec, price: real): Fill
    requires Trades(r.ticket, price)
  {
    var t, left := r.ticket, r.ticket.qty - r.filledQty;
    var qty := if cfg.maxQtyPerBar.Some? && cfg.maxQtyPerBar.value < left then cfg.maxQtyPerBar.value else left;
    var at := if t.orderType.Limit? then t.limitPrice.value
              else if t.side.Buy? then price + Slippage(cfg, price) else price - Slippage(cfg, price);
    var fee := cfg.feePerShare * qty;
    Fill(t.id, t.instrument, t.side, qty, at, if fee > cfg.feeMin then fee else cfg.feeMin)
  }

  /** The order is in the queue, of the instrument of the quote, which has a price. */
  predicate Touched(s: SimState, q: Quote, id: Id)
    requires id in s.orders
  {
    WaitOf(s.pending, id).Some? && s.orders[id].ticket.instrument.key == q.instrument.key && PriceOf(q).Some?
  }

  lemma SlippedPrice(cfg: SimConfig, price: real, x: real)
    requires x == cfg.slippageBps / 10000.0
    ensures price * (1.0 + x) == price + Slippage(cfg, price) && price * (1.0 - x) == price - Slippage(cfg, price)
  {
    assert x * 10000.0 == cfg.slippageBps;
    assert price * cfg.slippageBps == price * x * 10000.0;
    assert price * (1.0 + x) == price + price * x && price * (1.0 - x) == price - price * x;
  }

  lemma MatchesOnTerms(cfg: SimConfig, r: OrderRec, price: real)
    ensures TryMatch(cfg, r, price) == if Trades(r.ticket, price) then Some(TermsOf(cfg, r, price)) else None
  {
    SlippedPrice(cfg, price, cfg.slippageBps / 10000.0);
    hide Slippage;
  }

  /** A tick of another instrument or without a price leaves an order alone; one of its own brings a
      waiting order nearer its turn; and else it trades if it can, on its terms, its record growing by
      the fill, and leaves the queue if it is then filled. */
  lemma TickFillsExactly(cfg: SimConfig, s: SimState, q: Quote, id: Id)
    requires Sound(s) && id in s.orders
    ensures var s', r := Ticked(cfg, s, q), s.orders[id];
            var wait := WaitOf(s.pending, id);
            && id in s'.orders
            && if Touched(s, q, id) && wait.value <= 0 && Trades(r.ticket, PriceOf(q).value) then
                 var f := TermsOf(cfg, r, PriceOf(q).value);
                 && FillsOf(s'.queue, id) == FillsOf(s.queue, id) + [f]
                 && s'.orders[id].ticket == r.ticket && s'.orders[id].brokerOrderId == r.brokerOrderId
                 && s'.orders[id].filledQty == r.filledQty + f.qty
                 && s'.orders[id].status == (if r.filledQty + f.qty == r.ticket.qty then Filled else PartiallyFilled)
                 && WaitOf(s'.pending, id) == (if r.filledQty + f.qty == r.ticket.qty then None else wait)
               else
                 && FillsOf(s'.queue, id) == FillsOf(s.queue, id) && s'.orders[id] == r
                 && WaitOf(s'.pending, id) == if Touched(s, q, id) && wait.value > 0 then Some(wait.value - 1) else wait
  {
    hide Ticked, TryMatch, TermsOf, RunningAverage;
    TickedIsPerOrder(cfg, s, q, id);
    assert q.Price() == PriceOf(q);
    assert FillsOf(s.queue, id) + [] == FillsOf(s.queue, id);
    if PriceOf(q).Some? {
      MatchesOnTerms(cfg, s.orders[id], PriceOf(q).value);
    }
  }
}
