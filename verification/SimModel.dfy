/** src/tradingplatform/brokers/sim.py as a state machine: what placing, cancelling and ticking do
    to the broker's state. The class that does it is in SimBroker.dfy. */
module SimModel {
  import opened Core
  import opened Ledgers

  datatype SimConfig = SimConfig(slippageBps: real, feePerShare: real, feeMin: real, latencyBars: int,
                                 maxQtyPerBar: Option<real>, startingCash: real, baseCurrency: string)

  /** A queued order and the priced ticks it still has to wait. */
  datatype Pend = Pend(id: Id, bars: int)

  datatype SimState = SimState(orders: Orders, pending: seq<Pend>, positions: Book, cash: map<string, real>,
                               queue: seq<Fill>, brokerIds: nat)

  function NewSim(cfg: SimConfig): SimState {
    SimState(map[], [], map[], map[cfg.baseCurrency := cfg.startingCash], [], 0)
  }

  // ---- Matching one order ----

  /** The price an order would trade at, if it would trade at all. STOP orders never do. */
  function FillPrice(cfg: SimConfig, t: Ticket, price: real): Option<real> {
    match t.orderType
    case Market =>
      var bps := cfg.slippageBps / 10000.0;
      Some(if t.side.Buy? then price * (1.0 + bps) else price * (1.0 - bps))
    case Limit =>
      var limit := t.limitPrice.value;
      if t.side.Buy? && price <= limit then Some(limit)
      else if t.side.Sell? && price >= limit then Some(limit)
      else None
    case _ => None
  }

  function FillQty(cfg: SimConfig, r: OrderRec): real {
    if cfg.maxQtyPerBar.Some? then Min(r.Remaining(), cfg.maxQtyPerBar.value) else r.Remaining()
  }

  function TryMatch(cfg: SimConfig, r: OrderRec, price: real): Option<Fill> {
    var at := FillPrice(cfg, r.ticket, price);
    if at.None? then None
    else
      var qty := FillQty(cfg, r);
      Some(Fill(r.ticket.id, r.ticket.instrument, r.ticket.side, qty, at.value,
                Max(cfg.feeMin, cfg.feePerShare * qty)))
  }

  function RunningAverage(avg: real, filledQty: real, f: Fill): real {
    Quot(avg * filledQty + f.price * f.qty, filledQty + f.qty)
  }

  /** The order's record after a fill, with its running average price. */
  function Executed(r: OrderRec, f: Fill): OrderRec {
    var filled := r.filledQty + f.qty;
    var avg := if r.avgFillPrice.None? then f.price
               else RunningAverage(r.avgFillPrice.value, r.filledQty, f);
    r.(filledQty := filled, avgFillPrice := Some(avg),
       status := if r.ticket.qty - filled == 0.0 then Filled else PartiallyFilled)
  }

  // ---- One tick ----

  datatype Sweep = Sweep(orders: Orders, still: seq<Pend>, emitted: seq<Fill>)

  predicate Known(orders: Orders, pending: seq<Pend>) {
    forall i :: 0 <= i < |pending| ==> pending[i].id in orders
  }

  /** What one visit of the matching loop does to one queued order. */
  datatype Visit = Visit(rec: OrderRec, kept: Option<int>, fill: Option<Fill>)

  /** A queued order of the ticked instrument waits, or is matched against the price and leaves
      the queue once it is filled; `kept` is the wait it stays queued with. */
  function Visited(cfg: SimConfig, price: real, key: string, bars: int, r: OrderRec): Visit {
    if r.ticket.instrument.key != key then Visit(r, Some(bars), None)
    else if bars > 0 then Visit(r, Some(bars - 1), None)
    else
      var fill := TryMatch(cfg, r, price);
      if fill.None? then Visit(r, Some(bars), None)
      else
        var r' := Executed(r, fill.value);
        Visit(r', if r'.status != Filled then Some(bars) else None, fill)
  }

  function Listed<T>(x: Option<T>): seq<T> {
    if x.Some? then [x.value] else []
  }

  function Requeued(id: Id, kept: Option<int>): seq<Pend> {
    if kept.Some? then [Pend(id, kept.value)] else []
  }

  /** The matching loop after visiting the first `n` of the queue. */
  function Swept(cfg: SimConfig, price: real, key: string, pending: seq<Pend>, orders: Orders, n: nat): (w: Sweep)
    requires n <= |pending| && Known(orders, pending)
    ensures w.orders.Keys == orders.Keys && Known(orders, w.still)
  {
    if n == 0 then Sweep(orders, [], [])
    else
      var w := Swept(cfg, price, key, pending, orders, n - 1);
      var p := pending[n - 1];
      var v := Visited(cfg, price, key, p.bars, w.orders[p.id]);
      Sweep(w.orders[p.id := v.rec], w.still + Requeued(p.id, v.kept), w.emitted + Listed(v.fill))
  }

  function CashPosted(cash: map<string, real>, f: Fill): map<string, real> {
    var ccy := f.instrument.currency;
    cash[ccy := (if ccy in cash then cash[ccy] else 0.0) + CashFlow(f)]
  }

  function CashPostedAll(cash: map<string, real>, fills: seq<Fill>): map<string, real> {
    if fills == [] then cash
    else CashPosted(CashPostedAll(cash, fills[..|fills| - 1]), fills[|fills| - 1])
  }

  lemma CashPostedAllSnoc(cash: map<string, real>, fills: seq<Fill>, f: Fill)
    ensures CashPostedAll(cash, fills + [f]) == CashPosted(CashPostedAll(cash, fills), f)
  {
    assert (fills + [f])[..|fills|] == fills;
  }

  lemma {:induction false} CashPostedAllConcat(cash: map<string, real>, fs: seq<Fill>, gs: seq<Fill>)
    ensures CashPostedAll(cash, fs + gs) == CashPostedAll(CashPostedAll(cash, fs), gs)
  {
    if gs == [] {
      assert fs + gs == fs;
    } else {
      var hs := gs[..|gs| - 1];
      assert fs + gs == (fs + hs) + [gs[|gs| - 1]];
      CashPostedAllSnoc(cash, fs + hs, gs[|gs| - 1]);
      CashPostedAllConcat(cash, fs, hs);
    }
  }

  /** What a tick emits. */
  function Emitted(cfg: SimConfig, s: SimState, q: Quote): seq<Fill>
    requires Known(s.orders, s.pending)
  {
    if q.Price().None? then []
    else Swept(cfg, q.Price().value, q.instrument.key, s.pending, s.orders, |s.pending|).emitted
  }

  /** The broker after a tick. An unpriced quote changes nothing. */
  ghost function Ticked(cfg: SimConfig, s: SimState, q: Quote): (s': SimState)
    requires Known(s.orders, s.pending)
    ensures Known(s'.orders, s'.pending) && s'.orders.Keys == s.orders.Keys
  {
    if q.Price().None? then s
    else
      var w := Swept(cfg, q.Price().value, q.instrument.key, s.pending, s.orders, |s.pending|);
      SimState(w.orders, w.still, PostedAll(s.positions, w.emitted), CashPostedAll(s.cash, w.emitted),
               s.queue + w.emitted, s.brokerIds)
  }

  /** The queue, the positions and the cash all follow one list of fills. */
  ghost predicate Follows(s: SimState, out: seq<Fill>, s': SimState) {
    && s'.queue == s.queue + out && s'.positions == PostedAll(s.positions, out)
    && s'.cash == CashPostedAll(s.cash, out)
  }

  /** The broker's ledgers follow what it emits. */
  lemma TickedFollows(cfg: SimConfig, s: SimState, q: Quote)
    requires Known(s.orders, s.pending)
    ensures Follows(s, Emitted(cfg, s, q), Ticked(cfg, s, q))
  {
  }

  // ---- Placing and cancelling ----

  /** The broker after accepting the order with record `r`. */
  function Placed(cfg: SimConfig, s: SimState, r: OrderRec): SimState {
    s.(orders := s.orders[r.ticket.id := r.(brokerOrderId := Some(s.brokerIds), status := Sent)],
       pending := s.pending + [Pend(r.ticket.id, cfg.latencyBars)],
       brokerIds := s.brokerIds + 1)
  }

  function Without(pending: seq<Pend>, orders: Orders, brokerId: Id): (kept: seq<Pend>)
    requires Known(orders, pending)
    ensures Known(orders, kept)
  {
    if pending == [] then []
    else
      var n := |pending| - 1;
      Without(pending[..n], orders, brokerId) +
      if orders[pending[n].id].brokerOrderId != Some(brokerId) then [pending[n]] else []
  }

  /** A cancelled order leaves the queue; its status is not touched. */
  function Unqueued(s: SimState, brokerId: Id): SimState
    requires Known(s.orders, s.pending)
  {
    s.(pending := Without(s.pending, s.orders, brokerId))
  }

  // ---- The order objects behind a state ----

  /** The known objects, all among `objects`, are filed under their uuids and hold the records. */
  ghost predicate Records(known: map<Id, Order>, orders: Orders, objects: set<Order>)
    reads objects
  {
    && known.Keys == orders.Keys
    && forall id :: id in known ==>
         && known[id] in objects && known[id].ticket.id == id
         && OrderRec(known[id].ticket, known[id].brokerOrderId, known[id].status, known[id].filledQty,
                     known[id].avgFillPrice) == orders[id]
  }
}
