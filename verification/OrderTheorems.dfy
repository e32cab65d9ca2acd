/** What every run of the simulated broker keeps about its orders: quantity is conserved, the
    running average is the true average, finished orders stay silent, and a market order
    completes on an exactly predictable tick. */
module OrderTheorems {
  import opened Core
  import opened Totals
  import opened Positions
  import opened Ledgers
  import opened SimModel
  import opened OrderLife

  function QtyOf(fills: seq<Fill>): real {
    if fills == [] then 0.0 else QtyOf(fills[..|fills| - 1]) + fills[|fills| - 1].qty
  }

  /** The money the fills traded for: the sum of price times quantity. */
  function NotionalPaid(fills: seq<Fill>): real {
    if fills == [] then 0.0
    else NotionalPaid(fills[..|fills| - 1]) + fills[|fills| - 1].price * fills[|fills| - 1].qty
  }

  /** A per-bar cap, if there is one, lets something through. */
  predicate SoundConfig(cfg: SimConfig) {
    cfg.maxQtyPerBar.Some? ==> cfg.maxQtyPerBar.value > 0.0
  }

  /** An honest fill of an order: strictly positive, on its instrument and side, and at its limit
      if it has one; STOP orders get none. */
  predicate FillFor(t: Ticket, f: Fill) {
    && f.orderId == t.id && f.instrument == t.instrument && f.side == t.side && f.qty > 0.0
    && (t.orderType.Limit? ==> f.price == t.limitPrice.value)
    && t.orderType in {Market, Limit}
  }

  /** Conservation for one order. */
  predicate Conserved(l: Life) {
    var r := l.rec;
    && 0.0 <= r.filledQty <= r.ticket.qty
    && r.filledQty == QtyOf(l.fills)
    && (forall i :: 0 <= i < |l.fills| ==> FillFor(r.ticket, l.fills[i]))
    && r.status == (if r.filledQty == r.ticket.qty then Filled else if l.fills == [] then Sent else PartiallyFilled)
    && (l.wait.Some? ==> r.status != Filled)
  }

  /** The record's average is the volume-weighted average price of its fills. */
  predicate TrueAverage(r: OrderRec, fills: seq<Fill>) {
    if r.avgFillPrice.None? then fills == []
    else fills != [] && r.avgFillPrice.value * r.filledQty == NotionalPaid(fills)
  }

  lemma SnocSums(fills: seq<Fill>, f: Fill)
    ensures QtyOf(fills + [f]) == QtyOf(fills) + f.qty
    ensures NotionalPaid(fills + [f]) == NotionalPaid(fills) + f.price * f.qty
  {
    assert (fills + [f])[..|fills|] == fills;
  }

  lemma AverageOf(r: OrderRec, f: Fill)
    requires r.filledQty + f.qty != 0.0
    ensures Executed(r, f).avgFillPrice.Some?
    ensures r.avgFillPrice.Some? ==>
              Executed(r, f).avgFillPrice.value * (r.filledQty + f.qty) == r.avgFillPrice.value * r.filledQty + f.price * f.qty
    ensures r.avgFillPrice.None? ==> Executed(r, f).avgFillPrice.value == f.price
  {
  }

  /** Both bookkeepers average the same way: a positive fill keeps the average true. */
  lemma ExecutedAverage(r: OrderRec, fills: seq<Fill>, f: Fill)
    requires TrueAverage(r, fills) && r.filledQty >= 0.0 && f.qty > 0.0
    requires fills == [] ==> r.filledQty == 0.0
    ensures TrueAverage(Executed(r, f), fills + [f])
  {
    SnocSums(fills, f);
  }

  /** What a visit can be: nothing but a shorter wait, or one fill of the broker's choosing. */
  lemma VisitCases(cfg: SimConfig, price: real, key: string, bars: int, r: OrderRec)
    ensures var v := Visited(cfg, price, key, bars, r);
            if v.fill.None? then v.rec == r && v.kept.Some?
            else && v.rec == Executed(r, v.fill.value) && v.fill.value.qty == FillQty(cfg, r)
                 && (v.kept.Some? <==> v.rec.status != Filled)
                 && (v.fill.value.qty > 0.0 ==> FillFor(r.ticket, v.fill.value))
  {
  }

  /** When an order trades and on what terms: a market order at once, a limit order exactly when the
      price has reached its limit, a stop order never; never at a better price than the tick's, and
      for the larger of the minimum and the per-share fee. */
  lemma MatchTerms(cfg: SimConfig, r: OrderRec, price: real)
    requires cfg.slippageBps >= 0.0 && price >= 0.0
    ensures var t, fill := r.ticket, TryMatch(cfg, r, price);
            && (fill.Some? <==>
                  t.orderType.Market? || (t.orderType.Limit? && SignedQty(t.side, t.limitPrice.value - price) >= 0.0))
            && (fill.Some? ==>
                  && SignedQty(t.side, fill.value.price - price) >= 0.0
                  && fill.value.fees >= cfg.feeMin && fill.value.fees >= cfg.feePerShare * fill.value.qty
                  && fill.value.fees in {cfg.feeMin, cfg.feePerShare * fill.value.qty})
  {
    var bps := cfg.slippageBps / 10000.0;
    assert price * bps >= 0.0;
    assert price * (1.0 + bps) == price + price * bps && price * (1.0 - bps) == price - price * bps;
  }

  lemma ExecutedConserves(cfg: SimConfig, l: Life, f: Fill, l': Life)
    requires SoundConfig(cfg) && Conserved(l) && l.wait.Some?
    requires f.qty == FillQty(cfg, l.rec) && (f.qty > 0.0 ==> FillFor(l.rec.ticket, f))
    requires l'.rec == Executed(l.rec, f) && l'.fills == l.fills + [f]
    requires l'.wait.Some? <==> l'.rec.status != Filled
    ensures f.qty > 0.0 && Conserved(l')
  {
    SnocSums(l.fills, f);
  }

  lemma VisitConserves(cfg: SimConfig, price: real, key: string, l: Life)
    requires SoundConfig(cfg) && Conserved(l) && TrueAverage(l.rec, l.fills)
    ensures var l' := VisitedLife(cfg, price, key, l);
            Conserved(l') && TrueAverage(l'.rec, l'.fills)
  {
    if l.wait.Some? {
      var v := Visited(cfg, price, key, l.wait.value, l.rec);
      VisitCases(cfg, price, key, l.wait.value, l.rec);
      var l' := VisitedLife(cfg, price, key, l);
      if v.fill.Some? {
        ExecutedConserves(cfg, l, v.fill.value, l');
        assert l.fills == [] ==> l.rec.filledQty == 0.0;
        ExecutedAverage(l.rec, l.fills, v.fill.value);
      } else {
        assert l'.fills == l.fills;
      }
    }
  }

  predicate Attributed(s: SimState) {
    forall i :: 0 <= i < |s.queue| ==> s.queue[i].orderId in s.orders
  }

  lemma {:induction false} UnknownHasNoFills(fills: seq<Fill>, id: Id)
    requires forall i :: 0 <= i < |fills| ==> fills[i].orderId != id
    ensures FillsOf(fills, id) == []
  {
    if fills != [] {
      UnknownHasNoFills(fills[..|fills| - 1], id);
    }
  }

  lemma {:induction false} SweptAttributed(cfg: SimConfig, price: real, key: string, pending: seq<Pend>, orders: Orders,
                                           n: nat)
    requires n <= |pending| && Known(orders, pending) && SelfKeyed(orders)
    ensures var w := Swept(cfg, price, key, pending, orders, n);
            && SelfKeyed(w.orders)
            && forall i :: 0 <= i < |w.emitted| ==> w.emitted[i].orderId in orders
  {
    hide Visited, SelfKeyed;
    if n > 0 {
      SweptAttributed(cfg, price, key, pending, orders, n - 1);
      var w := Swept(cfg, price, key, pending, orders, n - 1);
      var p := pending[n - 1];
      var v := Visited(cfg, price, key, p.bars, w.orders[p.id]);
      VisitedOwner(cfg, price, key, p.bars, w.orders, p.id);
      AttributedNext(w, p, v, orders);
    }
  }

  lemma VisitedOwner(cfg: SimConfig, price: real, key: string, bars: int, orders: Orders, id: Id)
    requires SelfKeyed(orders) && id in orders
    ensures var v := Visited(cfg, price, key, bars, orders[id]);
            v.rec.ticket.id == id && (v.fill.Some? ==> v.fill.value.orderId == id)
  {
  }

  lemma AttributedNext(w: Sweep, p: Pend, v: Visit, orders: Orders)
    requires p.id in orders && SelfKeyed(w.orders) && p.id in w.orders && v.rec.ticket.id == p.id
    requires v.fill.Some? ==> v.fill.value.orderId == p.id
    requires forall i :: 0 <= i < |w.emitted| ==> w.emitted[i].orderId in orders
    ensures SelfKeyed(w.orders[p.id := v.rec])
    ensures forall i :: 0 <= i < |w.emitted + Listed(v.fill)| ==> (w.emitted + Listed(v.fill))[i].orderId in orders
  {
  }

  /** The invariant of every run: each order conserved, each average true, no stray fills. */
  ghost predicate Orderly(s: SimState) {
    && Sound(s) && Attributed(s)
    && forall id :: id in s.orders ==> Conserved(LifeOf(s, id)) && TrueAverage(s.orders[id], FillsOf(s.queue, id))
  }

  lemma StepKeepsOrder(cfg: SimConfig, mode: string, s: SimState, e: Event, id: Id)
    requires SoundConfig(cfg) && Orderly(s) && (e.Place? ==> e.t.id !in s.orders)
    requires id in Stepped(cfg, mode, s, e).orders
    ensures var s' := Stepped(cfg, mode, s, e);
            Sound(s') && Conserved(LifeOf(s', id)) && TrueAverage(s'.orders[id], FillsOf(s'.queue, id))
  {
    if id in s.orders {
      StepLife(cfg, mode, s, e, id);
      if e.Tick? && e.q.Price().Some? {
        VisitConserves(cfg, e.q.Price().value, e.q.instrument.key, LifeOf(s, id));
      }
    } else if e.Place? {
      PlacedLife(cfg, s, e.t, id);
      UnknownHasNoFills(s.queue, id);
    }
  }

  lemma StepKeepsAttribution(cfg: SimConfig, mode: string, s: SimState, e: Event)
    requires Sound(s) && Attributed(s)
    ensures Attributed(Stepped(cfg, mode, s, e))
  {
    if e.Tick? && e.q.Price().Some? {
      SweptAttributed(cfg, e.q.Price().value, e.q.instrument.key, s.pending, s.orders, |s.pending|);
    }
  }

  /** In every run of placing, cancelling and ticking, for every order ever placed: the filled
      quantity is the sum of its strictly positive fills and never exceeds the order; FILLED means
      exactly filled, and no filled order is queued; and the average price is the true one. */
  lemma {:induction false} RunsAreOrderly(cfg: SimConfig, mode: string, es: seq<Event>)
    requires SoundConfig(cfg) && Legal(cfg, mode, NewSim(cfg), es)
    ensures Orderly(Run(cfg, mode, NewSim(cfg), es))
  {
    if es != [] {
      var n := |es| - 1;
      RunsAreOrderly(cfg, mode, es[..n]);
      var s := Run(cfg, mode, NewSim(cfg), es[..n]);
      var s' := Stepped(cfg, mode, s, es[n]);
      forall id | id in s'.orders
        ensures Sound(s') && Conserved(LifeOf(s', id)) && TrueAverage(s'.orders[id], FillsOf(s'.queue, id))
      {
        StepKeepsOrder(cfg, mode, s, es[n], id);
      }
      StepKeepsAttribution(cfg, mode, s, es[n]);
      StepIsSound(cfg, mode, s, es[n]);
    }
  }

  lemma StepIsSound(cfg: SimConfig, mode: string, s: SimState, e: Event)
    requires Sound(s) && (e.Place? ==> e.t.id !in s.orders)
    ensures Sound(Stepped(cfg, mode, s, e))
  {
    if e.Place? && e.t.mode == mode {
      PlacedLife(cfg, s, e.t, e.t.id);
    } else if s.pending != [] {
      StepLife(cfg, mode, s, e, s.pending[0].id);
    }
  }

  /** An order out of the queue, filled or cancelled, never changes and never emits again. */
  lemma {:induction false} FinishedStaysSilent(cfg: SimConfig, mode: string, s: SimState, es: seq<Event>, id: Id)
    requires Sound(s) && id in s.orders && WaitOf(s.pending, id).None? && Legal(cfg, mode, s, es)
    ensures id in Run(cfg, mode, s, es).orders && LifeOf(Run(cfg, mode, s, es), id) == LifeOf(s, id)
  {
    RunIsPerOrder(cfg, mode, s, es, id);
    SilentLife(cfg, LifeOf(s, id), es);
  }

  lemma {:induction false} SilentLife(cfg: SimConfig, l: Life, es: seq<Event>)
    requires l.wait.None?
    ensures RunLife(cfg, l, es) == l
  {
    if es != [] {
      SilentLife(cfg, l, es[..|es| - 1]);
    }
  }

  /** Cancelling stops an order for good, but leaves its status as it was. */
  lemma CancelledStaysSilent(cfg: SimConfig, mode: string, s: SimState, es: seq<Event>, id: Id)
    requires Sound(s) && id in s.orders && s.orders[id].brokerOrderId.Some?
    requires Legal(cfg, mode, Unqueued(s, s.orders[id].brokerOrderId.value), es)
    ensures var s' := Run(cfg, mode, Unqueued(s, s.orders[id].brokerOrderId.value), es);
            && id in s'.orders && s'.orders[id] == s.orders[id] && FillsOf(s'.queue, id) == FillsOf(s.queue, id)
  {
    var b := s.orders[id].brokerOrderId.value;
    StepLife(cfg, mode, s, Cancel(b), id);
    FinishedStaysSilent(cfg, mode, Unqueued(s, b), es, id);
  }

  // ---- Exact completion time ----

  /** The priced ticks of one instrument. Other instruments and unpriced quotes do not count. */
  function OwnTicks(es: seq<Event>, key: string): nat {
    if es == [] then 0
    else
      var e := es[|es| - 1];
      OwnTicks(es[..|es| - 1], key) + if e.Tick? && e.q.instrument.key == key && e.q.Price().Some? then 1 else 0
  }

  /** How many fills it takes to execute a quantity under the per-bar cap. */
  function SliceCount(cfg: SimConfig, qty: real): (n: int)
    requires SoundConfig(cfg) && qty > 0.0
    ensures n >= 1
  {
    if cfg.maxQtyPerBar.None? then 1
    else
      CeilDivCovers(qty, cfg.maxQtyPerBar.value, 0);
      CeilDiv(qty, cfg.maxQtyPerBar.value)
  }

  /** The quantity filled by the first `k` fills: the cap each time, and what is left at the end. */
  function FilledBy(cfg: SimConfig, qty: real, k: nat): real {
    if k == 0 then 0.0
    else if cfg.maxQtyPerBar.None? then qty
    else Min(qty, k as real * cfg.maxQtyPerBar.value)
  }

  lemma FilledByAll(cfg: SimConfig, qty: real, k: nat)
    requires SoundConfig(cfg) && qty > 0.0
    ensures FilledBy(cfg, qty, k) == qty <==> k >= SliceCount(cfg, qty)
    ensures k < SliceCount(cfg, qty) ==>
              FilledBy(cfg, qty, k + 1) == FilledBy(cfg, qty, k) +
                if cfg.maxQtyPerBar.None? then qty else Min(qty - FilledBy(cfg, qty, k), cfg.maxQtyPerBar.value)
  {
    if cfg.maxQtyPerBar.Some? {
      CeilDivCovers(qty, cfg.maxQtyPerBar.value, k);
    }
  }

  /** A market order `n` own ticks after it was placed with wait `bars`. */
  predicate OnSchedule(cfg: SimConfig, t: Ticket, bars: int, n: nat, l: Life)
    requires SoundConfig(cfg)
  {
    var latency := if bars > 0 then bars else 0;
    var k := if n <= latency then 0 else n - latency;
    var N := SliceCount(cfg, t.qty);
    && l.rec.ticket == t
    && |l.fills| == (if k < N then k else N)
    && (forall i :: 0 <= i < |l.fills| ==>
          l.fills[i].qty == FilledBy(cfg, t.qty, i + 1) - FilledBy(cfg, t.qty, i))
    && l.rec.filledQty == FilledBy(cfg, t.qty, |l.fills|)
    && l.wait == (if k >= N then None else if bars > 0 && n <= bars then Some(bars - n)
                  else Some(if bars > 0 then 0 else bars))
    && (l.rec.status == Filled <==> k >= N)
  }

  lemma TickOnSchedule(cfg: SimConfig, t: Ticket, bars: int, n: nat, l: Life, price: real)
    requires SoundConfig(cfg) && t.orderType.Market? && OnSchedule(cfg, t, bars, n, l)
    ensures OnSchedule(cfg, t, bars, n + 1, VisitedLife(cfg, price, t.instrument.key, l))
  {
    hide RunningAverage;
    if l.wait.Some? {
      VisitCases(cfg, price, t.instrument.key, l.wait.value, l.rec);
      FilledByAll(cfg, t.qty, |l.fills|);
      FilledByAll(cfg, t.qty, |l.fills| + 1);
    }
  }

  lemma VisitKeepsIdentity(cfg: SimConfig, price: real, key: string, l: Life)
    ensures VisitedLife(cfg, price, key, l).rec.brokerOrderId == l.rec.brokerOrderId
    ensures VisitedLife(cfg, price, key, l).rec.ticket == l.rec.ticket
    ensures key != l.rec.ticket.instrument.key ==> VisitedLife(cfg, price, key, l) == l
  {
    assert l.fills + [] == l.fills;
  }

  lemma StartsOnSchedule(cfg: SimConfig, l: Life)
    requires SoundConfig(cfg) && l.wait.Some? && l.fills == [] && l.rec.filledQty == 0.0 && l.rec.status == Sent
    ensures OnSchedule(cfg, l.rec.ticket, l.wait.value, 0, l)
  {
    FilledByAll(cfg, l.rec.ticket.qty, 0);
  }

  lemma {:induction false} RunOnSchedule(cfg: SimConfig, l: Life, es: seq<Event>)
    requires SoundConfig(cfg) && l.rec.ticket.orderType.Market? && l.wait.Some?
    requires l.fills == [] && l.rec.filledQty == 0.0 && l.rec.status == Sent
    requires forall i :: 0 <= i < |es| ==> es[i].Cancel? ==> l.rec.brokerOrderId != Some(es[i].brokerId)
    ensures var t := l.rec.ticket;
            && RunLife(cfg, l, es).rec.brokerOrderId == l.rec.brokerOrderId && RunLife(cfg, l, es).rec.ticket == t
            && OnSchedule(cfg, t, l.wait.value, OwnTicks(es, t.instrument.key), RunLife(cfg, l, es))
  {
    hide OnSchedule, VisitedLife;
    var t := l.rec.ticket;
    if es == [] {
      StartsOnSchedule(cfg, l);
    } else {
      var n := |es| - 1;
      RunOnSchedule(cfg, l, es[..n]);
      var e, m := es[n], RunLife(cfg, l, es[..n]);
      if e.Tick? && e.q.Price().Some? {
        VisitKeepsIdentity(cfg, e.q.Price().value, e.q.instrument.key, m);
        if e.q.instrument.key == t.instrument.key {
          TickOnSchedule(cfg, t, l.wait.value, OwnTicks(es[..n], t.instrument.key), m, e.q.Price().value);
        }
      }
    }
  }

  /** A market order placed in any broker state waits out the latency in priced ticks of its own
      instrument, then fills in capped slices, and is FILLED exactly from its last slice's tick on. */
  lemma CompletionTime(cfg: SimConfig, mode: string, s: SimState, t: Ticket, es: seq<Event>)
    requires SoundConfig(cfg) && Sound(s) && Attributed(s) && t.id !in s.orders && t.orderType.Market?
    requires Legal(cfg, mode, Placed(cfg, s, NewOrder(t)), es)
    requires forall i :: 0 <= i < |es| ==> es[i] != Cancel(s.brokerIds)
    ensures var s' := Run(cfg, mode, Placed(cfg, s, NewOrder(t)), es);
            && t.id in s'.orders
            && OnSchedule(cfg, t, cfg.latencyBars, OwnTicks(es, t.instrument.key), LifeOf(s', t.id))
  {
    UnknownHasNoFills(s.queue, t.id);
    PlacedLife(cfg, s, t, t.id);
    var s0 := Placed(cfg, s, NewOrder(t));
    RunIsPerOrder(cfg, mode, s0, es, t.id);
    RunOnSchedule(cfg, LifeOf(s0, t.id), es);
  }

  // ---- The ledgers follow the fills ----

  ghost function EmittedAt(cfg: SimConfig, s: SimState, e: Event): seq<Fill>
    requires Known(s.orders, s.pending)
  {
    if e.Tick? then Emitted(cfg, s, e.q) else []
  }

  /** The fills a run emits, tick after tick. */
  ghost function Emissions(cfg: SimConfig, mode: string, s: SimState, es: seq<Event>): seq<Fill>
    requires Known(s.orders, s.pending)
  {
    if es == [] then []
    else
      var n := |es| - 1;
      Emissions(cfg, mode, s, es[..n]) + EmittedAt(cfg, Run(cfg, mode, s, es[..n]), es[n])
  }

  lemma StepFollows(cfg: SimConfig, mode: string, s: SimState, e: Event)
    requires Known(s.orders, s.pending)
    ensures Follows(s, EmittedAt(cfg, s, e), Stepped(cfg, mode, s, e))
  {
  }

  lemma FollowsOn(s: SimState, out: seq<Fill>, s': SimState, more: seq<Fill>, s'': SimState)
    requires Follows(s, out, s') && Follows(s', more, s'')
    ensures Follows(s, out + more, s'')
  {
    PostedAllConcat(s.positions, out, more);
    CashPostedAllConcat(s.cash, out, more);
  }

  /** The fill queue is the concatenation of everything emitted, and positions and cash are those
      of the same fills, posted in that order. */
  lemma {:induction false} LedgersFollow(cfg: SimConfig, mode: string, s: SimState, es: seq<Event>)
    requires Known(s.orders, s.pending)
    ensures Follows(s, Emissions(cfg, mode, s, es), Run(cfg, mode, s, es))
  {
    if es != [] {
      var n := |es| - 1;
      LedgersFollow(cfg, mode, s, es[..n]);
      var s' := Run(cfg, mode, s, es[..n]);
      StepFollows(cfg, mode, s', es[n]);
      FollowsOn(s, Emissions(cfg, mode, s, es[..n]), s', EmittedAt(cfg, s', es[n]), Stepped(cfg, mode, s', es[n]));
    }
  }

  function SignedQtys(fills: seq<Fill>): seq<real> {
    seq(|fills|, i requires 0 <= i < |fills| => fills[i].Signed())
  }

  /** Fills of one order at one price leave its instrument's position as the slices would. */
  lemma {:induction false} HeldAfterSlices(b: Book, fills: seq<Fill>, t: Ticket, price: real)
    requires forall i :: 0 <= i < |fills| ==> fills[i].instrument.key == t.instrument.key ==> fills[i].orderId == t.id
    requires forall i :: 0 <= i < |fills| ==> fills[i].orderId == t.id ==>
               fills[i].instrument == t.instrument && fills[i].price == price
    ensures Held(PostedAll(b, fills), t.instrument)
            == TradedAll(Held(b, t.instrument), SignedQtys(FillsOf(fills, t.id)), price)
  {
    if fills != [] {
      var n := |fills| - 1;
      HeldAfterSlices(b, fills[..n], t, price);
      HeldPosted(PostedAll(b, fills[..n]), fills[n], t.instrument);
      if fills[n].orderId == t.id {
        TradedAllSnoc(Held(b, t.instrument), FillsOf(fills[..n], t.id), fills[n], price);
      } else {
        assert FillsOf(fills, t.id) == FillsOf(fills[..n], t.id);
      }
    }
  }

  lemma HeldPosted(b: Book, f: Fill, i: Instrument)
    requires f.instrument.key == i.key ==> f.instrument == i
    ensures Held(Posted(b, f), i) == if f.instrument.key == i.key then Traded(Held(b, i), f.Signed(), f.price) else Held(b, i)
  {
  }

  lemma TradedAllSnoc(p: Pos, fills: seq<Fill>, f: Fill, price: real)
    ensures TradedAll(p, SignedQtys(fills + [f]), price) == Traded(TradedAll(p, SignedQtys(fills), price), f.Signed(), price)
  {
    assert SignedQtys(fills + [f])[..|fills|] == SignedQtys(fills);
  }

  /** The fills of an order, signed, sum to its signed quantity and all point one way. */
  lemma {:induction false} SignedSlices(t: Ticket, fills: seq<Fill>)
    requires forall i :: 0 <= i < |fills| ==> FillFor(t, fills[i])
    ensures Sum(SignedQtys(fills)) == SignedQty(t.side, QtyOf(fills)) && OneSided(SignedQtys(fills))
  {
    if fills != [] {
      var n := |fills| - 1;
      SignedSlices(t, fills[..n]);
      assert SignedQtys(fills)[..n] == SignedQtys(fills[..n]);
    }
  }

  lemma {:induction false} OwnFillsAreFor(t: Ticket, fills: seq<Fill>, own: seq<Fill>, i: nat)
    requires own == FillsOf(fills, t.id) && i < |fills| && fills[i].orderId == t.id
    requires forall j :: 0 <= j < |own| ==> FillFor(t, own[j])
    ensures FillFor(t, fills[i])
  {
    var n := |fills| - 1;
    var before := FillsOf(fills[..n], t.id);
    if i == n {
      assert own[|own| - 1] == fills[n];
    } else {
      assert forall j :: 0 <= j < |before| ==> own[j] == before[j];
      OwnFillsAreFor(t, fills[..n], before, i);
    }
  }

  lemma {:induction false} LimitNotional(t: Ticket, fills: seq<Fill>)
    requires t.orderType.Limit? && forall i :: 0 <= i < |fills| ==> FillFor(t, fills[i])
    ensures NotionalPaid(fills) == t.limitPrice.value * QtyOf(fills)
  {
    if fills != [] {
      LimitNotional(t, fills[..|fills| - 1]);
    }
  }

  lemma NothingTraded(l: Life)
    requires l.fills == [] && l.rec.filledQty == 0.0 && l.rec.avgFillPrice.None? && l.rec.status == Sent
    ensures Conserved(l) && TrueAverage(l.rec, l.fills)
  {
  }

  /** From placement on, an order's fills are those emitted since. */
  lemma PlacedRun(cfg: SimConfig, mode: string, s: SimState, t: Ticket, es: seq<Event>)
    requires SoundConfig(cfg) && Sound(s) && Attributed(s) && t.id !in s.orders
    requires Legal(cfg, mode, Placed(cfg, s, NewOrder(t)), es)
    ensures var s0 := Placed(cfg, s, NewOrder(t)); var s' := Run(cfg, mode, s0, es);
            && t.id in s'.orders && s'.orders[t.id].ticket == t
            && Conserved(LifeOf(s', t.id)) && TrueAverage(s'.orders[t.id], FillsOf(s'.queue, t.id))
            && FillsOf(s'.queue, t.id) == FillsOf(Emissions(cfg, mode, s0, es), t.id)
  {
    hide Run, RunLife, Conserved, TrueAverage, Emissions;
    var s0 := Placed(cfg, s, NewOrder(t));
    UnknownHasNoFills(s.queue, t.id);
    PlacedLife(cfg, s, t, t.id);
    RunIsPerOrder(cfg, mode, s0, es, t.id);
    NothingTraded(LifeOf(s0, t.id));
    RunKeepsConserved(cfg, LifeOf(s0, t.id), es);
    LedgersFollow(cfg, mode, s0, es);
    FillsOfConcat(s0.queue, Emissions(cfg, mode, s0, es), t.id);
  }

  /** A limit order that trades alone on its instrument moves the position exactly as one trade of
      its whole quantity at the limit, whatever the cap cut it into, and averages its limit. */
  lemma LimitOrderIsOneTrade(cfg: SimConfig, mode: string, s: SimState, t: Ticket, es: seq<Event>,
                             s': SimState, out: seq<Fill>)
    requires SoundConfig(cfg) && Sound(s) && Attributed(s) && t.id !in s.orders && t.orderType.Limit?
    requires Legal(cfg, mode, Placed(cfg, s, NewOrder(t)), es)
    requires s' == Run(cfg, mode, Placed(cfg, s, NewOrder(t)), es)
    requires out == Emissions(cfg, mode, Placed(cfg, s, NewOrder(t)), es)
    requires t.id in s'.orders && s'.orders[t.id].status == Filled
    requires forall i :: 0 <= i < |out| ==> out[i].instrument.key == t.instrument.key ==> out[i].orderId == t.id
    ensures s'.orders[t.id].avgFillPrice == Some(t.limitPrice.value)
    ensures Held(s'.positions, t.instrument)
            == Traded(Held(s.positions, t.instrument), SignedQty(t.side, t.qty), t.limitPrice.value)
  {
    PlacedRun(cfg, mode, s, t, es);
    LedgersFollow(cfg, mode, Placed(cfg, s, NewOrder(t)), es);
    LimitAverage(LifeOf(s', t.id));
    OwnFillsAreOneTrade(s.positions, out, t);
  }

  lemma OwnFillsAreOneTrade(b: Book, out: seq<Fill>, t: Ticket)
    requires t.orderType.Limit?
    requires var own := FillsOf(out, t.id);
             QtyOf(own) == t.qty && forall j :: 0 <= j < |own| ==> FillFor(t, own[j])
    requires forall i :: 0 <= i < |out| ==> out[i].instrument.key == t.instrument.key ==> out[i].orderId == t.id
    ensures Held(PostedAll(b, out), t.instrument)
            == Traded(Held(b, t.instrument), SignedQty(t.side, t.qty), t.limitPrice.value)
  {
    var own := FillsOf(out, t.id);
    forall i | 0 <= i < |out| && out[i].orderId == t.id
      ensures FillFor(t, out[i])
    {
      OwnFillsAreFor(t, out, own, i);
    }
    HeldAfterSlices(b, out, t, t.limitPrice.value);
    SignedSlices(t, own);
    SlicingInvariance(Held(b, t.instrument), SignedQtys(own), t.limitPrice.value);
  }

  /** From its first fill on, a limit order's average is its limit. */
  lemma LimitAverage(l: Life)
    requires Conserved(l) && TrueAverage(l.rec, l.fills) && l.fills != [] && l.rec.ticket.orderType.Limit?
    ensures l.rec.avgFillPrice == Some(l.rec.ticket.limitPrice.value)
  {
    LimitNotional(l.rec.ticket, l.fills);
    PositiveTotal(l.rec.ticket, l.fills);
    SameQuotient(l.rec.filledQty, l.rec.avgFillPrice.value, l.rec.ticket.limitPrice.value, NotionalPaid(l.fills));
  }

  lemma {:induction false} PositiveTotal(t: Ticket, fills: seq<Fill>)
    requires forall i :: 0 <= i < |fills| ==> FillFor(t, fills[i])
    ensures QtyOf(fills) >= 0.0 && (fills != [] ==> QtyOf(fills) > 0.0)
  {
    if fills != [] {
      PositiveTotal(t, fills[..|fills| - 1]);
    }
  }

  lemma SameQuotient(q: real, a: real, b: real, n: real)
    requires q > 0.0 && a * q == n && n == b * q
    ensures a == b
  {
    assert (a - b) * q == 0.0;
  }

  lemma {:induction false} RunKeepsConserved(cfg: SimConfig, l: Life, es: seq<Event>)
    requires SoundConfig(cfg) && Conserved(l) && TrueAverage(l.rec, l.fills)
    ensures var l' := RunLife(cfg, l, es);
            Conserved(l') && TrueAverage(l'.rec, l'.fills) && l'.rec.ticket == l.rec.ticket
  {
    hide VisitedLife, TrueAverage;
    if es != [] {
      var n := |es| - 1;
      RunKeepsConserved(cfg, l, es[..n]);
      if es[n].Tick? && es[n].q.Price().Some? {
        VisitConserves(cfg, es[n].q.Price().value, es[n].q.instrument.key, RunLife(cfg, l, es[..n]));
        VisitKeepsIdentity(cfg, es[n].q.Price().value, es[n].q.instrument.key, RunLife(cfg, l, es[..n]));
      }
    }
  }
}
