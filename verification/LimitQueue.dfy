/** An uncapped queue of untouched limit orders that are due, and what a push does to it: the
    setting of the concrete runs of LiftedSwitch and Exposure. */
module LimitQueue {
  import opened Core
  import opened Totals
  import opened Ledgers
  import opened SimModel
  import opened Risk
  import opened OmsModel
  import opened KillSwitch

  predicate IsLimit(t: Ticket) {
    t.orderType.Limit?
  }

  predicate Crossed(t: Ticket, key: string, price: real)
    requires IsLimit(t)
  {
    t.instrument.key == key && if t.side.Buy? then price <= t.limitPrice.value else price >= t.limitPrice.value
  }

  function LimitFill(cfg: SimConfig, t: Ticket): Fill
    requires IsLimit(t)
  {
    Fill(t.id, t.instrument, t.side, t.qty, t.limitPrice.value, Max(cfg.feeMin, cfg.feePerShare * t.qty))
  }

  predicate Queue(queued: seq<Ticket>) {
    && (forall i :: 0 <= i < |queued| ==> IsLimit(queued[i]))
    && forall i, j :: 0 <= i < j < |queued| ==> queued[i].id < queued[j].id
  }

  /** The fills of the orders whose limits the price has crossed. */
  function Hits(cfg: SimConfig, queued: seq<Ticket>, key: string, price: real): (fills: seq<Fill>)
    requires Queue(queued)
    ensures forall i :: 0 <= i < |fills| ==>
              exists j :: 0 <= j < |queued| && Crossed(queued[j], key, price) && fills[i].orderId == queued[j].id
  {
    if queued == [] then []
    else
      var t := queued[|queued| - 1];
      Hits(cfg, queued[..|queued| - 1], key, price) + if Crossed(t, key, price) then [LimitFill(cfg, t)] else []
  }

  /** The other orders. */
  function Misses(queued: seq<Ticket>, key: string, price: real): (missed: seq<Ticket>)
    requires Queue(queued)
    ensures Queue(missed)
    ensures forall i :: 0 <= i < |missed| ==>
              exists j :: 0 <= j < |queued| && !Crossed(queued[j], key, price) && missed[i] == queued[j]
  {
    if queued == [] then []
    else
      var t := queued[|queued| - 1];
      var before := Misses(queued[..|queued| - 1], key, price);
      before + if Crossed(t, key, price) then [] else [t]
  }

  predicate Untouched(orders: Orders, t: Ticket) {
    t.id in orders && orders[t.id].ticket == t && orders[t.id].filledQty == 0.0
  }

  /** The queue holds these orders, none of them touched yet. */
  predicate Queued(cfg: SimConfig, s: SimState, queued: seq<Ticket>) {
    && Queue(queued) && |s.pending| == |queued|
    && forall i :: 0 <= i < |queued| ==> s.pending[i] == Pend(queued[i].id, cfg.latencyBars) && Untouched(s.orders, queued[i])
  }

  lemma QueuedAreKnown(cfg: SimConfig, s: SimState, queued: seq<Ticket>)
    requires Queued(cfg, s, queued)
    ensures Known(s.orders, s.pending)
  {
  }

  lemma VisitLimit(cfg: SimConfig, price: real, key: string, r: OrderRec)
    requires cfg.maxQtyPerBar.None? && cfg.latencyBars <= 0 && IsLimit(r.ticket) && r.filledQty == 0.0
    ensures var v := Visited(cfg, price, key, cfg.latencyBars, r);
            if Crossed(r.ticket, key, price) then v.kept.None? && v.fill == Some(LimitFill(cfg, r.ticket))
            else v == Visit(r, Some(cfg.latencyBars), None)
  {
  }

  predicate SweptQueue(cfg: SimConfig, w: Sweep, orders: Orders, queued: seq<Ticket>, n: nat, key: string, price: real)
    requires n <= |queued| && Queue(queued)
  {
    var missed := Misses(queued[..n], key, price);
    && w.emitted == Hits(cfg, queued[..n], key, price) && |w.still| == |missed|
    && (forall i :: 0 <= i < |missed| ==> w.still[i] == Pend(missed[i].id, cfg.latencyBars) && Untouched(w.orders, missed[i]))
    && forall i :: n <= i < |queued| ==> Untouched(w.orders, queued[i])
  }

  lemma NextLimit(cfg: SimConfig, w: Sweep, v: Visit, orders: Orders, queued: seq<Ticket>, n: nat, key: string, price: real)
    requires 0 < n <= |queued| && Queue(queued) && SweptQueue(cfg, w, orders, queued, n - 1, key, price)
    requires if Crossed(queued[n - 1], key, price) then v.kept.None? && v.fill == Some(LimitFill(cfg, queued[n - 1]))
             else v == Visit(w.orders[queued[n - 1].id], Some(cfg.latencyBars), None)
    ensures var t := queued[n - 1];
            SweptQueue(cfg, Sweep(w.orders[t.id := v.rec], w.still + Requeued(t.id, v.kept), w.emitted + Listed(v.fill)),
                       orders, queued, n, key, price)
  {
    hide Hits, Misses, Crossed, LimitFill;
    NextNames(cfg, queued, n, key, price);
    var t, missed := queued[n - 1], Misses(queued[..n - 1], key, price);
    assert w.emitted + [] == w.emitted && w.still + [] == w.still;
  }

  lemma NextNames(cfg: SimConfig, queued: seq<Ticket>, n: nat, key: string, price: real)
    requires 0 < n <= |queued| && Queue(queued)
    ensures var t, missed := queued[n - 1], Misses(queued[..n - 1], key, price);
            && Hits(cfg, queued[..n], key, price)
               == Hits(cfg, queued[..n - 1], key, price) + (if Crossed(t, key, price) then [LimitFill(cfg, t)] else [])
            && Misses(queued[..n], key, price) == missed + (if Crossed(t, key, price) then [] else [t])
            && forall i :: 0 <= i < |missed| ==> missed[i].id != t.id
  {
    hide LimitFill, Crossed;
    var t, missed := queued[n - 1], Misses(queued[..n - 1], key, price);
    assert queued[..n][..n - 1] == queued[..n - 1] && queued[..n][n - 1] == t;
    forall i | 0 <= i < |missed|
      ensures missed[i].id != t.id
    {
      var j :| 0 <= j < n - 1 && missed[i] == queued[..n - 1][j];
      assert queued[j].id < t.id;
    }
  }

  /** The matching loop fills the crossed orders whole and leaves the others as they were. */
  lemma {:induction false} SweptLimits(cfg: SimConfig, price: real, key: string, s: SimState, queued: seq<Ticket>, n: nat)
    requires cfg.maxQtyPerBar.None? && cfg.latencyBars <= 0 && Queued(cfg, s, queued) && n <= |queued|
    ensures Known(s.orders, s.pending)
    ensures SweptQueue(cfg, Swept(cfg, price, key, s.pending, s.orders, n), s.orders, queued, n, key, price)
  {
    hide Visited, Crossed, LimitFill, Misses, Hits;
    QueuedAreKnown(cfg, s, queued);
    if n == 0 {
      assert queued[..0] == [];
      NothingHit(cfg, key, price);
    } else {
      SweptLimits(cfg, price, key, s, queued, n - 1);
      var w, t := Swept(cfg, price, key, s.pending, s.orders, n - 1), queued[n - 1];
      VisitLimit(cfg, price, key, w.orders[t.id]);
      NextLimit(cfg, w, Visited(cfg, price, key, cfg.latencyBars, w.orders[t.id]), s.orders, queued, n, key, price);
    }
  }

  lemma NothingHit(cfg: SimConfig, key: string, price: real)
    ensures Hits(cfg, [], key, price) == [] && Misses([], key, price) == []
  {
  }

  lemma {:induction false} FillsLeaveOthers(o: OmsState, fills: seq<Fill>, t: Ticket)
    requires Untouched(o.sim.orders, t) && forall i :: 0 <= i < |fills| ==> fills[i].orderId != t.id
    ensures Untouched(FilledOmsAll(o, fills).sim.orders, t)
  {
    if fills != [] {
      FillsLeaveOthers(o, fills[..|fills| - 1], t);
    }
  }

  /** A push books exactly the hits. */
  lemma PushBooks(cfg: SimConfig, limits: RiskLimits, mode: string, o: OmsState, q: Quote, price: real, queued: seq<Ticket>)
    requires cfg.maxQtyPerBar.None? && cfg.latencyBars <= 0 && Queued(cfg, o.sim, queued) && q.Price() == Some(price)
    ensures Known(o.sim.orders, o.sim.pending)
    ensures var o', fills := Hosted(cfg, limits, mode, o, Push(q)), Hits(cfg, queued, q.instrument.key, price);
            && Queued(cfg, o'.sim, Misses(queued, q.instrument.key, price))
            && o'.sim.brokerIds == o.sim.brokerIds && o'.risk.orderTimes == o.risk.orderTimes
            && o'.positions == PostedAll(o.positions, fills)
            && o'.risk.dailyRealisedPnl == (if fills == [] then o.risk.dailyRealisedPnl else Total(RealisedPnls(o'.positions)))
  {
    hide Swept, Hits, Misses, Crossed;
    var key := q.instrument.key;
    SweptLimits(cfg, price, key, o.sim, queued, |queued|);
    assert queued[..|queued|] == queued;
    var fills, o1 := Hits(cfg, queued, key, price), o.(sim := Ticked(cfg, o.sim, q));
    assert Emitted(cfg, o.sim, q) == fills;
    FilledParts(o1, fills);
    forall t | t in Misses(queued, key, price)
      ensures Untouched(FilledOmsAll(o1, fills).sim.orders, t)
    {
      MissesAreNotHit(cfg, queued, key, price, t);
      FillsLeaveOthers(o1, fills, t);
    }
  }

  lemma MissesAreNotHit(cfg: SimConfig, queued: seq<Ticket>, key: string, price: real, t: Ticket)
    requires Queue(queued) && t in Misses(queued, key, price)
    ensures var fills := Hits(cfg, queued, key, price);
            forall i :: 0 <= i < |fills| ==> fills[i].orderId != t.id
  {
  }

  lemma PostOne(b: Book, f: Fill)
    ensures PostedAll(b, [f]) == Posted(b, f)
  {
    assert [f][..0] == [];
  }

  lemma PostTwo(b: Book, f: Fill, g: Fill)
    ensures PostedAll(b, [f, g]) == Posted(Posted(b, f), g)
  {
    assert [f, g][..1] == [f];
    PostOne(b, f);
  }

  lemma OneHit(cfg: SimConfig, t: Ticket, key: string, price: real)
    requires IsLimit(t) && Crossed(t, key, price)
    ensures Hits(cfg, [t], key, price) == [LimitFill(cfg, t)] && Misses([t], key, price) == []
  {
    assert [t][..0] == [];
  }

  /** An order that passes joins the queue; the check may have taken a slot, and nothing else moves. */
  lemma SubmitQueues(cfg: SimConfig, limits: RiskLimits, mode: string, o: OmsState, queued: seq<Ticket>, t: Ticket, now: real)
    requires Queued(cfg, o.sim, queued) && IsLimit(t) && forall i :: 0 <= i < |queued| ==> queued[i].id < t.id
    ensures var o', sent := Submitted(cfg, limits, mode, o, NewOrder(t), now), VerdictOn(limits, mode, o, t, now) == Passed;
            && Queued(cfg, o'.sim, if sent then queued + [t] else queued)
            && o'.sim.brokerIds == o.sim.brokerIds + (if sent then 1 else 0)
            && o'.positions == o.positions && o'.risk.dailyRealisedPnl == o.risk.dailyRealisedPnl
            && |o'.risk.orderTimes| <= |o.risk.orderTimes| + 1
  {
    hide Recent, Judged;
    RecentIsShorter(o.risk.orderTimes, now - 60.0);
  }
}
