/** Queues that cannot lift the kill-switch: those that only open or add to positions. */
module OpeningQueue {
  import opened Core
  import opened Totals
  import opened Positions
  import opened Ledgers
  import opened SimModel
  import opened Risk
  import opened OmsModel
  import opened OrderLife
  import opened OrderTheorems
  import opened KillSwitch

  /** No queued order trades against the position held in its instrument, nor against another queued
      order of it. */
  predicate OnlyOpens(o: OmsState)
    requires Known(o.sim.orders, o.sim.pending)
  {
    forall i :: 0 <= i < |o.sim.pending| ==>
      var r := o.sim.orders[o.sim.pending[i].id];
      && r.Remaining() >= 0.0
      && SignedQty(r.ticket.side, QtyAt(o.positions, r.ticket.instrument.key)) >= 0.0
      && forall j :: 0 <= j < |o.sim.pending| ==>
           var other := o.sim.orders[o.sim.pending[j].id].ticket;
           other.instrument.key == r.ticket.instrument.key ==> other.side == r.ticket.side
  }

  /** The side on which each instrument may be traded. */
  type Sides = string -> Side

  predicate Adds(sides: Sides, t: Ticket, qty: real) {
    t.side == sides(t.instrument.key) && qty >= 0.0
  }

  predicate AllAdd(sides: Sides, pending: seq<Pend>, orders: Orders)
    requires Known(orders, pending)
  {
    forall i :: 0 <= i < |pending| ==> Adds(sides, orders[pending[i].id].ticket, orders[pending[i].id].Remaining())
  }

  predicate FillsAdd(sides: Sides, fills: seq<Fill>) {
    forall i :: 0 <= i < |fills| ==> fills[i].side == sides(fills[i].instrument.key) && fills[i].qty >= 0.0
  }

  predicate Sided(sides: Sides, b: Book) {
    forall key :: key in b ==> SignedQty(sides(key), b[key].qty) >= 0.0
  }

  /** The OMS's figure for the day is the profit its positions have realised; every fill makes it so. */
  ghost predicate Booked(o: OmsState) {
    o.risk.dailyRealisedPnl == Total(RealisedPnls(o.positions))
  }

  /** It is so in every run from the start. */
  lemma {:induction false} RunsAreBooked(cfg: SimConfig, limits: RiskLimits, mode: string, es: seq<HostEvent>)
    ensures Booked(HostedAll(cfg, limits, mode, NewOms(cfg), es))
  {
    if es == [] {
      assert RealisedPnls(map[]) == map[];
    } else {
      var n := |es| - 1;
      RunsAreBooked(cfg, limits, mode, es[..n]);
      var o := HostedAll(cfg, limits, mode, NewOms(cfg), es[..n]);
      if es[n].Push? {
        FilledParts(o.(sim := Ticked(cfg, o.sim, es[n].q)), Emitted(cfg, o.sim, es[n].q));
      }
    }
  }

  ghost predicate Opening(sides: Sides, o: OmsState) {
    && Sound(o.sim) && Booked(o)
    && AllAdd(sides, o.sim.pending, o.sim.orders) && Sided(sides, o.positions)
  }

  // ---- A tick's fills ----

  /** Without a cap an order that a visit leaves queued was not filled, and one that it fills is
      filled whole. */
  lemma VisitAdds(cfg: SimConfig, price: real, key: string, bars: int, r: OrderRec, sides: Sides)
    requires cfg.maxQtyPerBar.None? && Adds(sides, r.ticket, r.Remaining())
    ensures var v := Visited(cfg, price, key, bars, r);
            && (v.kept.Some? ==> v.rec == r && v.fill.None?)
            && FillsAdd(sides, Listed(v.fill))
  {
    VisitCases(cfg, price, key, bars, r);
  }

  lemma {:induction false} SweptAdds(cfg: SimConfig, price: real, key: string, pending: seq<Pend>, orders: Orders,
                                     n: nat, sides: Sides)
    requires cfg.maxQtyPerBar.None? && n <= |pending| && Known(orders, pending) && SelfKeyed(orders)
    requires Distinct(pending[..n]) && AllAdd(sides, pending, orders)
    ensures FillsAdd(sides, Swept(cfg, price, key, pending, orders, n).emitted)
  {
    hide Visited, Adds;
    if n > 0 {
      var p := pending[n - 1];
      assert pending[..n][..n - 1] == pending[..n - 1];
      SweptAdds(cfg, price, key, pending, orders, n - 1, sides);
      SweptLife(cfg, price, key, pending, orders, n - 1, p.id);
      VisitAdds(cfg, price, key, p.bars, orders[p.id], sides);
    }
  }

  lemma {:induction false} QueuedHaveWaits(pending: seq<Pend>, id: Id)
    ensures WaitOf(pending, id).Some? <==> id in Ids(pending)
  {
    if pending != [] {
      var n := |pending| - 1;
      assert pending == pending[..n] + [pending[n]];
      QueuedHaveWaits(pending[..n], id);
    }
  }

  /** What a tick leaves queued it has not touched. */
  lemma StillUntouched(cfg: SimConfig, s: SimState, q: Quote, id: Id, sides: Sides)
    requires cfg.maxQtyPerBar.None? && Sound(s) && AllAdd(sides, s.pending, s.orders)
    requires id in Ids(Ticked(cfg, s, q).pending)
    ensures id in Ids(s.pending) && Ticked(cfg, s, q).orders[id] == s.orders[id]
    ensures FillsOf(Emitted(cfg, s, q), id) == []
  {
    hide Visited, Swept, Adds;
    if q.Price().Some? {
      var price, key := q.Price().value, q.instrument.key;
      assert s.pending[..|s.pending|] == s.pending;
      SweptFromQueue(cfg, price, key, s.pending, s.orders, |s.pending|);
      SweptLife(cfg, price, key, s.pending, s.orders, |s.pending|, id);
      QueuedHaveWaits(s.pending, id);
      QueuedHaveWaits(Ticked(cfg, s, q).pending, id);
      VisitAdds(cfg, price, key, WaitOf(s.pending, id).value, s.orders[id], sides);
    }
  }

  // ---- Booking them ----

  /** Adding to a position realises nothing. */
  lemma AddedPnl(p: Pos, f: Fill, side: Side)
    requires f.side == side && f.qty >= 0.0 && SignedQty(side, p.qty) >= 0.0
    ensures var p' := Traded(p, f.Signed(), f.price);
            p'.pnl == p.pnl && SignedQty(side, p'.qty) >= 0.0
  {
    if f.qty == 0.0 {
      EmptyTrade(p, f.price, Traded(p, 0.0, f.price));
    }
  }

  lemma EmptyTrade(p: Pos, price: real, p': Pos)
    requires Accounts(p, 0.0, price, p')
    ensures p'.pnl == p.pnl && p'.qty == p.qty
  {
    if p.qty > 0.0 {
      assert p'.avg == p.avg;
    }
  }

  lemma {:induction false} AddingRealisesNothing(b: Book, fills: seq<Fill>, sides: Sides)
    requires Sided(sides, b) && FillsAdd(sides, fills)
    ensures var b' := PostedAll(b, fills);
            Sided(sides, b') && Total(RealisedPnls(b')) == Total(RealisedPnls(b))
  {
    if fills != [] {
      var n := |fills| - 1;
      AddingRealisesNothing(b, fills[..n], sides);
      var b', f := PostedAll(b, fills[..n]), fills[n];
      AddedPnl(Held(b', f.instrument), f, sides(f.instrument.key));
      PostedPnl(b', f);
    }
  }

  lemma {:induction false} OthersUnbooked(o: OmsState, fills: seq<Fill>, id: Id)
    requires id in o.sim.orders && FillsOf(fills, id) == []
    ensures FilledOmsAll(o, fills).sim.orders[id] == o.sim.orders[id]
  {
    if fills != [] {
      OthersUnbooked(o, fills[..|fills| - 1], id);
    }
  }

  // ---- One event ----

  lemma PushOpens(cfg: SimConfig, o: OmsState, q: Quote, sides: Sides)
    requires cfg.maxQtyPerBar.None? && Opening(sides, o)
    ensures var o' := FilledOmsAll(o.(sim := Ticked(cfg, o.sim, q)), Emitted(cfg, o.sim, q));
            Opening(sides, o') && o'.risk.dailyRealisedPnl == o.risk.dailyRealisedPnl
  {
    hide Swept, Adds, FilledOmsAll, PostedAll, Total, FillsAdd, Sided, CashPostedAll, FillsOf, WaitOf;
    var ticked, fills := o.(sim := Ticked(cfg, o.sim, q)), Emitted(cfg, o.sim, q);
    var o' := FilledOmsAll(ticked, fills);
    if q.Price().Some? {
      var price, key := q.Price().value, q.instrument.key;
      assert o.sim.pending[..|o.sim.pending|] == o.sim.pending;
      SweptAdds(cfg, price, key, o.sim.pending, o.sim.orders, |o.sim.pending|, sides);
      SweptFromQueue(cfg, price, key, o.sim.pending, o.sim.orders, |o.sim.pending|);
    }
    FilledParts(ticked, fills);
    AddingRealisesNothing(o.positions, fills, sides);
    TickStaysDistinct(cfg, o.sim, q);
    forall i | 0 <= i < |o'.sim.pending|
      ensures Adds(sides, o'.sim.orders[o'.sim.pending[i].id].ticket, o'.sim.orders[o'.sim.pending[i].id].Remaining())
    {
      var id := o'.sim.pending[i].id;
      StillUntouched(cfg, o.sim, q, id, sides);
      OthersUnbooked(ticked, fills, id);
    }
  }

  lemma TickStaysDistinct(cfg: SimConfig, s: SimState, q: Quote)
    requires Sound(s)
    ensures Distinct(Ticked(cfg, s, q).pending) && SelfKeyed(Ticked(cfg, s, q).orders)
  {
    if s.pending != [] {
      TickedIsPerOrder(cfg, s, q, s.pending[0].id);
    }
  }

  lemma OpeningStep(cfg: SimConfig, limits: RiskLimits, mode: string, o: OmsState, e: HostEvent, sides: Sides)
    requires cfg.maxQtyPerBar.None? && Opening(sides, o) && Killed(limits, o.risk.dailyRealisedPnl)
    requires e.Submit? ==> e.t.id !in Ids(o.sim.pending)
    ensures var o' := Hosted(cfg, limits, mode, o, e);
            Opening(sides, o') && o'.risk.dailyRealisedPnl == o.risk.dailyRealisedPnl
  {
    match e
    case Push(q) =>
      PushOpens(cfg, o, q, sides);
    case Submit(t, now) =>
      assert VerdictOn(limits, mode, o, t, now) != Passed;
      assert forall i :: 0 <= i < |o.sim.pending| ==> o.sim.pending[i].id in Ids(o.sim.pending);
  }

  // ---- Whole runs ----

  ghost function SideFor(o: OmsState, key: string): Side
    requires Known(o.sim.orders, o.sim.pending)
  {
    if i :| 0 <= i < |o.sim.pending| && o.sim.orders[o.sim.pending[i].id].ticket.instrument.key == key
    then o.sim.orders[o.sim.pending[i].id].ticket.side
    else if QtyAt(o.positions, key) >= 0.0 then Buy else Sell
  }

  lemma {:induction false} OpeningRun(cfg: SimConfig, limits: RiskLimits, mode: string, o: OmsState, es: seq<HostEvent>,
                                      sides: Sides)
    requires cfg.maxQtyPerBar.None? && Opening(sides, o) && Killed(limits, o.risk.dailyRealisedPnl)
    requires forall i :: 0 <= i < |es| && es[i].Submit? ==> es[i].t.id !in Ids(o.sim.pending)
    ensures Opening(sides, HostedAll(cfg, limits, mode, o, es)) && Holds(limits, o, HostedAll(cfg, limits, mode, o, es))
  {
    hide Booked, AllAdd, Sided, Hosted, Killed;
    HoldsAtFirst(limits, o);
    if es != [] {
      var n := |es| - 1;
      OpeningRun(cfg, limits, mode, o, es[..n], sides);
      var o' := HostedAll(cfg, limits, mode, o, es[..n]);
      OpeningStep(cfg, limits, mode, o', es[n], sides);
      TrippedStep(cfg, limits, mode, o', es[n]);
    }
  }

  /** From a trip whose queue only opens or adds to positions, over any run without a cap and with
      fresh uuids, the switch holds for good. */
  lemma OpeningQueueHolds(cfg: SimConfig, limits: RiskLimits, mode: string, o: OmsState, es: seq<HostEvent>)
    requires cfg.maxQtyPerBar.None? && Sound(o.sim) && Booked(o) && OnlyOpens(o)
    requires Killed(limits, o.risk.dailyRealisedPnl)
    requires forall i :: 0 <= i < |es| && es[i].Submit? ==> es[i].t.id !in Ids(o.sim.pending)
    ensures Holds(limits, o, HostedAll(cfg, limits, mode, o, es))
  {
    var sides := key => SideFor(o, key);
    OpeningRun(cfg, limits, mode, o, es, sides);
  }
}
