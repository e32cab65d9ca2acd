/** Position discipline of a backtest: with no latency and no cap, a strategy that answers each
    bar with at most one signal for that bar's instrument is always flat or long ten, never short. */
module Discipline {
  import opened Core
  import opened Ledgers
  import opened SimModel
  import opened Risk
  import opened OmsModel
  import opened Portfolio
  import opened OrderLife
  import opened OrderTheorems
  import opened BacktestModel
  import opened LedgerTheorems
  import opened BacktestOrders
  import opened SharedRecord
  import opened SelfFinancing

  /** The queued orders of one instrument. */
  function OnKey(pending: seq<Pend>, orders: Orders, key: string): seq<Pend>
    requires Known(orders, pending)
  {
    if pending == [] then []
    else
      var p := pending[|pending| - 1];
      OnKey(pending[..|pending| - 1], orders, key) + if orders[p.id].ticket.instrument.key == key then [p] else []
  }

  /** The other queued orders. */
  function OffKey(pending: seq<Pend>, orders: Orders, key: string): (off: seq<Pend>)
    requires Known(orders, pending)
    ensures Known(orders, off)
  {
    if pending == [] then []
    else
      var p := pending[|pending| - 1];
      OffKey(pending[..|pending| - 1], orders, key) + if orders[p.id].ticket.instrument.key != key then [p] else []
  }

  /** A queued order of an uncapped backtest without latency: whole, and due at once. */
  predicate Whole(p: Pend, r: OrderRec) {
    p.bars <= 0 && r.ticket.orderType.Market? && r.filledQty == 0.0
  }

  predicate AllWhole(pending: seq<Pend>, orders: Orders) {
    Known(orders, pending) && forall i :: 0 <= i < |pending| ==> Whole(pending[i], orders[pending[i].id])
  }

  function WholeFill(cfg: SimConfig, r: OrderRec, price: real): Fill
    requires r.ticket.orderType.Market?
  {
    TryMatch(cfg, r, price).value
  }

  function WholeFills(cfg: SimConfig, price: real, pending: seq<Pend>, orders: Orders): seq<Fill>
    requires AllWhole(pending, orders)
  {
    seq(|pending|, i requires 0 <= i < |pending| => WholeFill(cfg, orders[pending[i].id], price))
  }

  lemma VisitedWhole(cfg: SimConfig, price: real, key: string, p: Pend, r: OrderRec)
    requires cfg.maxQtyPerBar.None? && Whole(p, r)
    ensures var v := Visited(cfg, price, key, p.bars, r);
            if r.ticket.instrument.key == key then v.kept.None? && v.fill == Some(WholeFill(cfg, r, price))
            else v == Visit(r, Some(p.bars), None)
    ensures WholeFill(cfg, r, price).Signed() == SignedQty(r.ticket.side, r.ticket.qty)
    ensures WholeFill(cfg, r, price).instrument == r.ticket.instrument
  {
  }

  lemma {:induction false} OnKeyWhole(pending: seq<Pend>, orders: Orders, key: string)
    requires AllWhole(pending, orders)
    ensures AllWhole(OnKey(pending, orders, key), orders)
  {
    if pending != [] {
      OnKeyWhole(pending[..|pending| - 1], orders, key);
    }
  }

  lemma WholeFillsSnoc(cfg: SimConfig, price: real, due: seq<Pend>, p: Pend, orders: Orders)
    requires AllWhole(due, orders) && p.id in orders && Whole(p, orders[p.id])
    ensures AllWhole(due + [p], orders)
    ensures WholeFills(cfg, price, due + [p], orders)
            == WholeFills(cfg, price, due, orders) + [WholeFill(cfg, orders[p.id], price)]
  {
  }

  lemma NoWholeFills(cfg: SimConfig, price: real, orders: Orders)
    ensures WholeFills(cfg, price, [], orders) == []
  {
  }

  lemma WholeStep(cfg: SimConfig, price: real, key: string, w: Sweep, p: Pend, r: OrderRec, v: Visit,
                  due: seq<Pend>, due': seq<Pend>, orders: Orders)
    requires cfg.maxQtyPerBar.None? && p.id in orders && orders[p.id] == r && Whole(p, r) && AllWhole(due, orders)
    requires v == Visited(cfg, price, key, p.bars, r) && w.emitted == WholeFills(cfg, price, due, orders)
    requires due' == due + if r.ticket.instrument.key == key then [p] else []
    ensures AllWhole(due', orders) && w.emitted + Listed(v.fill) == WholeFills(cfg, price, due', orders)
    ensures Requeued(p.id, v.kept) == if r.ticket.instrument.key != key then [p] else []
  {
    hide Visited, WholeFill, WholeFills;
    VisitedWhole(cfg, price, key, p, r);
    if r.ticket.instrument.key == key {
      WholeFillsSnoc(cfg, price, due, p, orders);
    } else {
      assert due' == due;
    }
  }

  /** A tick empties the queue of its instrument and fills those orders whole; the rest stays. */
  lemma {:induction false} SweptWhole(cfg: SimConfig, price: real, key: string, s: SimState, n: nat)
    requires cfg.maxQtyPerBar.None? && Sound(s) && AllWhole(s.pending, s.orders) && n <= |s.pending|
    requires Distinct(s.pending[..n])
    ensures var w, due := Swept(cfg, price, key, s.pending, s.orders, n), OnKey(s.pending[..n], s.orders, key);
            && w.still == OffKey(s.pending[..n], s.orders, key)
            && AllWhole(due, s.orders) && w.emitted == WholeFills(cfg, price, due, s.orders)
  {
    hide Visited, WholeFill, WholeFills;
    if n == 0 {
      NoWholeFills(cfg, price, s.orders);
    } else {
      var p, before := s.pending[n - 1], s.pending[..n - 1];
      assert s.pending[..n][..n - 1] == before;
      SweptWhole(cfg, price, key, s, n - 1);
      SweptLife(cfg, price, key, s.pending, s.orders, n - 1, p.id);
      var w := Swept(cfg, price, key, s.pending, s.orders, n - 1);
      WholeStep(cfg, price, key, w, p, s.orders[p.id], Visited(cfg, price, key, p.bars, w.orders[p.id]),
                OnKey(before, s.orders, key), OnKey(s.pending[..n], s.orders, key), s.orders);
    }
  }

  // ---- One key at a time ----

  predicate SameTickets(orders: Orders, orders': Orders) {
    orders.Keys <= orders'.Keys && forall id :: id in orders ==> orders'[id].ticket == orders[id].ticket
  }

  lemma {:induction false} OnKeyOffKey(pending: seq<Pend>, orders: Orders, orders': Orders, off: string, key: string)
    requires Known(orders, pending) && SameTickets(orders, orders')
    ensures var rest := OffKey(pending, orders, off);
            && Known(orders', rest)
            && OnKey(rest, orders', key) == if key == off then [] else OnKey(pending, orders, key)
  {
    if pending != [] {
      var n := |pending| - 1;
      OnKeyOffKey(pending[..n], orders, orders', off, key);
      var rest, p := OffKey(pending[..n], orders, off), pending[n];
      if orders[p.id].ticket.instrument.key != off {
        assert (rest + [p])[..|rest|] == rest;
      } else {
        assert rest + [] == rest;
      }
    }
  }

  lemma {:induction false} OnKeySame(pending: seq<Pend>, orders: Orders, orders': Orders, key: string)
    requires Known(orders, pending) && SameTickets(orders, orders')
    ensures Known(orders', pending) && OnKey(pending, orders', key) == OnKey(pending, orders, key)
  {
    if pending != [] {
      OnKeySame(pending[..|pending| - 1], orders, orders', key);
    }
  }

  lemma {:induction false} OffKeyKeepsWaits(pending: seq<Pend>, orders: Orders, off: string)
    requires Known(orders, pending)
    ensures forall i :: 0 <= i < |OffKey(pending, orders, off)| ==> OffKey(pending, orders, off)[i] in pending
  {
    if pending != [] {
      OffKeyKeepsWaits(pending[..|pending| - 1], orders, off);
    }
  }

  lemma {:induction false} QueuedWaits(pending: seq<Pend>, i: nat)
    requires i < |pending|
    ensures WaitOf(pending, pending[i].id).Some?
  {
    if i < |pending| - 1 {
      QueuedWaits(pending[..|pending| - 1], i);
    }
  }

  /** Without a cap a queued order of a backtest is untouched. */
  lemma QueuedAreWhole(cfg: SimConfig, w: World)
    requires cfg.maxQtyPerBar.None? && AllDoubleBooked(cfg, w)
    requires forall i :: 0 <= i < |w.oms.sim.pending| ==> w.oms.sim.pending[i].bars <= 0
    ensures AllWhole(w.oms.sim.pending, w.oms.sim.orders)
  {
    var sim := w.oms.sim;
    forall i | 0 <= i < |sim.pending|
      ensures Whole(sim.pending[i], sim.orders[sim.pending[i].id])
    {
      QueuedWaits(sim.pending, i);
      assert DoubleBooked(cfg, LifeOf(sim, sim.pending[i].id));
    }
  }

  /** One instrument's position, and what may be queued for it. */
  predicate Ready(qty: real, due: seq<Pend>, orders: Orders)
    requires Known(orders, due)
  {
    && (qty == 0.0 || qty == 10.0) && |due| <= 1
    && (|due| == 1 ==> SignedQty(orders[due[0].id].ticket.side, orders[due[0].id].ticket.qty) == 10.0 - 2.0 * qty)
  }

  lemma {:induction false} OnKeyKnown(pending: seq<Pend>, orders: Orders, key: string)
    requires Known(orders, pending)
    ensures Known(orders, OnKey(pending, orders, key))
  {
    if pending != [] {
      OnKeyKnown(pending[..|pending| - 1], orders, key);
    }
  }

  ghost predicate ReadyAt(w: World, key: string)
    requires Coherent(w)
  {
    OnKeyKnown(w.oms.sim.pending, w.oms.sim.orders, key);
    Ready(QtyAt(w.trk.positions, key), OnKey(w.oms.sim.pending, w.oms.sim.orders, key), w.oms.sim.orders)
  }

  /** The invariant: every instrument is flat or long ten, with at most the order that toggles it. */
  ghost predicate Disciplined(cfg: SimConfig, w: World)
    requires SoundConfig(cfg)
  {
    && Agree(w) && AllDoubleBooked(cfg, w) && AllWhole(w.oms.sim.pending, w.oms.sim.orders)
    && forall key :: ReadyAt(w, key)
  }

  lemma TickKeepsTickets(cfg: SimConfig, w: World, bar: Bar)
    requires Sound(w.oms.sim)
    ensures SameTickets(w.oms.sim.orders, BarTicked(cfg, w, bar).oms.sim.orders)
  {
    ForwardedRest(w.(oms := w.oms.(sim := Ticked(cfg, w.oms.sim, bar.Quote()))), BarFills(cfg, w, bar));
    forall id | id in w.oms.sim.orders
      ensures BarTicked(cfg, w, bar).oms.sim.orders[id].ticket == w.oms.sim.orders[id].ticket
    {
      BarTickedLife(cfg, w, bar, id);
      var l := LifeOf(w.oms.sim, id);
      VisitedTwiceCases(cfg, bar.close, bar.instrument.key, l, VisitedTwice(cfg, bar.close, bar.instrument.key, l));
    }
  }

  /** What a bar does to the queue and the ledgers of a disciplined backtest. */
  lemma TickParts(cfg: SimConfig, w: World, bar: Bar)
    requires cfg.maxQtyPerBar.None? && Sound(w.oms.sim) && AllWhole(w.oms.sim.pending, w.oms.sim.orders)
    ensures var sim, w', key := w.oms.sim, BarTicked(cfg, w, bar), bar.instrument.key;
            var due := OnKey(sim.pending, sim.orders, key);
            && w'.oms.sim.pending == OffKey(sim.pending, sim.orders, key)
            && AllWhole(due, sim.orders)
            && BarFills(cfg, w, bar) == WholeFills(cfg, bar.close, due, sim.orders)
            && w'.trk.positions == PostedAll(w.trk.positions, BarFills(cfg, w, bar))
  {
    var sim := w.oms.sim;
    assert bar.Quote().Price() == Some(bar.close);
    assert sim.pending[..|sim.pending|] == sim.pending;
    SweptWhole(cfg, bar.close, bar.instrument.key, sim, |sim.pending|);
    var w1 := w.(oms := w.oms.(sim := Ticked(cfg, sim, bar.Quote())));
    ForwardedAllParts(w1, BarFills(cfg, w, bar));
    SettledAllParts(w.trk, BarFills(cfg, w, bar));
  }

  lemma {:induction false} TradedElsewhere(fills: seq<Fill>, on: string, key: string)
    requires AllOn(fills, on) && key != on
    ensures TradedOn(fills, key) == 0.0
  {
    if fills != [] {
      TradedElsewhere(fills[..|fills| - 1], on, key);
    }
  }

  lemma WholeFillsTotal(cfg: SimConfig, price: real, due: seq<Pend>, orders: Orders, fills: seq<Fill>, key: string)
    requires cfg.maxQtyPerBar.None? && AllWhole(due, orders) && |due| <= 1
    requires fills == WholeFills(cfg, price, due, orders) && AllOn(fills, key)
    ensures TradedOn(fills, key) ==
            if due == [] then 0.0 else SignedQty(orders[due[0].id].ticket.side, orders[due[0].id].ticket.qty)
  {
    if due != [] {
      VisitedWhole(cfg, price, orders[due[0].id].ticket.instrument.key, due[0], orders[due[0].id]);
      var f := WholeFill(cfg, orders[due[0].id], price);
      assert fills == [f] && [f][..0] == [];
    }
  }

  /** A bar moves the position of its instrument by its one due order, and no other position. */
  lemma TickMoves(cfg: SimConfig, w: World, bar: Bar, key: string)
    requires cfg.maxQtyPerBar.None? && Disciplined(cfg, w)
    ensures var sim, on := w.oms.sim, bar.instrument.key;
            var due := OnKey(sim.pending, sim.orders, on);
            && Known(sim.orders, due)
            && QtyAt(BarTicked(cfg, w, bar).trk.positions, key) == QtyAt(w.trk.positions, key) +
                 if key == on && due != [] then SignedQty(sim.orders[due[0].id].ticket.side, sim.orders[due[0].id].ticket.qty)
                 else 0.0
  {
    hide DoubleBooked, PostedAll, WholeFill, BarTicked, TradedOn, Agree, BarFills;
    var sim, on := w.oms.sim, bar.instrument.key;
    TickParts(cfg, w, bar);
    BarFillsOnOne(cfg, sim, bar);
    BarFillsAreEmitted(cfg, w, bar);
    assert ReadyAt(w, on);
    OnKeyKnown(sim.pending, sim.orders, on);
    QtyMoves(w.trk.positions, BarFills(cfg, w, bar), key);
    if key == on {
      WholeFillsTotal(cfg, bar.close, OnKey(sim.pending, sim.orders, on), sim.orders, BarFills(cfg, w, bar), key);
    } else {
      TradedElsewhere(BarFills(cfg, w, bar), on, key);
    }
  }

  lemma BarFillsAreEmitted(cfg: SimConfig, w: World, bar: Bar)
    requires Coherent(w)
    ensures BarFills(cfg, w, bar) == Emitted(cfg, w.oms.sim, bar.Quote())
  {
  }

  lemma TickKeepsReady(cfg: SimConfig, w: World, bar: Bar, key: string)
    requires cfg.maxQtyPerBar.None? && Disciplined(cfg, w)
    ensures var w' := BarTicked(cfg, w, bar);
            && ReadyAt(w', key)
            && (key == bar.instrument.key ==> OnKey(w'.oms.sim.pending, w'.oms.sim.orders, key) == [])
  {
    hide DoubleBooked, PostedAll, WholeFills, BarTicked, TradedOn, Agree;
    var sim, on := w.oms.sim, bar.instrument.key;
    TickParts(cfg, w, bar);
    TickKeepsTickets(cfg, w, bar);
    TickMoves(cfg, w, bar, key);
    OnKeyOffKey(sim.pending, sim.orders, BarTicked(cfg, w, bar).oms.sim.orders, on, key);
    assert ReadyAt(w, key) && ReadyAt(w, on);
    OnKeyKnown(sim.pending, sim.orders, key);
  }

  lemma TickKeepsDiscipline(cfg: SimConfig, w: World, bar: Bar)
    requires cfg.maxQtyPerBar.None? && Disciplined(cfg, w)
    ensures Disciplined(cfg, BarTicked(cfg, w, bar))
    ensures var sim := BarTicked(cfg, w, bar).oms.sim;
            OnKey(sim.pending, sim.orders, bar.instrument.key) == []
  {
    hide DoubleBooked, PostedAll, BarTicked, ReadyAt, Agree;
    TickKeepsAgreement(cfg, w, bar);
    TickKeepsDoubleBooked(cfg, w, bar);
    TickParts(cfg, w, bar);
    OffKeyKeepsWaits(w.oms.sim.pending, w.oms.sim.orders, bar.instrument.key);
    QueuedAreWhole(cfg, BarTicked(cfg, w, bar));
    TickKeepsReady(cfg, w, bar, bar.instrument.key);
    forall key
      ensures ReadyAt(BarTicked(cfg, w, bar), key)
    {
      TickKeepsReady(cfg, w, bar, key);
    }
  }

  lemma PlacedOnKey(pending: seq<Pend>, orders: Orders, r: OrderRec, bars: int, key: string)
    requires Known(orders, pending) && r.ticket.id !in orders
    ensures var orders' := orders[r.ticket.id := r];
            && Known(orders', pending + [Pend(r.ticket.id, bars)]) && Known(orders', pending)
            && OnKey(pending, orders', key) == OnKey(pending, orders, key)
            && OnKey(pending + [Pend(r.ticket.id, bars)], orders', key)
               == OnKey(pending, orders, key) + if r.ticket.instrument.key == key then [Pend(r.ticket.id, bars)] else []
  {
    OnKeySame(pending, orders, orders[r.ticket.id := r], key);
    assert (pending + [Pend(r.ticket.id, bars)])[..|pending|] == pending;
  }

  /** The engine's order, on an instrument with nothing queued, is the one that toggles it. */
  lemma ToggleOrder(w: World, cue: Cue)
    requires Coherent(w) && ReadyAt(w, cue.signal.instrument.key) && OrderOn(w, cue).Some?
    ensures var t, qty := OrderOn(w, cue).value, QtyAt(w.trk.positions, cue.signal.instrument.key);
            && SignedQty(t.side, t.qty) == 10.0 - 2.0 * qty && t.instrument == cue.signal.instrument
            && t.orderType.Market? && t.mode == MODE && t.id == w.nOrders
  {
  }

  /** Routing a new order queues at most that order. */
  lemma RoutedQueues(cfg: SimConfig, sim: SimState, t: Ticket, v: Verdict, key: string)
    requires Known(sim.orders, sim.pending) && t.id !in sim.orders
    ensures var sim' := Routed(cfg, sim, NewOrder(t), v);
            && Known(sim'.orders, sim'.pending) && SameTickets(sim.orders, sim'.orders)
            && t.id in sim'.orders && sim'.orders[t.id].ticket == t
            && var due, due' := OnKey(sim.pending, sim.orders, key), OnKey(sim'.pending, sim'.orders, key);
               due' == due || (t.instrument.key == key && due' == due + [Pend(t.id, cfg.latencyBars)])
  {
    if v == Passed {
      PlacedOnKey(sim.pending, sim.orders, NewOrder(t).(brokerOrderId := Some(sim.brokerIds), status := Sent),
                  cfg.latencyBars, key);
    } else {
      PlacedOnKey(sim.pending, sim.orders, NewOrder(t).(status := Rejected), cfg.latencyBars, key);
    }
  }

  /** A cue queues at most the order it makes. */
  lemma CueQueues(cfg: SimConfig, limits: RiskLimits, w: World, cue: Cue, key: string)
    requires Separate(w)
    ensures var sim, sim' := w.oms.sim, Cued(cfg, limits, w, cue).oms.sim;
            && SameTickets(sim.orders, sim'.orders)
            && var due, due' := OnKey(sim.pending, sim.orders, key), OnKey(sim'.pending, sim'.orders, key);
               due' == due || (&& OrderOn(w, cue).Some? && cue.signal.instrument.key == key
                               && due' == due + [Pend(w.nOrders, cfg.latencyBars)]
                               && w.nOrders in sim'.orders && sim'.orders[w.nOrders].ticket == OrderOn(w, cue).value)
  {
    hide OnKey, Routed, Judged, Checked;
    if OrderOn(w, cue).Some? {
      var t := OrderOn(w, cue).value;
      RoutedQueues(cfg, w.oms.sim, t, VerdictOn(limits, MODE, w.oms, t, cue.now), key);
    }
  }

  lemma CueKeepsReady(cfg: SimConfig, limits: RiskLimits, w: World, cue: Cue, key: string)
    requires SoundConfig(cfg) && Disciplined(cfg, w)
    requires OnKey(w.oms.sim.pending, w.oms.sim.orders, cue.signal.instrument.key) == []
    ensures ReadyAt(Cued(cfg, limits, w, cue), key)
  {
    hide DoubleBooked, Agree, OrderOn, Submitted;
    assert ReadyAt(w, key) && ReadyAt(w, cue.signal.instrument.key);
    OnKeyKnown(w.oms.sim.pending, w.oms.sim.orders, key);
    CueQueues(cfg, limits, w, cue, key);
    if OrderOn(w, cue).Some? {
      ToggleOrder(w, cue);
    }
  }

  lemma CueQueuesDue(cfg: SimConfig, limits: RiskLimits, w: World, cue: Cue)
    requires Coherent(w) && cfg.latencyBars <= 0
    requires forall i :: 0 <= i < |w.oms.sim.pending| ==> w.oms.sim.pending[i].bars <= 0
    ensures var sim := Cued(cfg, limits, w, cue).oms.sim;
            forall i :: 0 <= i < |sim.pending| ==> sim.pending[i].bars <= 0
  {
  }

  lemma CueKeepsDiscipline(cfg: SimConfig, limits: RiskLimits, w: World, cue: Cue)
    requires cfg.maxQtyPerBar.None? && cfg.latencyBars <= 0 && Disciplined(cfg, w)
    requires OnKey(w.oms.sim.pending, w.oms.sim.orders, cue.signal.instrument.key) == []
    ensures Disciplined(cfg, Cued(cfg, limits, w, cue))
  {
    hide DoubleBooked, Agree, ReadyAt, OrderOn, Submitted;
    CueKeepsAgreement(cfg, limits, w, cue);
    CueKeepsDoubleBooked(cfg, limits, w, cue);
    CueQueuesDue(cfg, limits, w, cue);
    QueuedAreWhole(cfg, Cued(cfg, limits, w, cue));
    forall key
      ensures ReadyAt(Cued(cfg, limits, w, cue), key)
    {
      CueKeepsReady(cfg, limits, w, cue, key);
    }
  }

  /** A strategy that answers a bar with at most one signal, for that bar's instrument. */
  predicate OneSignal(step: Step) {
    |step.cues| <= 1 && forall i :: 0 <= i < |step.cues| ==> step.cues[i].signal.instrument == step.bar.instrument
  }

  lemma StepKeepsDiscipline(cfg: SimConfig, limits: RiskLimits, w: World, step: Step)
    requires cfg.maxQtyPerBar.None? && cfg.latencyBars <= 0 && Disciplined(cfg, w) && OneSignal(step)
    ensures Disciplined(cfg, BarRun(cfg, limits, w, step))
  {
    hide DoubleBooked, Agree, BarTicked, Cued, ReadyAt;
    TickKeepsDiscipline(cfg, w, step.bar);
    var w1 := BarTicked(cfg, w, step.bar);
    if step.cues == [] {
      MarkKeepsDiscipline(cfg, w1, step.bar);
    } else {
      assert step.cues[..|step.cues| - 1] == [] && CuedAll(cfg, limits, w1, []) == w1;
      assert CuedAll(cfg, limits, w1, step.cues) == Cued(cfg, limits, w1, step.cues[0]);
      CueKeepsDiscipline(cfg, limits, w1, step.cues[0]);
      MarkKeepsDiscipline(cfg, Cued(cfg, limits, w1, step.cues[0]), step.bar);
    }
  }

  lemma MarkKeepsDiscipline(cfg: SimConfig, w: World, bar: Bar)
    requires SoundConfig(cfg) && Disciplined(cfg, w)
    ensures Disciplined(cfg, BarMarked(w, bar))
  {
    forall key
      ensures ReadyAt(BarMarked(w, bar), key)
    {
      assert ReadyAt(w, key);
    }
  }

  lemma {:induction false} BacktestsAreDisciplined(cfg: SimConfig, limits: RiskLimits, steps: seq<Step>)
    requires cfg.maxQtyPerBar.None? && cfg.latencyBars <= 0
    requires forall i :: 0 <= i < |steps| ==> OneSignal(steps[i])
    ensures Disciplined(cfg, Backtest(cfg, limits, steps))
  {
    if steps == [] {
      NewWorldAgrees(cfg);
    } else {
      var n := |steps| - 1;
      BacktestsAreDisciplined(cfg, limits, steps[..n]);
      StepKeepsDiscipline(cfg, limits, Backtest(cfg, limits, steps[..n]), steps[n]);
    }
  }

  /** After every bar, for every price series, every pattern of risk rejections and any number of
      instruments: each position is 0 or 10, never short, with at most one order queued for it. */
  lemma FlatOrLongTen(cfg: SimConfig, limits: RiskLimits, steps: seq<Step>, key: string)
    requires cfg.maxQtyPerBar.None? && cfg.latencyBars <= 0
    requires forall i :: 0 <= i < |steps| ==> OneSignal(steps[i])
    ensures var w := Backtest(cfg, limits, steps);
            var qty := QtyAt(w.trk.positions, key);
            && (qty == 0.0 || qty == 10.0) && QtyAt(w.oms.sim.positions, key) == qty
            && |OnKey(w.oms.sim.pending, w.oms.sim.orders, key)| <= 1
  {
    BacktestsAreDisciplined(cfg, limits, steps);
    assert ReadyAt(Backtest(cfg, limits, steps), key);
  }
}
