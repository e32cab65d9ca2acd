/** Orders inside a backtest. The broker and the OMS hold one object per order and both book every
    fill on it; these are the consequences, exactly. */
module BacktestOrders {
  import opened Core
  import opened SimModel
  import opened Risk
  import opened OmsModel
  import opened OrderLife
  import opened OrderTheorems
  import opened BacktestModel

  function ExecutedAll(r: OrderRec, fills: seq<Fill>): OrderRec {
    if fills == [] then r else Executed(ExecutedAll(r, fills[..|fills| - 1]), fills[|fills| - 1])
  }

  /** Forwarding fills books each a second time, on the record of its own order. */
  lemma {:induction false} ForwardedOrders(w: World, fills: seq<Fill>, id: Id)
    requires id in w.oms.sim.orders && SelfKeyed(w.oms.sim.orders)
    ensures var orders := ForwardedAll(w, fills).oms.sim.orders;
            SelfKeyed(orders) && orders[id] == ExecutedAll(w.oms.sim.orders[id], FillsOf(fills, id))
  {
    if fills != [] {
      var n := |fills| - 1;
      ForwardedOrders(w, fills[..n], id);
      RefilledOrders(ForwardedAll(w, fills[..n]).oms.sim.orders, fills[n], id);
      var before := FillsOf(fills[..n], id);
      if fills[n].orderId == id {
        assert (before + [fills[n]])[..|before|] == before;
      } else {
        assert before + [] == before;
      }
    }
  }

  lemma RefilledOrders(orders: Orders, f: Fill, id: Id)
    requires id in orders && SelfKeyed(orders)
    ensures SelfKeyed(RecordFilled(orders, f))
    ensures RecordFilled(orders, f)[id] == if f.orderId == id then Executed(orders[id], f) else orders[id]
  {
  }

  /** A visit of the matching loop followed by the OMS's booking of what it emitted. */
  function VisitedTwice(cfg: SimConfig, price: real, key: string, l: Life): Life {
    var once := VisitedLife(cfg, price, key, l.(fills := []));
    Life(ExecutedAll(once.rec, once.fills), once.wait, l.fills + once.fills)
  }

  lemma VisitAppends(cfg: SimConfig, price: real, key: string, l: Life)
    ensures var once := VisitedLife(cfg, price, key, l.(fills := []));
            VisitedLife(cfg, price, key, l) == once.(fills := l.fills + once.fills)
  {
    assert l.fills + [] == l.fills;
  }

  /** A bar either leaves an order alone but for its wait, or fills it once and books that twice. */
  lemma VisitedTwiceCases(cfg: SimConfig, price: real, key: string, l: Life, l': Life)
    requires l' == VisitedTwice(cfg, price, key, l)
    ensures l.wait.None? ==> l' == l
    ensures l'.fills == l.fills ==> l'.rec == l.rec && (l'.wait.Some? <==> l.wait.Some?)
    ensures l'.fills != l.fills ==>
              && l.wait.Some? && |l'.fills| == |l.fills| + 1
              && var f := l'.fills[|l.fills|];
                 && l'.fills == l.fills + [f] && f.qty == FillQty(cfg, l.rec)
                 && l'.rec == Executed(Executed(l.rec, f), f)
                 && (l'.wait.Some? <==> Executed(l.rec, f).status != Filled)
                 && f.instrument == l.rec.ticket.instrument && f.instrument.key == key
  {
    if l.wait.Some? {
      var v := Visited(cfg, price, key, l.wait.value, l.rec);
      VisitCases(cfg, price, key, l.wait.value, l.rec);
      if v.fill.Some? {
        assert [v.fill.value][..0] == [];
        assert [] + [v.fill.value] == [v.fill.value];
        assert ExecutedAll(v.rec, [v.fill.value]) == Executed(v.rec, v.fill.value);
      } else {
        assert l.fills + ([] + []) == l.fills;
      }
    }
  }

  /** What keeps orders apart in a backtest: the broker's state is sound, and the next uuid is new. */
  ghost predicate Separate(w: World) {
    Sound(w.oms.sim) && Attributed(w.oms.sim) && forall id :: id in w.oms.sim.orders ==> id < w.nOrders
  }

  lemma ForwardedRest(w: World, fills: seq<Fill>)
    ensures var w' := ForwardedAll(w, fills);
            w'.oms.sim == w.oms.sim.(orders := w'.oms.sim.orders) && w'.nOrders == w.nOrders
  {
    if fills != [] {
      ForwardedRest(w, fills[..|fills| - 1]);
    }
  }

  /** The fills a tick emits for one order. */
  lemma SweptEmits(cfg: SimConfig, price: real, key: string, s: SimState, id: Id)
    requires Sound(s) && id in s.orders
    ensures FillsOf(Swept(cfg, price, key, s.pending, s.orders, |s.pending|).emitted, id)
            == VisitedLife(cfg, price, key, LifeOf(s, id).(fills := [])).fills
  {
    assert s.pending[..|s.pending|] == s.pending;
    SweptLife(cfg, price, key, s.pending, s.orders, |s.pending|, id);
  }

  lemma ForwardedLife(w: World, fills: seq<Fill>, id: Id, l: Life, once: Life)
    requires Sound(w.oms.sim) && id in w.oms.sim.orders && FillsOf(fills, id) == once.fills
    requires LifeOf(w.oms.sim, id) == once.(fills := l.fills + once.fills)
    ensures var sim := ForwardedAll(w, fills).oms.sim;
            Sound(sim) && LifeOf(sim, id) == Life(ExecutedAll(once.rec, once.fills), once.wait, l.fills + once.fills)
  {
    ForwardedOrders(w, fills, id);
    ForwardedRest(w, fills);
  }

  /** The broker's part of a bar, seen from one order. */
  lemma BarVisit(cfg: SimConfig, s: SimState, bar: Bar, id: Id, l: Life, once: Life)
    requires Sound(s) && id in s.orders && l == LifeOf(s, id)
    requires once == VisitedLife(cfg, bar.close, bar.instrument.key, l.(fills := []))
    ensures var s' := Ticked(cfg, s, bar.Quote());
            && Sound(s') && id in s'.orders && LifeOf(s', id) == once.(fills := l.fills + once.fills)
            && FillsOf(Emitted(cfg, s, bar.Quote()), id) == once.fills
  {
    assert bar.Quote().Price() == Some(bar.close);
    TickedIsPerOrder(cfg, s, bar.Quote(), id);
    SweptEmits(cfg, bar.close, bar.instrument.key, s, id);
    VisitAppends(cfg, bar.close, bar.instrument.key, l);
  }

  /** A bar acts on every order independently of the others. */
  lemma BarTickedLife(cfg: SimConfig, w: World, bar: Bar, id: Id)
    requires Sound(w.oms.sim) && id in w.oms.sim.orders
    ensures var sim := BarTicked(cfg, w, bar).oms.sim;
            && Sound(sim)
            && LifeOf(sim, id) == VisitedTwice(cfg, bar.close, bar.instrument.key, LifeOf(w.oms.sim, id))
  {
    var s, l := w.oms.sim, LifeOf(w.oms.sim, id);
    var once := VisitedLife(cfg, bar.close, bar.instrument.key, l.(fills := []));
    BarVisit(cfg, s, bar, id, l, once);
    ForwardedLife(w.(oms := w.oms.(sim := Ticked(cfg, s, bar.Quote()))), BarFills(cfg, w, bar), id, l, once);
  }

  // ---- What a run keeps ----

  lemma TickKeepsAttribution(cfg: SimConfig, w: World, bar: Bar)
    requires Sound(w.oms.sim) && Attributed(w.oms.sim)
    ensures var w' := BarTicked(cfg, w, bar);
            Attributed(w'.oms.sim) && w'.oms.sim.orders.Keys == w.oms.sim.orders.Keys
  {
    var s := w.oms.sim;
    SweptAttributed(cfg, bar.close, bar.instrument.key, s.pending, s.orders, |s.pending|);
    StepKeepsAttribution(cfg, MODE, s, Tick(bar.Quote()));
    ForwardedRest(w.(oms := w.oms.(sim := Ticked(cfg, s, bar.Quote()))), BarFills(cfg, w, bar));
  }

  lemma TickKeepsSeparate(cfg: SimConfig, w: World, bar: Bar)
    requires Separate(w)
    ensures Separate(BarTicked(cfg, w, bar))
  {
    TickKeepsAttribution(cfg, w, bar);
    if w.oms.sim.pending != [] {
      BarTickedLife(cfg, w, bar, w.oms.sim.pending[0].id);
    } else {
      TickOfIdleBroker(cfg, w, bar);
    }
  }

  /** With nothing queued a bar only marks. */
  lemma TickOfIdleBroker(cfg: SimConfig, w: World, bar: Bar)
    requires w.oms.sim.pending == []
    ensures BarFills(cfg, w, bar) == [] && BarTicked(cfg, w, bar) == w
  {
    assert Swept(cfg, bar.close, bar.instrument.key, [], w.oms.sim.orders, 0) == Sweep(w.oms.sim.orders, [], []);
    assert w.oms.sim.queue + [] == w.oms.sim.queue;
    assert Ticked(cfg, w.oms.sim, bar.Quote()) == w.oms.sim;
  }

  /** What becomes of the order a cue makes: queued, or rejected. */
  function Submittal(cfg: SimConfig, w: World, t: Ticket, passed: bool): Life {
    if passed then
      Life(NewOrder(t).(brokerOrderId := Some(w.oms.sim.brokerIds), status := Sent), Some(cfg.latencyBars), [])
    else Life(NewOrder(t).(status := Rejected), None, [])
  }

  lemma CuedLife(cfg: SimConfig, limits: RiskLimits, w: World, cue: Cue, id: Id)
    requires Separate(w) && id in Cued(cfg, limits, w, cue).oms.sim.orders
    ensures var w' := Cued(cfg, limits, w, cue);
            && Separate(w')
            && (id in w.oms.sim.orders ==> LifeOf(w'.oms.sim, id) == LifeOf(w.oms.sim, id))
            && (id !in w.oms.sim.orders ==>
                  && OrderOn(w, cue).Some? && OrderOn(w, cue).value.id == id
                  && LifeOf(w'.oms.sim, id) == Submittal(cfg, w, OrderOn(w, cue).value,
                       VerdictOn(limits, MODE, w.oms, OrderOn(w, cue).value, cue.now) == Passed))
  {
    var order := OrderOn(w, cue);
    if order.Some? {
      var t := order.value;
      UnknownHasNoFills(w.oms.sim.queue, t.id);
      QueuedIsKnown(w.oms.sim.pending, w.oms.sim.orders, t.id);
      PlacedLife(cfg, w.oms.sim, t, id);
    }
  }

  lemma CueKeepsSeparate(cfg: SimConfig, limits: RiskLimits, w: World, cue: Cue)
    requires Separate(w)
    ensures Separate(Cued(cfg, limits, w, cue))
  {
    if OrderOn(w, cue).Some? {
      CuedLife(cfg, limits, w, cue, OrderOn(w, cue).value.id);
    }
  }

  lemma {:induction false} CuesKeepSeparate(cfg: SimConfig, limits: RiskLimits, w: World, cues: seq<Cue>)
    requires Separate(w)
    ensures Separate(CuedAll(cfg, limits, w, cues))
  {
    if cues != [] {
      CuesKeepSeparate(cfg, limits, w, cues[..|cues| - 1]);
      CueKeepsSeparate(cfg, limits, CuedAll(cfg, limits, w, cues[..|cues| - 1]), cues[|cues| - 1]);
    }
  }
}
