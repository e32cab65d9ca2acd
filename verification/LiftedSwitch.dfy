/** A run that trips the kill-switch and then trades its way out of it: a sale that was queued
    before the trip fills afterwards, at a profit, and orders pass again. */
module LiftedSwitch {
  import opened Core
  import opened Totals
  import opened Positions
  import opened Ledgers
  import opened SimModel
  import opened Risk
  import opened OmsModel
  import opened KillSwitch
  import opened LimitQueue

  const MODE := "backtest"

  const LIMITS := RiskLimits(None, None, 60, Some(100.0))

  function LimitOrder(id: Id, i: Instrument, side: Side, limit: real): Ticket {
    Ticket(id, i, side, 10.0, Limit, Some(limit), None, MODE)
  }

  // ---- The OMS at one moment of the run ----

  /** What is queued, the two positions, and the profit; `tries` counts the risk checks so far. */
  ghost predicate Stage(cfg: SimConfig, o: OmsState, queued: seq<Ticket>, a: Pos, b: Pos, pnl: real, tries: nat) {
    && Queued(cfg, o.sim, queued) && |o.risk.orderTimes| <= tries
    && Held(o.positions, a.instrument) == a && Held(o.positions, b.instrument) == b
    && o.risk.dailyRealisedPnl == pnl == Total(RealisedPnls(o.positions))
  }

  /** An order short of the limit passes and joins the queue; at the limit it is stopped. */
  lemma SubmitStage(cfg: SimConfig, o: OmsState, queued: seq<Ticket>, t: Ticket, a: Pos, b: Pos, pnl: real, tries: nat, now: real)
    requires Stage(cfg, o, queued, a, b, pnl, tries) && tries < 60 && IsLimit(t) && t.mode == MODE
    requires forall i :: 0 <= i < |queued| ==> queued[i].id < t.id
    ensures var o' := Submitted(cfg, LIMITS, MODE, o, NewOrder(t), now);
            && VerdictOn(LIMITS, MODE, o, t, now) == (if pnl > -100.0 then Passed else KillSwitch)
            && Stage(cfg, o', if pnl > -100.0 then queued + [t] else queued, a, b, pnl, tries + 1)
            && o'.sim.brokerIds == o.sim.brokerIds + if pnl > -100.0 then 1 else 0
  {
    hide Recent, Submitted;
    RecentIsShorter(o.risk.orderTimes, now - 60.0);
    SubmitQueues(cfg, LIMITS, MODE, o, queued, t, now);
  }

  // ---- The run ----

  function Trade(i: Instrument, price: real): Quote {
    Quote(i, None, None, Some(price))
  }

  /** Ten of `b` bought at 10; then a round trip in `a`, from 20 down to 10, and a sale of the ten of
      `b` at 30, are queued. A price of 15 in `a` makes the loss of 100 that trips the switch. An
      order is stopped; `b` reaches 30; and an order passes. */
  function Run(a: Instrument, b: Instrument): seq<HostEvent> {
    [Submit(LimitOrder(0, b, Buy, 10.0), 0.0), Push(Trade(b, 10.0)),
     Submit(LimitOrder(1, a, Buy, 20.0), 1.0), Submit(LimitOrder(2, a, Sell, 10.0), 2.0),
     Submit(LimitOrder(3, b, Sell, 30.0), 3.0),
     Push(Trade(a, 15.0)), Submit(LimitOrder(4, a, Buy, 1.0), 4.0), Push(Trade(b, 30.0)), Submit(LimitOrder(5, a, Buy, 1.0), 5.0)]
  }

  ghost function At(cfg: SimConfig, a: Instrument, b: Instrument, k: nat): (o: OmsState)
    requires k <= 9
    ensures Known(o.sim.orders, o.sim.pending)
  {
    HostedAll(cfg, LIMITS, MODE, NewOms(cfg), Run(a, b)[..k])
  }

  lemma AtNext(cfg: SimConfig, a: Instrument, b: Instrument, k: nat)
    requires k < 9
    ensures At(cfg, a, b, 0) == NewOms(cfg)
    ensures At(cfg, a, b, k + 1) == Hosted(cfg, LIMITS, MODE, At(cfg, a, b, k), Run(a, b)[k])
  {
    hide Hosted;
    var es := Run(a, b);
    assert es[..k + 1][..k] == es[..k] && es[..0] == [];
  }

  lemma RoundTrip(i: Instrument, p: Pos, price: real)
    ensures Traded(Flat(i), 10.0, price) == Pos(i, 10.0, price, 0.0)
    ensures p.instrument == i && p.qty == 10.0 ==>
              Traded(p, -10.0, price) == Pos(i, 0.0, 0.0, p.pnl + 10.0 * price - 10.0 * p.avg)
  {
  }

  /** A push that fills one order: the book, and with it the profit, moves by that one trade. */
  lemma PushStage(cfg: SimConfig, o: OmsState, q: Quote, price: real, queued: seq<Ticket>, a: Pos, b: Pos, pnl: real,
                  tries: nat, fills: seq<Fill>, missed: seq<Ticket>, a': Pos, b': Pos, pnl': real)
    requires cfg.maxQtyPerBar.None? && cfg.latencyBars <= 0 && q.Price() == Some(price)
    requires Stage(cfg, o, queued, a, b, pnl, tries)
    requires fills == Hits(cfg, queued, q.instrument.key, price) && fills != []
    requires missed == Misses(queued, q.instrument.key, price)
    requires var book := PostedAll(o.positions, fills);
             Held(book, a'.instrument) == a' && Held(book, b'.instrument) == b' && Total(RealisedPnls(book)) == pnl'
    ensures Known(o.sim.orders, o.sim.pending)
    ensures var o' := Hosted(cfg, LIMITS, MODE, o, Push(q));
            Stage(cfg, o', missed, a', b', pnl', tries) && o'.sim.brokerIds == o.sim.brokerIds
  {
    hide Hosted, Hits, Misses, Queued;
    PushBooks(cfg, LIMITS, MODE, o, q, price, queued);
  }

  lemma SubmitNext(cfg: SimConfig, a: Instrument, b: Instrument, k: nat, queued: seq<Ticket>, p: Pos, q: Pos, pnl: real,
                   tries: nat)
    requires k < 9 && Run(a, b)[k].Submit? && Stage(cfg, At(cfg, a, b, k), queued, p, q, pnl, tries) && tries < 60
    requires forall i :: 0 <= i < |queued| ==> queued[i].id < Run(a, b)[k].t.id
    ensures var e := Run(a, b)[k];
            && VerdictOn(LIMITS, MODE, At(cfg, a, b, k), e.t, e.now) == (if pnl > -100.0 then Passed else Verdict.KillSwitch)
            && Stage(cfg, At(cfg, a, b, k + 1), if pnl > -100.0 then queued + [e.t] else queued, p, q, pnl, tries + 1)
            && At(cfg, a, b, k + 1).sim.brokerIds == At(cfg, a, b, k).sim.brokerIds + if pnl > -100.0 then 1 else 0
  {
    hide Stage, Submitted, At;
    AtNext(cfg, a, b, k);
    SubmitStage(cfg, At(cfg, a, b, k), queued, Run(a, b)[k].t, p, q, pnl, tries, Run(a, b)[k].now);
  }

  lemma Opened(cfg: SimConfig, a: Instrument, b: Instrument)
    requires cfg.maxQtyPerBar.None? && cfg.latencyBars <= 0 && a.key != b.key
    ensures Stage(cfg, At(cfg, a, b, 2), [], Flat(a), Pos(b, 10.0, 10.0, 0.0), 0.0, 1)
  {
    hide At, PostedAll;
    AtNext(cfg, a, b, 0);
    AtNext(cfg, a, b, 1);
    assert RealisedPnls(map[]) == map[];
    var t := LimitOrder(0, b, Buy, 10.0);
    SubmitNext(cfg, a, b, 0, [], Flat(a), Flat(b), 0.0, 0);
    assert [] + [t] == [t];
    OneHit(cfg, t, b.key, 10.0);
    var book, f := At(cfg, a, b, 1).positions, LimitFill(cfg, t);
    PostOne(book, f);
    PostedPnl(book, f);
    RoundTrip(b, Flat(b), 10.0);
    PushStage(cfg, At(cfg, a, b, 1), Trade(b, 10.0), 10.0, [t], Flat(a), Flat(b), 0.0, 1, [f], [],
              Flat(a), Pos(b, 10.0, 10.0, 0.0), 0.0);
  }

  function RoundTripInA(a: Instrument, b: Instrument): seq<Ticket> {
    [LimitOrder(1, a, Buy, 20.0), LimitOrder(2, a, Sell, 10.0), LimitOrder(3, b, Sell, 30.0)]
  }

  lemma Loaded(cfg: SimConfig, a: Instrument, b: Instrument)
    requires cfg.maxQtyPerBar.None? && cfg.latencyBars <= 0 && a.key != b.key
    ensures Stage(cfg, At(cfg, a, b, 5), RoundTripInA(a, b), Flat(a), Pos(b, 10.0, 10.0, 0.0), 0.0, 4)
  {
    hide At, Stage;
    var ts := RoundTripInA(a, b);
    Opened(cfg, a, b);
    SubmitNext(cfg, a, b, 2, [], Flat(a), Pos(b, 10.0, 10.0, 0.0), 0.0, 1);
    assert [] + [ts[0]] == ts[..1];
    SubmitNext(cfg, a, b, 3, ts[..1], Flat(a), Pos(b, 10.0, 10.0, 0.0), 0.0, 2);
    assert ts[..1] + [ts[1]] == ts[..2];
    SubmitNext(cfg, a, b, 4, ts[..2], Flat(a), Pos(b, 10.0, 10.0, 0.0), 0.0, 3);
    assert ts[..2] + [ts[2]] == ts;
  }

  lemma RoundTripHits(cfg: SimConfig, a: Instrument, b: Instrument)
    requires a.key != b.key
    ensures var ts := RoundTripInA(a, b);
            && Hits(cfg, ts, a.key, 15.0) == [LimitFill(cfg, ts[0]), LimitFill(cfg, ts[1])]
            && Misses(ts, a.key, 15.0) == [ts[2]]
  {
    hide Hits, Misses, LimitFill;
    var ts := RoundTripInA(a, b);
    OneHit(cfg, ts[0], a.key, 15.0);
    NextNames(cfg, ts, 2, a.key, 15.0);
    NextNames(cfg, ts, 3, a.key, 15.0);
    assert ts[..1] == [ts[0]] && ts[..3] == ts;
  }

  lemma LossInA(cfg: SimConfig, book: Book, a: Instrument, b: Instrument)
    requires a.key != b.key && Held(book, a) == Flat(a)
    ensures var ts := RoundTripInA(a, b);
            var book' := PostedAll(book, [LimitFill(cfg, ts[0]), LimitFill(cfg, ts[1])]);
            && Held(book', a) == Pos(a, 0.0, 0.0, -100.0) && Held(book', b) == Held(book, b)
            && Total(RealisedPnls(book')) == Total(RealisedPnls(book)) - 100.0
  {
    hide PostedAll;
    var ts := RoundTripInA(a, b);
    var f, g := LimitFill(cfg, ts[0]), LimitFill(cfg, ts[1]);
    PostTwo(book, f, g);
    PostedPnl(book, f);
    PostedPnl(Posted(book, f), g);
    RoundTrip(a, Flat(a), 20.0);
    RoundTrip(a, Pos(a, 10.0, 20.0, 0.0), 10.0);
  }

  lemma ProfitInB(cfg: SimConfig, book: Book, a: Instrument, b: Instrument)
    requires a.key != b.key && Held(book, b) == Pos(b, 10.0, 10.0, 0.0)
    ensures var book' := PostedAll(book, [LimitFill(cfg, LimitOrder(3, b, Sell, 30.0))]);
            && Held(book', a) == Held(book, a) && Held(book', b) == Pos(b, 0.0, 0.0, 200.0)
            && Total(RealisedPnls(book')) == Total(RealisedPnls(book)) + 200.0
  {
    hide PostedAll;
    var f := LimitFill(cfg, LimitOrder(3, b, Sell, 30.0));
    PostOne(book, f);
    PostedPnl(book, f);
    RoundTrip(b, Pos(b, 10.0, 10.0, 0.0), 30.0);
  }

  /** The loss of 100, with the sale of `b` still queued. */
  lemma Tripped(cfg: SimConfig, a: Instrument, b: Instrument)
    requires cfg.maxQtyPerBar.None? && cfg.latencyBars <= 0 && a.key != b.key
    ensures Stage(cfg, At(cfg, a, b, 6), [LimitOrder(3, b, Sell, 30.0)], Pos(a, 0.0, 0.0, -100.0), Pos(b, 10.0, 10.0, 0.0),
                  -100.0, 4)
    ensures At(cfg, a, b, 6).sim.brokerIds == At(cfg, a, b, 5).sim.brokerIds
  {
    hide At, Hits, Misses, PostedAll, Held, Queued, Hosted, LimitFill, Total;
    var ts := RoundTripInA(a, b);
    var f, g := LimitFill(cfg, ts[0]), LimitFill(cfg, ts[1]);
    Loaded(cfg, a, b);
    AtNext(cfg, a, b, 5);
    RoundTripHits(cfg, a, b);
    LossInA(cfg, At(cfg, a, b, 5).positions, a, b);
    PushStage(cfg, At(cfg, a, b, 5), Trade(a, 15.0), 15.0, ts, Flat(a), Pos(b, 10.0, 10.0, 0.0), 0.0, 4, [f, g], [ts[2]],
              Pos(a, 0.0, 0.0, -100.0), Pos(b, 10.0, 10.0, 0.0), -100.0);
  }

  /** The queued sale fills at 30 and brings the profit to 100. */
  lemma Lifted(cfg: SimConfig, a: Instrument, b: Instrument)
    requires cfg.maxQtyPerBar.None? && cfg.latencyBars <= 0 && a.key != b.key
    ensures Stage(cfg, At(cfg, a, b, 8), [], Pos(a, 0.0, 0.0, -100.0), Pos(b, 0.0, 0.0, 200.0), 100.0, 5)
    ensures At(cfg, a, b, 8).sim.brokerIds == At(cfg, a, b, 7).sim.brokerIds
  {
    hide At, PostedAll, Held, Queued, Hosted, LimitFill, Total;
    var t, p := LimitOrder(3, b, Sell, 30.0), Pos(a, 0.0, 0.0, -100.0);
    Tripped(cfg, a, b);
    SubmitNext(cfg, a, b, 6, [t], p, Pos(b, 10.0, 10.0, 0.0), -100.0, 4);
    AtNext(cfg, a, b, 7);
    OneHit(cfg, t, b.key, 30.0);
    var f := LimitFill(cfg, t);
    ProfitInB(cfg, At(cfg, a, b, 7).positions, a, b);
    PushStage(cfg, At(cfg, a, b, 7), Trade(b, 30.0), 30.0, [t], p, Pos(b, 10.0, 10.0, 0.0), -100.0, 5, [f], [],
              p, Pos(b, 0.0, 0.0, 200.0), 100.0);
  }

  /** The trip is not for good: an order judged by the switch just after the trip is stopped; the
      queued sale lifts the profit above the limit; the next order passes and is sent. */
  lemma QueuedSaleLiftsSwitch(cfg: SimConfig, a: Instrument, b: Instrument)
    requires cfg.maxQtyPerBar.None? && cfg.latencyBars <= 0 && a.key != b.key
    ensures var stopped, passed := Run(a, b)[6], Run(a, b)[8];
            && VerdictOn(LIMITS, MODE, At(cfg, a, b, 6), stopped.t, stopped.now) == Verdict.KillSwitch
            && Killed(LIMITS, At(cfg, a, b, 7).risk.dailyRealisedPnl) && !Killed(LIMITS, At(cfg, a, b, 8).risk.dailyRealisedPnl)
            && VerdictOn(LIMITS, MODE, At(cfg, a, b, 8), passed.t, passed.now) == Passed
            && At(cfg, a, b, 8).sim.brokerIds == At(cfg, a, b, 6).sim.brokerIds
            && At(cfg, a, b, 9).sim.brokerIds == At(cfg, a, b, 6).sim.brokerIds + 1
  {
    hide At, Queued;
    var t, p := LimitOrder(3, b, Sell, 30.0), Pos(a, 0.0, 0.0, -100.0);
    Tripped(cfg, a, b);
    SubmitNext(cfg, a, b, 6, [t], p, Pos(b, 10.0, 10.0, 0.0), -100.0, 4);
    Lifted(cfg, a, b);
    SubmitNext(cfg, a, b, 8, [], p, Pos(b, 0.0, 0.0, 200.0), 100.0, 5);
  }
}
