/** src/tradingplatform/oms/manager.py as a state machine over the simulated broker. The OMS and
    the broker hold the same order objects, so there is one record per order, in `sim.orders`. */
module OmsModel {
  import opened Core
  import opened Totals
  import opened Ledgers
  import opened SimModel
  import opened Risk

  datatype OmsState = OmsState(sim: SimState, positions: Book, risk: RiskState)

  function NewOms(cfg: SimConfig): OmsState {
    OmsState(NewSim(cfg), map[], RiskState([], 0.0))
  }

  function VerdictOn(limits: RiskLimits, mode: string, o: OmsState, t: Ticket, now: real): Verdict {
    Judged(limits, o.risk, t, mode, Held(o.positions, t.instrument).qty, now)
  }

  function Routed(cfg: SimConfig, sim: SimState, r: OrderRec, v: Verdict): SimState {
    if v == Passed then Placed(cfg, sim, r)
    else sim.(orders := sim.orders[r.ticket.id := r.(status := Rejected)])
  }

  /** Risk first: an order that fails a gate is recorded as rejected and never reaches the broker. */
  function Submitted(cfg: SimConfig, limits: RiskLimits, mode: string, o: OmsState, r: OrderRec, now: real): OmsState {
    OmsState(Routed(cfg, o.sim, r, VerdictOn(limits, mode, o, r.ticket, now)), o.positions,
             Checked(limits, o.risk, r.ticket, mode, Held(o.positions, r.ticket.instrument).qty, now))
  }

  /** The order's fate: sent under a new broker id and queued last, or rejected and only kept. Nothing
      trades, and no other record changes. */
  lemma SubmitFiles(cfg: SimConfig, limits: RiskLimits, mode: string, o: OmsState, t: Ticket, now: real)
    ensures var o', s := Submitted(cfg, limits, mode, o, NewOrder(t), now), o.sim;
            && o'.sim == (if VerdictOn(limits, mode, o, t, now) == Passed then
                            s.(orders := s.orders[t.id := OrderRec(t, Some(s.brokerIds), Sent, 0.0, None)],
                               pending := s.pending + [Pend(t.id, cfg.latencyBars)], brokerIds := s.brokerIds + 1)
                          else s.(orders := s.orders[t.id := OrderRec(t, None, Rejected, 0.0, None)]))
            && o'.positions == o.positions && o'.risk.dailyRealisedPnl == o.risk.dailyRealisedPnl
            && |o'.risk.orderTimes| <= |o.risk.orderTimes| + 1
  {
    RecentIsShorter(o.risk.orderTimes, now - 60.0);
  }

  function OmsAverage(avg: real, filled: real, f: Fill): real {
    Quot(avg * (filled - f.qty) + f.price * f.qty, filled)
  }

  lemma AveragesAgree(avg: real, filledQty: real, f: Fill)
    ensures OmsAverage(avg, filledQty + f.qty, f) == RunningAverage(avg, filledQty, f)
  {
    var before := filledQty + f.qty - f.qty;
    assert before == filledQty;
    assert avg * before == avg * filledQty;
  }

  /** The OMS's own bookkeeping of an order's fill, as it writes it. */
  function OmsExecuted(r: OrderRec, f: Fill): OrderRec {
    var filled := r.filledQty + f.qty;
    r.(filledQty := filled,
       avgFillPrice := Some(if r.avgFillPrice.None? then f.price else OmsAverage(r.avgFillPrice.value, filled, f)),
       status := if r.ticket.qty - filled == 0.0 then Filled else PartiallyFilled)
  }

  /** On a record of its own, the OMS books every fill exactly as the broker does. */
  lemma BothBookAlike(r: OrderRec, f: Fill)
    ensures OmsExecuted(r, f) == Executed(r, f)
  {
    if r.avgFillPrice.Some? {
      AveragesAgree(r.avgFillPrice.value, r.filledQty, f);
    }
  }

  function RecordFilled(orders: Orders, f: Fill): Orders {
    if f.orderId in orders then orders[f.orderId := Executed(orders[f.orderId], f)] else orders
  }

  ghost function FilledOms(o: OmsState, f: Fill): OmsState {
    var positions := Posted(o.positions, f);
    OmsState(o.sim.(orders := RecordFilled(o.sim.orders, f)), positions,
             o.risk.(dailyRealisedPnl := Total(RealisedPnls(positions))))
  }
}
