/** src/tradingplatform/risk/gates.py: the gate chain in front of every order, and what its
    sliding window guarantees over any sequence of checks. */
module Risk {
  import opened Core
  import opened Positions
  import opened Ledgers

  datatype RiskLimits = RiskLimits(maxQtyPerSymbol: Option<real>, maxNotionalPerOrder: Option<real>,
                                   maxOrdersPerMinute: int, maxDailyLoss: Option<real>)

  datatype Verdict = Passed | ModeMismatch | QtyBreached | NotionalBreached | RateBreached | KillSwitch

  datatype RiskState = RiskState(orderTimes: seq<real>, dailyRealisedPnl: real)

  /** The timestamps after the cutoff. */
  function Recent(times: seq<real>, cutoff: real): seq<real> {
    if times == [] then []
    else Recent(times[..|times| - 1], cutoff) + if times[|times| - 1] > cutoff then [times[|times| - 1]] else []
  }

  predicate Killed(limits: RiskLimits, pnl: real) {
    limits.maxDailyLoss.Some? && pnl <= -Abs(limits.maxDailyLoss.value)
  }

  /** The gates an order has to clear before its rate is looked at, given the filled position. */
  function Exposure(limits: RiskLimits, t: Ticket, mode: string, held: real): Verdict {
    if t.mode != mode then ModeMismatch
    else if limits.maxQtyPerSymbol.Some? && Abs(held + SignedQty(t.side, t.qty)) > limits.maxQtyPerSymbol.value then QtyBreached
    else if limits.maxNotionalPerOrder.Some? && t.limitPrice.Some?
         && t.qty * t.limitPrice.value > limits.maxNotionalPerOrder.value then NotionalBreached
    else Passed
  }

  function Judged(limits: RiskLimits, s: RiskState, t: Ticket, mode: string, held: real, now: real): Verdict {
    var exposure := Exposure(limits, t, mode, held);
    if exposure != Passed then exposure
    else if |Recent(s.orderTimes, now - 60.0)| >= limits.maxOrdersPerMinute then RateBreached
    else if Killed(limits, s.dailyRealisedPnl) then KillSwitch
    else Passed
  }

  /** The window is pruned whenever the rate is looked at; an order that the kill-switch stops
      has already taken its slot. */
  function Checked(limits: RiskLimits, s: RiskState, t: Ticket, mode: string, held: real, now: real): RiskState {
    if Exposure(limits, t, mode, held) != Passed then s
    else
      var recent := Recent(s.orderTimes, now - 60.0);
      s.(orderTimes := recent + if |recent| >= limits.maxOrdersPerMinute then [] else [now])
  }

  /** What passing takes, in whatever order the gates stand: the right mode, a filled position that
      stays within the limit with the order added, a limit order's notional within its limit, a
      free slot in the last minute, and a loss short of the day's limit. */
  lemma PassedIff(limits: RiskLimits, s: RiskState, t: Ticket, mode: string, held: real, now: real)
    ensures Judged(limits, s, t, mode, held, now) == Passed <==>
              && t.mode == mode
              && (limits.maxQtyPerSymbol.Some? ==>
                    -limits.maxQtyPerSymbol.value <= held + SignedQty(t.side, t.qty) <= limits.maxQtyPerSymbol.value)
              && (limits.maxNotionalPerOrder.Some? && t.limitPrice.Some? ==>
                    t.qty * t.limitPrice.value <= limits.maxNotionalPerOrder.value)
              && |Recent(s.orderTimes, now - 60.0)| < limits.maxOrdersPerMinute
              && (limits.maxDailyLoss.Some? ==> -s.dailyRealisedPnl < Abs(limits.maxDailyLoss.value))
  {
  }

  /** What a refusal says: the first gate, in the engine's order, that the order does not clear. */
  lemma VerdictSaysWhy(limits: RiskLimits, s: RiskState, t: Ticket, mode: string, held: real, now: real)
    ensures var v := Judged(limits, s, t, mode, held, now);
            var tooMuch := limits.maxQtyPerSymbol.Some? && Abs(held + SignedQty(t.side, t.qty)) > limits.maxQtyPerSymbol.value;
            var tooDear := && limits.maxNotionalPerOrder.Some? && t.limitPrice.Some?
                           && t.qty * t.limitPrice.value > limits.maxNotionalPerOrder.value;
            && (v == ModeMismatch <==> t.mode != mode)
            && (v == QtyBreached <==> t.mode == mode && tooMuch)
            && (v == NotionalBreached <==> t.mode == mode && !tooMuch && tooDear)
            && (v in {RateBreached, KillSwitch, Passed} <==> t.mode == mode && !tooMuch && !tooDear)
            && (v == KillSwitch ==> limits.maxDailyLoss.Some? && s.dailyRealisedPnl <= -Abs(limits.maxDailyLoss.value))
  {
  }

  /** Once the rate is looked at, the engine has forgotten every time a minute back or more. */
  lemma {:induction false} RecentAreAfter(times: seq<real>, cutoff: real)
    ensures forall i :: 0 <= i < |Recent(times, cutoff)| ==> Recent(times, cutoff)[i] > cutoff
  {
    if times != [] {
      RecentAreAfter(times[..|times| - 1], cutoff);
    }
  }

  lemma OldTimesAreForgotten(limits: RiskLimits, s: RiskState, t: Ticket, mode: string, held: real, now: real)
    ensures var s', v := Checked(limits, s, t, mode, held, now), Judged(limits, s, t, mode, held, now);
            && s'.dailyRealisedPnl == s.dailyRealisedPnl
            && if v in {RateBreached, KillSwitch, Passed} then
                 forall i :: 0 <= i < |s'.orderTimes| ==> now - s'.orderTimes[i] < 60.0
               else s'.orderTimes == s.orderTimes
  {
    RecentAreAfter(s.orderTimes, now - 60.0);
  }

  class RiskEngine {
    const limits: RiskLimits
    var orderTimes: seq<real>
    var dailyRealisedPnl: real

    constructor (limits: RiskLimits)
      ensures this.limits == limits && Value() == RiskState([], 0.0)
    {
      this.limits, orderTimes, dailyRealisedPnl := limits, [], 0.0;
    }

    function Value(): RiskState
      reads this
    {
      RiskState(orderTimes, dailyRealisedPnl)
    }

    method Check(t: Ticket, mode: string, positions: map<string, Position>, now: real,
                 ghost b: Book, ghost cells: set<Position>) returns (v: Verdict)
      requires Mirrors(positions, b, cells)
      modifies this`orderTimes
      ensures var held := Held(b, t.instrument).qty;
              && v == Judged(limits, old(Value()), t, mode, held, now)
              && Value() == Checked(limits, old(Value()), t, mode, held, now)
    {
      if t.mode != mode {
        return ModeMismatch;
      }
      if limits.maxQtyPerSymbol.Some? {
        var cur := if t.instrument.key in positions then positions[t.instrument.key].qty else 0.0;
        var newQty := cur + (if t.side == Buy then t.qty else -t.qty);
        if Abs(newQty) > limits.maxQtyPerSymbol.value {
          return QtyBreached;
        }
      }
      if limits.maxNotionalPerOrder.Some? && t.limitPrice.Some?
         && t.qty * t.limitPrice.value > limits.maxNotionalPerOrder.value {
        return NotionalBreached;
      }
      orderTimes := Prune(orderTimes, now - 60.0);
      if |orderTimes| >= limits.maxOrdersPerMinute {
        assert orderTimes + [] == orderTimes;
        return RateBreached;
      }
      orderTimes := orderTimes + [now];
      if limits.maxDailyLoss.Some? && dailyRealisedPnl <= -Abs(limits.maxDailyLoss.value) {
        return KillSwitch;
      }
      return Passed;
    }
  }

  method Prune(times: seq<real>, cutoff: real) returns (recent: seq<real>)
    ensures recent == Recent(times, cutoff)
  {
    recent := [];
    for i := 0 to |times|
      invariant recent == Recent(times[..i], cutoff)
    {
      assert times[..i + 1][..i] == times[..i];
      if times[i] > cutoff {
        recent := recent + [times[i]];
      }
    }
    assert times[..|times|] == times;
  }

  // ---- Any sequence of checks ----

  /** One call of `check`: the order, the position and the profit the engine sees, and the clock. */
  datatype Attempt = Attempt(t: Ticket, held: real, pnl: real, now: real)

  function StateAfter(limits: RiskLimits, mode: string, attempts: seq<Attempt>): RiskState
    decreases |attempts|, 1
  {
    if attempts == [] then RiskState([], 0.0)
    else
      var a := attempts[|attempts| - 1];
      Checked(limits, StateBefore(limits, mode, attempts), a.t, mode, a.held, a.now)
  }

  /** The state the last attempt is judged in. */
  function StateBefore(limits: RiskLimits, mode: string, attempts: seq<Attempt>): RiskState
    requires attempts != []
    decreases |attempts|, 0
  {
    StateAfter(limits, mode, attempts[..|attempts| - 1]).(dailyRealisedPnl := attempts[|attempts| - 1].pnl)
  }

  /** The verdict on the last attempt. */
  function LastVerdict(limits: RiskLimits, mode: string, attempts: seq<Attempt>): Verdict
    requires attempts != []
  {
    var a := attempts[|attempts| - 1];
    Judged(limits, StateBefore(limits, mode, attempts), a.t, mode, a.held, a.now)
  }

  /** The times of all attempts that took a slot, never pruned. */
  function SlotTimes(limits: RiskLimits, mode: string, attempts: seq<Attempt>): seq<real> {
    if attempts == [] then []
    else
      SlotTimes(limits, mode, attempts[..|attempts| - 1])
      + Slot(LastVerdict(limits, mode, attempts), attempts[|attempts| - 1].now)
  }

  function Slot(v: Verdict, now: real): seq<real> {
    if v in {Passed, KillSwitch} then [now] else []
  }

  /** The clock never runs backwards. */
  predicate Monotone(attempts: seq<Attempt>) {
    forall i, j :: 0 <= i < j < |attempts| ==> attempts[i].now <= attempts[j].now
  }

  /** How many of the times fall in the minute starting at `from`, its end excluded. */
  function InMinute(times: seq<real>, from: real): nat {
    if times == [] then 0
    else
      var x := times[|times| - 1];
      InMinute(times[..|times| - 1], from) + if from <= x < from + 60.0 then 1 else 0
  }

  lemma {:induction false} RecentIsShorter(times: seq<real>, cutoff: real)
    ensures |Recent(times, cutoff)| <= |times|
  {
    if times != [] {
      RecentIsShorter(times[..|times| - 1], cutoff);
    }
  }

  lemma {:induction false} RecentConcat(xs: seq<real>, ys: seq<real>, cutoff: real)
    ensures Recent(xs + ys, cutoff) == Recent(xs, cutoff) + Recent(ys, cutoff)
  {
    if ys == [] {
      assert xs + ys == xs;
    } else {
      assert (xs + ys)[..|xs + ys| - 1] == xs + ys[..|ys| - 1];
      RecentConcat(xs, ys[..|ys| - 1], cutoff);
    }
  }

  /** Pruning early and then late is pruning late. */
  lemma {:induction false} RecentTwice(xs: seq<real>, early: real, late: real)
    requires early <= late
    ensures Recent(Recent(xs, early), late) == Recent(xs, late)
  {
    if xs != [] {
      var n := |xs| - 1;
      RecentTwice(xs[..n], early, late);
      RecentConcat(Recent(xs[..n], early), if xs[n] > early then [xs[n]] else [], late);
    }
  }

  lemma CheckedRecent(limits: RiskLimits, s: RiskState, t: Ticket, mode: string, held: real, now: real, cutoff: real)
    requires cutoff >= now - 60.0
    ensures Recent(Checked(limits, s, t, mode, held, now).orderTimes, cutoff)
            == Recent(s.orderTimes, cutoff) + Recent(Slot(Judged(limits, s, t, mode, held, now), now), cutoff)
  {
    var slot := Slot(Judged(limits, s, t, mode, held, now), now);
    if Exposure(limits, t, mode, held) == Passed {
      RecentConcat(Recent(s.orderTimes, now - 60.0), slot, cutoff);
      RecentTwice(s.orderTimes, now - 60.0, cutoff);
    }
  }

  /** The pruned list answers every question the engine will still ask as the full history would. */
  lemma {:induction false} PruningForgetsNothing(limits: RiskLimits, mode: string, attempts: seq<Attempt>, cutoff: real)
    requires Monotone(attempts)
    requires attempts != [] ==> cutoff >= attempts[|attempts| - 1].now - 60.0
    ensures Recent(StateAfter(limits, mode, attempts).orderTimes, cutoff)
            == Recent(SlotTimes(limits, mode, attempts), cutoff)
  {
    if attempts != [] {
      var n := |attempts| - 1;
      var a, before := attempts[n], StateBefore(limits, mode, attempts);
      PruningForgetsNothing(limits, mode, attempts[..n], cutoff);
      CheckedRecent(limits, before, a.t, mode, a.held, a.now, cutoff);
      RecentConcat(SlotTimes(limits, mode, attempts[..n]), Slot(LastVerdict(limits, mode, attempts), a.now), cutoff);
    }
  }

  lemma {:induction false} MinuteWithinRecent(times: seq<real>, from: real, cutoff: real)
    requires cutoff < from
    ensures InMinute(times, from) <= |Recent(times, cutoff)|
  {
    if times != [] {
      MinuteWithinRecent(times[..|times| - 1], from, cutoff);
    }
  }

  /** With a clock that never runs backwards, no half-open minute ever holds more slots than the
      limit, although the engine forgets all but the last minute. Slots are taken by the orders
      that pass and by those the kill-switch stops. */
  lemma {:induction false} RateLimitHolds(limits: RiskLimits, mode: string, attempts: seq<Attempt>, from: real)
    requires Monotone(attempts)
    ensures InMinute(SlotTimes(limits, mode, attempts), from)
            <= if limits.maxOrdersPerMinute > 0 then limits.maxOrdersPerMinute else 0
  {
    hide StateAfter, Recent, LastVerdict, InMinute;
    NothingInMinute(from);
    if attempts != [] {
      var n := |attempts| - 1;
      var a, earlier := attempts[n], SlotTimes(limits, mode, attempts[..n]);
      SlotTakesRoom(limits, mode, attempts);
      RateLimitHolds(limits, mode, attempts[..n], from);
      InMinuteSlot(earlier, LastVerdict(limits, mode, attempts), a.now, from);
      if from <= a.now < from + 60.0 {
        PruningForgetsNothing(limits, mode, attempts[..n], a.now - 60.0);
        MinuteWithinRecent(earlier, from, a.now - 60.0);
      }
    }
  }

  lemma NothingInMinute(from: real)
    ensures InMinute([], from) == 0
  {
  }

  /** A slot is only taken where there is room. */
  lemma SlotTakesRoom(limits: RiskLimits, mode: string, attempts: seq<Attempt>)
    requires attempts != []
    ensures var n := |attempts| - 1;
            Slot(LastVerdict(limits, mode, attempts), attempts[n].now) != [] ==>
              |Recent(StateAfter(limits, mode, attempts[..n]).orderTimes, attempts[n].now - 60.0)| < limits.maxOrdersPerMinute
  {
    hide StateAfter, Recent;
  }

  lemma InMinuteSlot(earlier: seq<real>, v: Verdict, now: real, from: real)
    ensures InMinute(earlier + Slot(v, now), from) ==
            InMinute(earlier, from) + if Slot(v, now) != [] && from <= now < from + 60.0 then 1 else 0
  {
    if Slot(v, now) == [] {
      assert earlier + [] == earlier;
    } else {
      assert (earlier + [now])[..|earlier|] == earlier;
    }
  }

  function PassedInMinute(limits: RiskLimits, mode: string, attempts: seq<Attempt>, from: real): nat {
    if attempts == [] then 0
    else
      PassedInMinute(limits, mode, attempts[..|attempts| - 1], from) +
      if LastVerdict(limits, mode, attempts) == Passed && from <= attempts[|attempts| - 1].now < from + 60.0 then 1 else 0
  }

  /** The promise as the limit's name has it: orders let through per minute. */
  lemma PassedOrdersPerMinute(limits: RiskLimits, mode: string, attempts: seq<Attempt>, from: real)
    requires Monotone(attempts)
    ensures PassedInMinute(limits, mode, attempts, from)
            <= if limits.maxOrdersPerMinute > 0 then limits.maxOrdersPerMinute else 0
  {
    RateLimitHolds(limits, mode, attempts, from);
    PassedTakeSlots(limits, mode, attempts, from);
  }

  lemma {:induction false} PassedTakeSlots(limits: RiskLimits, mode: string, attempts: seq<Attempt>, from: real)
    ensures PassedInMinute(limits, mode, attempts, from) <= InMinute(SlotTimes(limits, mode, attempts), from)
  {
    if attempts != [] {
      var n := |attempts| - 1;
      PassedTakeSlots(limits, mode, attempts[..n], from);
      InMinuteSlot(SlotTimes(limits, mode, attempts[..n]), LastVerdict(limits, mode, attempts), attempts[n].now, from);
    }
  }

  /** The minute has to be half-open: with a limit of one, orders exactly 60 seconds apart both pass. */
  lemma ClosedMinuteMayHoldMore(t: Ticket)
    ensures var limits := RiskLimits(None, None, 1, None);
            var first, second := Attempt(t, 0.0, 0.0, 0.0), Attempt(t, 0.0, 0.0, 60.0);
            && LastVerdict(limits, t.mode, [first]) == Passed
            && LastVerdict(limits, t.mode, [first, second]) == Passed
  {
    var limits := RiskLimits(None, None, 1, None);
    var first, second := Attempt(t, 0.0, 0.0, 0.0), Attempt(t, 0.0, 0.0, 60.0);
    assert [first][..0] == [] && [first, second][..1] == [first];
    var s0, s1 := RiskState([], 0.0), RiskState([0.0], 0.0);
    assert StateBefore(limits, t.mode, [first]) == s0;
    assert Checked(limits, s0, t, t.mode, 0.0, 0.0) == s1 by {
      assert Recent([], -60.0) + [0.0] == [0.0];
    }
    assert StateAfter(limits, t.mode, [first]) == s1;
    assert StateBefore(limits, t.mode, [first, second]) == s1;
    assert Recent([0.0], 0.0) == [] by {
      assert [0.0][..0] == [];
    }
  }
}
