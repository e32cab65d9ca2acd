/** src/tradingplatform/strategies/examples/sma_cross.py: the moving-average crossover strategy. */
module SmaCross {
  import opened Core
  import opened Totals
  import opened SimModel
  import opened Risk
  import opened BacktestModel
  import opened Ledgers
  import opened Discipline

  const KEEP := 200

  /** The strategy's memory: a bounded history and the last direction signalled, per instrument. */
  datatype Memory = Memory(history: map<string, seq<real>>, lastSignal: map<string, int>)

  function Average(xs: seq<real>, n: int): real
    requires n != 0
  {
    Sum(Tail(xs, n)) / n as real
  }

  /** A deque of at most 200 closes. */
  function Appended(xs: seq<real>, close: real): seq<real> {
    Tail(xs + [close], KEEP)
  }

  function Direction(xs: seq<real>, fast: int, slow: int): int
    requires fast != 0 && slow != 0
  {
    if Average(xs, fast) > Average(xs, slow) then 1 else -1
  }

  function Seen(m: Memory, bar: Bar): seq<real> {
    Appended(if bar.instrument.key in m.history then m.history[bar.instrument.key] else [], bar.close)
  }

  /** The direction a bar is answered with, or none: too little history, or no change. */
  function Answer(fast: int, slow: int, m: Memory, bar: Bar): Option<int>
    requires fast != 0 && slow != 0
  {
    var xs, key := Seen(m, bar), bar.instrument.key;
    if |xs| < slow then None
    else if key in m.lastSignal && m.lastSignal[key] == Direction(xs, fast, slow) then None
    else Some(Direction(xs, fast, slow))
  }

  function Remembered(fast: int, slow: int, m: Memory, bar: Bar): Memory
    requires fast != 0 && slow != 0
  {
    var key, answer := bar.instrument.key, Answer(fast, slow, m, bar);
    Memory(m.history[key := Seen(m, bar)], if answer.Some? then m.lastSignal[key := answer.value] else m.lastSignal)
  }

  function SignalOf(bar: Bar, direction: int): Signal {
    Signal(bar.instrument, direction as real)
  }

  class SmaCrossStrategy {
    const fast: int
    const slow: int
    var history: map<string, seq<real>>
    var lastSignal: map<string, int>

    constructor (fast: int, slow: int)
      ensures this.fast == fast && this.slow == slow && Value() == Memory(map[], map[])
    {
      this.fast, this.slow, history, lastSignal := fast, slow, map[], map[];
    }

    function Value(): Memory
      reads this
    {
      Memory(history, lastSignal)
    }

    /** The averages divide by the window lengths, which the source does not check. */
    method OnBar(bar: Bar) returns (signals: seq<Signal>)
      requires fast != 0 && slow != 0
      modifies this
      ensures Value() == Remembered(fast, slow, old(Value()), bar)
      ensures var answer := Answer(fast, slow, old(Value()), bar);
              signals == if answer.Some? then [SignalOf(bar, answer.value)] else []
    {
      var key := bar.instrument.key;
      var closes := Appended(if key in history then history[key] else [], bar.close);
      history := history[key := closes];
      if |closes| < slow {
        return [];
      }
      var fastAvg, slowAvg := Average(closes, fast), Average(closes, slow);
      var direction := if fastAvg > slowAvg then 1 else -1;
      if key in lastSignal && lastSignal[key] == direction {
        return [];
      }
      lastSignal := lastSignal[key := direction];
      return [Signal(bar.instrument, direction as real)];
    }
  }

  // ---- Any sequence of bars ----

  function MemoryAfter(fast: int, slow: int, bars: seq<Bar>): Memory
    requires fast != 0 && slow != 0
  {
    if bars == [] then Memory(map[], map[])
    else Remembered(fast, slow, MemoryAfter(fast, slow, bars[..|bars| - 1]), bars[|bars| - 1])
  }

  /** The directions signalled for one instrument, in order. */
  function Signalled(fast: int, slow: int, bars: seq<Bar>, key: string): seq<int>
    requires fast != 0 && slow != 0
  {
    if bars == [] then []
    else
      var n := |bars| - 1;
      var answer := Answer(fast, slow, MemoryAfter(fast, slow, bars[..n]), bars[n]);
      Signalled(fast, slow, bars[..n], key)
      + if bars[n].instrument.key == key && answer.Some? then [answer.value] else []
  }

  function Closes(bars: seq<Bar>, key: string): seq<real> {
    if bars == [] then []
    else Closes(bars[..|bars| - 1], key) + if bars[|bars| - 1].instrument.key == key then [bars[|bars| - 1].close] else []
  }

  lemma {:induction false} MemoryIsTail(fast: int, slow: int, bars: seq<Bar>, key: string)
    requires fast != 0 && slow != 0
    ensures var m, closes, sent := MemoryAfter(fast, slow, bars), Closes(bars, key), Signalled(fast, slow, bars, key);
            && (key in m.history <==> closes != []) && (closes != [] ==> m.history[key] == Tail(closes, KEEP))
            && (key in m.lastSignal <==> sent != []) && (sent != [] ==> m.lastSignal[key] == sent[|sent| - 1])
  {
    hide Direction, Tail;
    if bars != [] {
      var n := |bars| - 1;
      MemoryIsTail(fast, slow, bars[..n], key);
      var before, sent := Closes(bars[..n], key), Signalled(fast, slow, bars[..n], key);
      if bars[n].instrument.key == key {
        TailOfTail(before, bars[n].close);
        assert before == [] ==> before + [bars[n].close] == [bars[n].close] == [] + [bars[n].close];
      } else {
        assert before + [] == before;
      }
      assert sent + [] == sent;
    }
  }

  /** The memory is what it should be: the last 200 closes of each instrument, and the last
      direction signalled for it. */
  lemma MemoryIsTheLast(fast: int, slow: int, bars: seq<Bar>, key: string)
    requires fast != 0 && slow != 0
    ensures var m, closes, sent := MemoryAfter(fast, slow, bars), Closes(bars, key), Signalled(fast, slow, bars, key);
            && (key in m.history <==> closes != [])
            && (closes != [] ==> m.history[key] == if |closes| > 200 then closes[|closes| - 200..] else closes)
            && (key in m.lastSignal <==> sent != []) && (sent != [] ==> m.lastSignal[key] == sent[|sent| - 1])
  {
    MemoryIsTail(fast, slow, bars, key);
  }

  lemma TailOfTail(xs: seq<real>, x: real)
    ensures Tail(Tail(xs, KEEP) + [x], KEEP) == Tail(xs + [x], KEEP)
  {
  }

  lemma TailOfLonger(xs: seq<real>, n: int)
    requires 0 < n <= KEEP
    ensures Tail(Tail(xs, KEEP), n) == Tail(xs, n)
  {
  }

  /** The mean of the last `n` closes; with fewer, their sum is divided by `n` all the same. */
  function MeanOfLast(closes: seq<real>, n: nat): real
    requires n > 0
  {
    Sum(if n <= |closes| then closes[|closes| - n..] else closes) / n as real
  }

  /** Two hundred closes are enough for windows of up to two hundred: each bar is answered as it
      would be with the whole history, by comparing the means of the last `fast` and the last `slow`
      closes, once there are `slow` of them and if that is news. */
  lemma BoundedMemorySuffices(fast: int, slow: int, bars: seq<Bar>)
    requires 0 < fast <= 200 && 0 < slow <= 200 && bars != []
    ensures var n, key := |bars| - 1, bars[|bars| - 1].instrument.key;
            var closes, sent := Closes(bars, key), Signalled(fast, slow, bars[..n], key);
            var direction := if MeanOfLast(closes, fast) > MeanOfLast(closes, slow) then 1 else -1;
            Answer(fast, slow, MemoryAfter(fast, slow, bars[..n]), bars[n])
            == if |closes| < slow || (sent != [] && sent[|sent| - 1] == direction) then None else Some(direction)
  {
    var n := |bars| - 1;
    var key := bars[n].instrument.key;
    var m, before, closes := MemoryAfter(fast, slow, bars[..n]), Closes(bars[..n], key), Closes(bars, key);
    hide Tail, MeanOfLast, Direction;
    MemoryIsTail(fast, slow, bars[..n], key);
    TailOfTail(before, bars[n].close);
    assert before == [] ==> before + [bars[n].close] == [] + [bars[n].close];
    assert Seen(m, bars[n]) == Tail(closes, KEEP);
    KeptDirection(closes, fast, slow);
    TailLength(closes, slow);
  }

  lemma KeptDirection(closes: seq<real>, fast: nat, slow: nat)
    requires 0 < fast <= KEEP && 0 < slow <= KEEP
    ensures Direction(Tail(closes, KEEP), fast, slow) == if MeanOfLast(closes, fast) > MeanOfLast(closes, slow) then 1 else -1
  {
    hide Tail, MeanOfLast, Sum;
    TailOfLonger(closes, fast);
    TailOfLonger(closes, slow);
    AverageIsMean(closes, fast);
    AverageIsMean(closes, slow);
  }

  lemma AverageIsMean(closes: seq<real>, n: nat)
    requires n > 0
    ensures Average(closes, n) == MeanOfLast(closes, n)
  {
  }

  lemma TailLength(xs: seq<real>, n: int)
    requires 0 < n <= KEEP
    ensures |Tail(xs, KEEP)| < n <==> |xs| < n
  {
  }

  function Ones(n: nat): seq<real> {
    seq(n, i => 1.0)
  }

  /** A high close, and then as many ordinary ones as the memory keeps. */
  function Peak(high: real): seq<real> {
    [high] + Ones(KEEP)
  }

  lemma PeakForgotten(fast: int, slow: int)
    requires fast > KEEP && 0 < slow <= KEEP
    ensures var closes := Peak(fast as real);
            |closes| >= slow && Direction(closes, fast, slow) == 1 && Direction(Tail(closes, KEEP), fast, slow) == -1
  {
    hide Sum;
    var closes := Peak(fast as real);
    assert Tail(closes, KEEP) == Ones(KEEP) && Tail(Ones(KEEP), fast) == Ones(KEEP) && Tail(closes, fast) == closes;
    assert Tail(closes, slow) == Ones(slow) == Tail(Ones(KEEP), slow);
    SumOfConstant(KEEP, 1.0);
    SumOfConstant(slow, 1.0);
    SumSnoc([], fast as real);
    assert [] + [fast as real] == [fast as real];
    SumConcat([fast as real], Ones(KEEP));
    EmptySum();
    RatioAgainstOne(fast as real + 200.0, fast as real);
    RatioAgainstOne(200.0, fast as real);
    RatioAgainstOne(slow as real, slow as real);
  }

  lemma EmptySum()
    ensures Sum([]) == 0.0
  {
  }

  lemma RatioAgainstOne(x: real, n: real)
    requires n > 0.0
    ensures (x / n > 1.0 <==> x > n) && (x / n == 1.0 <==> x == n)
  {
    var q := x / n;
    assert q * n == x;
    if q > 1.0 {
      assert (q - 1.0) * n > 0.0;
    } else if q < 1.0 {
      assert (1.0 - q) * n > 0.0;
    }
  }

  /** With a slow window the memory can fill, the kept closes give the direction that the whole history
      would, for every history, if and only if the fast window fits the memory too. */
  lemma MemorySufficesIff(fast: int, slow: int)
    requires fast > 0 && 0 < slow <= 200
    ensures (forall closes :: |closes| >= slow ==> Direction(Tail(closes, KEEP), fast, slow) == Direction(closes, fast, slow))
            <==> fast <= 200
  {
    if fast <= KEEP {
      forall closes: seq<real> | |closes| >= slow
        ensures Direction(Tail(closes, KEEP), fast, slow) == Direction(closes, fast, slow)
      {
        TailOfLonger(closes, fast);
        TailOfLonger(closes, slow);
      }
    } else {
      PeakForgotten(fast, slow);
    }
  }

  /** A slow window beyond the memory never fills: such a strategy never signals at all. */
  lemma {:induction false} SlowBeyondMemoryIsMute(fast: int, slow: int, bars: seq<Bar>, key: string)
    requires fast != 0 && slow > 200
    ensures Signalled(fast, slow, bars, key) == []
  {
    if bars != [] {
      SlowBeyondMemoryIsMute(fast, slow, bars[..|bars| - 1], key);
    }
  }

  /** A signal only ever announces a change of direction: for each instrument the signals alternate. */
  lemma {:induction false} SignalsAlternate(fast: int, slow: int, bars: seq<Bar>, key: string)
    requires fast != 0 && slow != 0
    ensures var sent := Signalled(fast, slow, bars, key);
            && (forall i :: 0 <= i < |sent| ==> sent[i] == 1 || sent[i] == -1)
            && (forall i :: 0 < i < |sent| ==> sent[i] == -sent[i - 1])
  {
    hide Average, Tail;
    if bars != [] {
      var n := |bars| - 1;
      SignalsAlternate(fast, slow, bars[..n], key);
      MemoryIsTail(fast, slow, bars[..n], key);
    }
  }

  /** A backtest driven by the strategy; `clock` gives the time of each bar's risk check. */
  function SmaSteps(fast: int, slow: int, bars: seq<Bar>, clock: nat -> real): (steps: seq<Step>)
    requires fast != 0 && slow != 0
    ensures |steps| == |bars|
  {
    if bars == [] then []
    else
      var n := |bars| - 1;
      var answer := Answer(fast, slow, MemoryAfter(fast, slow, bars[..n]), bars[n]);
      SmaSteps(fast, slow, bars[..n], clock)
      + [Step(bars[n], if answer.Some? then [Cue(SignalOf(bars[n], answer.value), clock(n))] else [])]
  }

  lemma {:induction false} SmaSignalsOnce(fast: int, slow: int, bars: seq<Bar>, clock: nat -> real)
    requires fast != 0 && slow != 0
    ensures forall i :: 0 <= i < |bars| ==> OneSignal(SmaSteps(fast, slow, bars, clock)[i])
  {
    if bars != [] {
      SmaSignalsOnce(fast, slow, bars[..|bars| - 1], clock);
    }
  }

  /** The demo backtest never goes short and never holds more than ten, on any bars of any number
      of instruments, whatever the risk engine lets through. */
  lemma SmaBacktestIsFlatOrLongTen(cfg: SimConfig, limits: RiskLimits, fast: int, slow: int, bars: seq<Bar>,
                                   clock: nat -> real, key: string)
    requires cfg.maxQtyPerBar.None? && cfg.latencyBars <= 0 && fast != 0 && slow != 0
    ensures var qty := QtyAt(Backtest(cfg, limits, SmaSteps(fast, slow, bars, clock)).trk.positions, key);
            qty == 0.0 || qty == 10.0
  {
    SmaSignalsOnce(fast, slow, bars, clock);
    FlatOrLongTen(cfg, limits, SmaSteps(fast, slow, bars, clock), key);
  }
}
