/** src/tradingplatform/portfolio/tracker.py: cash, positions and the equity curve. */
module Portfolio {
  import opened Core
  import opened Totals
  import opened Positions
  import opened Ledgers

  datatype EquityPoint = EquityPoint(ts: int, equity: real)

  datatype Tracker = Tracker(startingCash: real, cash: real, positions: Book, history: seq<EquityPoint>)

  function NewTracker(startingCash: real): Tracker {
    Tracker(startingCash, startingCash, map[], [])
  }

  ghost function Settled(t: Tracker, f: Fill): Tracker {
    t.(cash := t.cash + CashFlow(f), positions := Posted(t.positions, f))
  }

  ghost function SettledAll(t: Tracker, fills: seq<Fill>): Tracker {
    if fills == [] then t else Settled(SettledAll(t, fills[..|fills| - 1]), fills[|fills| - 1])
  }

  /** Cash plus the positions that have a mark; positions without one are left out. */
  ghost function Equity(t: Tracker, marks: map<string, real>): real {
    t.cash + Total(MarketValues(t.positions, marks))
  }

  ghost function Marked(t: Tracker, ts: int, marks: map<string, real>): Tracker {
    t.(history := t.history + [EquityPoint(ts, Equity(t, marks))])
  }

  /** A list of fills moves cash by the sum of their flows and positions by their posting. */
  lemma {:induction false} SettledAllParts(t: Tracker, fills: seq<Fill>)
    ensures SettledAll(t, fills) ==
            t.(cash := t.cash + Sum(CashFlows(fills)), positions := PostedAll(t.positions, fills))
  {
    if fills != [] {
      var n := |fills| - 1;
      SettledAllParts(t, fills[..n]);
      assert CashFlows(fills)[..n] == CashFlows(fills[..n]);
    }
  }

  /** Every equity point of a fully marked portfolio is explained by profit and fees alone. */
  lemma EquityIsProfitLessFees(startingCash: real, fills: seq<Fill>, marks: map<string, real>)
    requires PostedAll(map[], fills).Keys <= marks.Keys
    ensures var t := SettledAll(NewTracker(startingCash), fills);
            Equity(t, marks) == startingCash - Sum(Fees(fills)) + Total(Pnls(t.positions, marks))
  {
    SettledAllParts(NewTracker(startingCash), fills);
    AccountingIdentity(fills, marks, startingCash);
  }

  /** The tracker's cash branch. */
  method Pay(cash: real, f: Fill) returns (cash': real)
    ensures cash' == cash + CashFlow(f)
  {
    var notional := f.price * f.qty;
    if f.side == Buy {
      cash' := cash - (notional + f.fees);
    } else {
      cash' := cash + (notional - f.fees);
    }
  }

  /** The marking loop: adds the market value of every position that has a mark. */
  method AddMarked(cash: real, positions: map<string, Position>, marks: map<string, real>, ghost b: Book,
                   ghost cells: set<Position>)
    returns (equity: real)
    requires Mirrors(positions, b, cells)
    ensures equity == cash + Total(MarketValues(b, marks))
  {
    equity := cash;
    var keys := positions.Keys;
    ghost var values := MarketValues(b, marks);
    ghost var left := values;
    while keys != {}
      invariant keys <= positions.Keys
      invariant left.Keys == values.Keys * keys && forall k :: k in left ==> left[k] == values[k]
      invariant equity + Total(left) == cash + Total(values)
      decreases keys
    {
      var k :| k in keys;
      if k in marks {
        TotalRemove(left, k);
        equity := equity + positions[k].Value().MarketValue(marks[k]);
      } else {
        assert left - {k} == left;
      }
      keys := keys - {k};
      left := left - {k};
    }
    assert left == map[];
  }

  class PortfolioTracker {
    const startingCash: real
    var cash: real
    var positions: map<string, Position>
    var history: seq<EquityPoint>
    ghost var cells: set<Position>
    ghost var state: Tracker

    constructor (startingCash: real)
      ensures Valid() && state == NewTracker(startingCash)
      ensures cells == {}
    {
      this.startingCash := startingCash;
      cash, positions, history := startingCash, map[], [];
      cells, state := {}, NewTracker(startingCash);
    }

    /** The fields hold the abstract state. */
    ghost predicate Valid()
      reads this, cells
    {
      && Mirrors(positions, state.positions, cells)
      && state.startingCash == startingCash && state.cash == cash && state.history == history
    }

    method ApplyFill(f: Fill)
      requires Valid()
      modifies this, cells
      ensures Valid() && state == Settled(old(state), f)
      ensures fresh(cells - old(cells))
    {
      positions, cells := Post(positions, f, state.positions, cells);
      cash := Pay(cash, f);
      state := Settled(state, f);
    }

    method Mark(ts: int, marks: map<string, real>)
      requires Valid()
      modifies this`history, this`state
      ensures Valid() && state == Marked(old(state), ts, marks)
    {
      var equity := AddMarked(cash, positions, marks, state.positions, cells);
      history := history + [EquityPoint(ts, equity)];
      state := Marked(state, ts, marks);
    }

    /** Relative change of the last equity point; the source divides by the starting cash. */
    method TotalReturn() returns (r: real)
      requires history != [] ==> startingCash != 0.0
      ensures history == [] ==> r == 0.0
      ensures history != [] ==> startingCash * (1.0 + r) == history[|history| - 1].equity
    {
      if history == [] {
        return 0.0;
      }
      var last := history[|history| - 1].equity;
      r := (last - startingCash) / startingCash;
      assert startingCash * r == last - startingCash;
    }
  }
}
