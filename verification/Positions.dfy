/** src/tradingplatform/core/positions.py: the accounting routine every ledger goes through. */
module Positions {
  import opened Core
  import opened Totals

  datatype Pos = Pos(instrument: Instrument, qty: real, avg: real, pnl: real)
  {
    function MarketValue(mark: real): real {
      qty * mark
    }

    function UnrealisedPnl(mark: real): real {
      qty * (mark - avg)
    }
  }

  function Flat(i: Instrument): Pos {
    Pos(i, 0.0, 0.0, 0.0)
  }

  predicate SameSign(a: real, b: real) {
    (a > 0.0 && b > 0.0) || (a < 0.0 && b < 0.0)
  }

  /** Opening or adding: the trade goes the way the position already points. */
  predicate Extends(p: Pos, s: real) {
    p.qty == 0.0 || (p.qty > 0.0) == (s > 0.0)
  }

  /** What the accounting promises of trading the signed quantity `s`, said without the weighted
      average or the closing quantity: money in and out is conserved, profit is realised only by
      reducing, a reduction keeps the average, a flip reopens at the trade price, and flat means
      no average. */
  predicate Accounts(p: Pos, s: real, price: real, p': Pos) {
    && p'.instrument == p.instrument
    && p'.qty == p.qty + s
    && p'.pnl - p'.qty * p'.avg == p.pnl - p.qty * p.avg - s * price
    && (p'.qty == 0.0 ==> p'.avg == 0.0)
    && (if Extends(p, s) then p'.pnl == p.pnl
        else if SameSign(p'.qty, p.qty) then p'.avg == p.avg
        else p'.qty != 0.0 ==> p'.avg == price)
  }

  /** The position after the trade: the one that accounts for it. */
  ghost function Traded(p: Pos, s: real, price: real): (p': Pos)
    ensures Accounts(p, s, price, p')
  {
    ByCasesAccounts(p, s, price);
    var p' :| Accounts(p, s, price, p');
    p'
  }

  /** There is only one. */
  lemma AccountsIsFunctional(p: Pos, s: real, price: real, p': Pos, p'': Pos)
    requires Accounts(p, s, price, p') && Accounts(p, s, price, p'')
    ensures p' == p''
  {
    if p'.qty != 0.0 && Extends(p, s) {
      SameFactor(p'.qty, p'.avg, p''.avg);
    }
  }

  lemma SameFactor(q: real, a: real, b: real)
    requires q != 0.0 && q * a == q * b
    ensures a == b
  {
    assert q * (a - b) == 0.0;
  }

  // ---- The four branches of the source ----

  /** The quantity-weighted average price once `s` has been added to `qty`; zero when that is flat. */
  function Blend(qty: real, avg: real, s: real, price: real): real {
    Quot(avg * Abs(qty) + price * Abs(s), Abs(qty + s))
  }

  /** The profit realised by trading `s` against `qty`: only the closed part earns. */
  function Realised(qty: real, avg: real, s: real, price: real): real {
    var closing := Min(Abs(s), Abs(qty));
    var direction := if qty > 0.0 then 1.0 else -1.0;
    direction * closing * (price - avg)
  }

  function ByCases(p: Pos, s: real, price: real): Pos {
    var qty := p.qty + s;
    if p.qty == 0.0 || (p.qty > 0.0) == (s > 0.0) then
      p.(qty := qty, avg := Blend(p.qty, p.avg, s, price))
    else
      var pnl := p.pnl + Realised(p.qty, p.avg, s, price);
      if qty == 0.0 then p.(qty := 0.0, avg := 0.0, pnl := pnl)
      else if (qty > 0.0) != (p.qty > 0.0) then p.(qty := qty, avg := price, pnl := pnl)
      else p.(qty := qty, pnl := pnl)
  }

  lemma BlendKeepsCost(qty: real, avg: real, s: real, price: real)
    requires qty == 0.0 || (qty > 0.0) == (s > 0.0)
    ensures (qty + s) * Blend(qty, avg, s, price) == qty * avg + s * price
  {
    var n, b := qty + s, Blend(qty, avg, s, price);
    if n > 0.0 {
      assert b * n == avg * qty + price * s;
    } else if n < 0.0 {
      assert b * -n == avg * -qty + price * -s;
    }
  }

  lemma RealisedIsClosedPart(qty: real, avg: real, s: real, price: real)
    requires qty != 0.0 && (qty > 0.0) != (s > 0.0)
    ensures Realised(qty, avg, s, price) ==
            if Abs(s) < Abs(qty) then s * avg - s * price else qty * price - qty * avg
  {
    var c := if Abs(s) < Abs(qty) then -s else qty;
    assert (if qty > 0.0 then 1.0 else -1.0) * Min(Abs(s), Abs(qty)) == c;
    assert c * (price - avg) == c * price - c * avg;
  }

  lemma ByCasesAccounts(p: Pos, s: real, price: real)
    ensures Accounts(p, s, price, ByCases(p, s, price))
  {
    if Extends(p, s) {
      BlendKeepsCost(p.qty, p.avg, s, price);
    } else {
      RealisedIsClosedPart(p.qty, p.avg, s, price);
    }
  }

  // ---- Slicing invariance ----

  /** The accounting composes: two same-side slices at one price account for the single trade,
      whether or not the first one closes or flips the position. */
  lemma AccountsCompose(p: Pos, a: real, b: real, price: real, once: Pos, twice: Pos)
    requires SameSign(a, b) && Accounts(p, a, price, once) && Accounts(once, b, price, twice)
    ensures Accounts(p, a + b, price, twice)
  {
    assert a * price + b * price == (a + b) * price;
    AveragesCompose(p, a, b, price, once, twice);
  }

  lemma AveragesCompose(p: Pos, a: real, b: real, price: real, once: Pos, twice: Pos)
    requires SameSign(a, b) && Accounts(p, a, price, once) && Accounts(once, b, price, twice)
    ensures !Extends(p, a + b) ==>
              if SameSign(twice.qty, p.qty) then twice.avg == p.avg else twice.qty != 0.0 ==> twice.avg == price
  {
    if !Extends(p, a + b) && (once.qty == 0.0 || SameSign(once.qty, a)) {
      AddsAtPrice(once, b, price, twice);
    }
  }

  /** Opening at, or adding at, the price the position already averages leaves that average. */
  lemma AddsAtPrice(p: Pos, s: real, price: real, p': Pos)
    requires s != 0.0 && Extends(p, s) && (p.qty != 0.0 ==> p.avg == price)
    requires Accounts(p, s, price, p')
    ensures p'.avg == price
  {
    assert p.qty * p.avg == p.qty * price;
    assert p'.qty * p'.avg == p'.qty * price;
    SameFactor(p'.qty, p'.avg, price);
  }

  lemma TwoSlices(p: Pos, a: real, b: real, price: real)
    requires SameSign(a, b)
    ensures Traded(Traded(p, a, price), b, price) == Traded(p, a + b, price)
  {
    var once, whole := Traded(p, a, price), Traded(p, a + b, price);
    AccountsCompose(p, a, b, price, once, Traded(once, b, price));
    AccountsIsFunctional(p, a + b, price, whole, Traded(once, b, price));
  }

  /** The position after a list of signed trades at one price. */
  ghost function TradedAll(p: Pos, slices: seq<real>, price: real): Pos {
    if slices == [] then p
    else Traded(TradedAll(p, slices[..|slices| - 1], price), slices[|slices| - 1], price)
  }

  predicate OneSided(slices: seq<real>) {
    || (forall i :: 0 <= i < |slices| ==> slices[i] > 0.0)
    || (forall i :: 0 <= i < |slices| ==> slices[i] < 0.0)
  }

  lemma {:induction false} SumKeepsSign(slices: seq<real>)
    requires slices != [] && OneSided(slices)
    ensures SameSign(Sum(slices), slices[0])
  {
    var n := |slices| - 1;
    if n > 0 {
      SumKeepsSign(slices[..n]);
      assert SameSign(slices[n], slices[0]);
    }
  }

  /** However a same-side quantity is cut into slices at one price, the position, its average
      and its realised profit are those of the uncut trade. */
  lemma {:induction false} SlicingInvariance(p: Pos, slices: seq<real>, price: real)
    requires slices != [] && OneSided(slices)
    ensures TradedAll(p, slices, price) == Traded(p, Sum(slices), price)
  {
    var n := |slices| - 1;
    if n == 0 {
      assert TradedAll(p, slices[..0], price) == p;
      assert Sum(slices[..0]) == 0.0;
    } else {
      SlicingInvariance(p, slices[..n], price);
      SumKeepsSign(slices[..n]);
      assert SameSign(slices[n], slices[0]);
      TwoSlices(p, Sum(slices[..n]), slices[n], price);
    }
  }

  /** A position object, updated in place. */
  class Position {
    const instrument: Instrument
    var qty: real
    var avgPrice: real
    var realisedPnl: real

    constructor (i: Instrument)
      ensures Value() == Flat(i)
    {
      instrument := i;
      qty, avgPrice, realisedPnl := 0.0, 0.0, 0.0;
    }

    function Value(): Pos
      reads this
    {
      Pos(instrument, qty, avgPrice, realisedPnl)
    }

    method Apply(f: Fill)
      modifies this
      ensures Value() == Traded(old(Value()), f.Signed(), f.price)
    {
      ghost var was := Value();
      ByCasesAccounts(was, f.Signed(), f.price);
      var signed := if f.side == Buy then f.qty else -f.qty;
      if qty == 0.0 || (qty > 0.0) == (signed > 0.0) {
        avgPrice := Blend(qty, avgPrice, signed, f.price);
        qty := qty + signed;
      } else {
        realisedPnl := realisedPnl + Realised(qty, avgPrice, signed, f.price);
        var newQty := qty + signed;
        if newQty == 0.0 {
          qty := 0.0;
          avgPrice := 0.0;
        } else if (newQty > 0.0) != (qty > 0.0) {
          qty := newQty;
          avgPrice := f.price;
        } else {
          qty := newQty;
        }
      }
      assert Value() == ByCases(was, signed, f.price);
      AccountsIsFunctional(was, signed, f.price, Value(), Traded(was, signed, f.price));
    }
  }
}
