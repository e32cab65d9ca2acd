/** src/tradingplatform/research/scoring.py: the mean-reversion score, in exact arithmetic. The
    square root of the variance enters as `std`, a number whose square is the variance. */
module Scoring {
  import opened Core
  import opened Totals

  // ---- The score ----

  /** The last `window` prices. */
  function Lookback(prices: seq<real>, window: int): seq<real> {
    if |prices| >= window then Tail(prices, window) else prices
  }

  function Mean(xs: seq<real>): real
    requires xs != []
  {
    Sum(xs) / |xs| as real
  }

  function Square(x: real): real {
    x * x
  }

  function Squares(xs: seq<real>): seq<real> {
    seq(|xs|, i requires 0 <= i < |xs| => Square(xs[i]))
  }

  function Deviations(xs: seq<real>, m: real): seq<real> {
    seq(|xs|, i requires 0 <= i < |xs| => xs[i] - m)
  }

  /** The population variance. */
  function Variance(xs: seq<real>): real
    requires xs != []
  {
    Sum(Squares(Deviations(xs, Mean(xs)))) / |xs| as real
  }

  function Clamp(x: real): real {
    Max(-1.0, Min(1.0, x))
  }

  /** How far the last price is from the mean. */
  function LastDeviation(xs: seq<real>): real
    requires xs != []
  {
    xs[|xs| - 1] - Mean(xs)
  }

  predicate IsStd(xs: seq<real>, std: real)
    requires xs != []
  {
    std >= 0.0 && Square(std) == Variance(xs)
  }

  /** The score before it is clamped: the last price's z-score, upside down, three to one. */
  function Raw(xs: seq<real>, std: real): real
    requires xs != [] && std > 0.0
  {
    -(LastDeviation(xs) / std) / 3.0
  }

  /** A window that leaves no price to look at makes the source divide by zero. */
  function Score(prices: seq<real>, window: int, std: real): real
    requires |prices| >= 2 ==> Lookback(prices, window) != [] && IsStd(Lookback(prices, window), std)
  {
    var xs := Lookback(prices, window);
    if |prices| < 2 || std == 0.0 then 0.0 else Clamp(Raw(xs, std))
  }

  // ---- Sums of squares ----

  lemma {:induction false} SumDeviations(xs: seq<real>, m: real)
    ensures Sum(Deviations(xs, m)) == Sum(xs) - |xs| as real * m
  {
    if xs != [] {
      var n := |xs| - 1;
      SumDeviations(xs[..n], m);
      assert Deviations(xs, m)[..n] == Deviations(xs[..n], m);
      assert (n + 1) as real * m == n as real * m + m;
    }
  }

  lemma DeviationsCancel(xs: seq<real>)
    requires xs != []
    ensures Sum(Deviations(xs, Mean(xs))) == 0.0
  {
    SumDeviations(xs, Mean(xs));
    assert |xs| as real * Mean(xs) == Sum(xs);
  }

  lemma SquaresSnoc(xs: seq<real>, n: nat)
    requires |xs| == n + 1
    ensures Squares(xs)[..n] == Squares(xs[..n]) && Sum(Squares(xs)) == Sum(Squares(xs[..n])) + Square(xs[n])
    ensures Sum(xs) == Sum(xs[..n]) + xs[n]
  {
    assert Squares(xs)[..n] == Squares(xs[..n]);
  }

  lemma {:induction false} SquaresNotNegative(xs: seq<real>)
    ensures Sum(Squares(xs)) >= 0.0
    ensures Sum(Squares(xs)) == 0.0 ==> forall i :: 0 <= i < |xs| ==> xs[i] == 0.0
  {
    if xs != [] {
      var n := |xs| - 1;
      SquaresNotNegative(xs[..n]);
      SquaresSnoc(xs, n);
      SquareSign(xs[n]);
      assert forall i :: 0 <= i < n ==> xs[..n][i] == xs[i];
    }
  }

  lemma SameSignProduct(x: real, y: real, product: real)
    requires (x > 0.0 && y > 0.0) || (x < 0.0 && y < 0.0)
    requires product == x * y
    ensures product > 0.0
  {
  }

  lemma SquareSign(x: real)
    ensures Square(x) >= 0.0 && (Square(x) == 0.0 <==> x == 0.0)
  {
    if x == 0.0 {
      assert Square(x) == 0.0;
    } else {
      SameSignProduct(x, x, Square(x));
    }
  }

  /** One step of the Cauchy-Schwarz induction: `s` and `q` are the sums so far over `k` numbers. */
  lemma CauchyStep(k: real, s: real, q: real, x: real)
    requires k >= 1.0 && Square(s) <= k * q
    ensures Square(s + x) <= (k + 1.0) * (q + Square(x))
  {
    var y := k * x;
    assert Square(s - y) == Square(s) - 2.0 * (s * y) + Square(y);
    SquareSign(s - y);
    assert s * y == k * (s * x) && Square(y) == k * (k * Square(x));
    assert k * (2.0 * (s * x)) <= k * (q + k * Square(x));
    assert 2.0 * (s * x) <= q + k * Square(x) by {
      CancelFactor(k, 2.0 * (s * x), q + k * Square(x));
    }
    assert Square(s + x) == Square(s) + 2.0 * (s * x) + Square(x);
    assert (k + 1.0) * (q + Square(x)) == k * q + q + k * Square(x) + Square(x);
  }

  lemma CancelFactor(k: real, a: real, b: real)
    requires k > 0.0
    ensures k * a <= k * b <==> a <= b
  {
    if a > b {
      assert k * (a - b) > 0.0;
    } else {
      assert k * (b - a) >= 0.0;
    }
  }

  /** The square of a sum is at most the count times the sum of squares. */
  lemma {:induction false} Cauchy(xs: seq<real>)
    ensures Square(Sum(xs)) <= |xs| as real * Sum(Squares(xs))
  {
    if |xs| == 1 {
      SquaresSnoc(xs, 0);
    } else if xs != [] {
      var n := |xs| - 1;
      Cauchy(xs[..n]);
      SquaresSnoc(xs, n);
      CauchyStep(n as real, Sum(xs[..n]), Sum(Squares(xs[..n])), xs[n]);
    }
  }

  // ---- Samuelson's inequality ----

  /** With the last deviation `d`, the sum of the others' squares `rest`, and the variance `v`. */
  lemma LastAgainstRest(k: real, d: real, rest: real, v: real)
    requires k >= 0.0 && Square(-d) <= k * rest && (k + 1.0) * v == rest + Square(d)
    ensures Square(d) <= k * v
  {
    assert (k + 1.0) * Square(d) <= k * (rest + Square(d));
    FactorOut(k + 1.0, k, v, rest + Square(d));
    CancelFactor(k + 1.0, Square(d), k * v);
  }

  lemma VarianceTotal(xs: seq<real>)
    requires xs != []
    ensures |xs| as real * Variance(xs) == Sum(Squares(Deviations(xs, Mean(xs))))
  {
  }

  /** The last of `n` prices is never further from their mean than the square root of `n - 1`
      standard deviations. */
  lemma Samuelson(xs: seq<real>)
    requires xs != []
    ensures Square(LastDeviation(xs)) <= (|xs| - 1) as real * Variance(xs)
  {
    hide Variance, Mean, Sum, Squares, Square;
    var n := |xs| - 1;
    var ds := Deviations(xs, Mean(xs));
    DeviationsCancel(xs);
    SquaresSnoc(ds, n);
    Cauchy(ds[..n]);
    VarianceTotal(xs);
    LastAgainstRest(n as real, ds[n], Sum(Squares(ds[..n])), Variance(xs));
  }

  lemma FactorOut(m: real, n: real, v: real, total: real)
    requires m * v == total
    ensures m * (n * v) == n * total
  {
  }

  /** The clamp has something to do: the score before clamping lies outside [-1, 1]. */
  predicate Clamped(xs: seq<real>, std: real)
    requires xs != [] && std > 0.0
  {
    Clamp(Raw(xs, std)) != Raw(xs, std)
  }

  lemma ClampedIsFar(xs: seq<real>, std: real)
    requires xs != [] && std > 0.0 && IsStd(xs, std)
    ensures Clamped(xs, std) <==> Square(LastDeviation(xs)) > 9.0 * Variance(xs)
  {
    var d, r := LastDeviation(xs), Raw(xs, std);
    assert r * (3.0 * std) == -d by {
      assert d / std * std == d;
    }
    assert Square(d) == 9.0 * (Square(r) * Square(std));
    SquareSign(std);
    SquareOfUnit(r);
    ScaledSquare(Square(r), Square(std));
  }

  lemma SquareOfUnit(r: real)
    ensures -1.0 <= r <= 1.0 <==> Square(r) <= 1.0
  {
    var product := (r - 1.0) * (r + 1.0);
    assert product == Square(r) - 1.0;
    if r > 1.0 || r < -1.0 {
      SameSignProduct(r - 1.0, r + 1.0, product);
    } else if -1.0 < r < 1.0 {
      SameSignProduct(1.0 - r, r + 1.0, -product);
    }
  }

  lemma ScaledSquare(q: real, v: real)
    requires v > 0.0
    ensures q * v <= v <==> q <= 1.0
  {
    CancelFactor(v, q, 1.0);
  }

  /** With a lookback of ten or fewer the clamp never engages, whatever the prices. */
  lemma TenNeverClamp(xs: seq<real>, std: real)
    requires xs != [] && std > 0.0 && IsStd(xs, std) && |xs| <= 10
    ensures !Clamped(xs, std)
  {
    Samuelson(xs);
    ClampedIsFar(xs, std);
    SquareSign(std);
    assert (|xs| - 1) as real * Variance(xs) <= 9.0 * Variance(xs);
  }

  /** Zeros, and a one at the end. */
  function Spike(n: nat): seq<real>
    requires n >= 1
  {
    seq(n - 1, i => 0.0) + [1.0]
  }

  lemma SpikeSums(n: nat, m: real)
    requires n >= 1
    ensures Sum(Spike(n)) == 1.0
    ensures Sum(Squares(Deviations(Spike(n), m))) == (n - 1) as real * Square(0.0 - m) + Square(1.0 - m)
  {
    hide Sum, Square;
    SumOfConstant(n - 1, 0.0);
    SumSnoc(seq(n - 1, i => 0.0), 1.0);
    var squares := Squares(Deviations(Spike(n), m));
    assert squares == seq(n - 1, i => Square(0.0 - m)) + [Square(1.0 - m)];
    SumSnoc(seq(n - 1, i => Square(0.0 - m)), Square(1.0 - m));
    SumOfConstant(n - 1, Square(0.0 - m));
  }

  /** Samuelson's bound is attained at every length: by a single spike. */
  lemma SpikeAttains(n: nat)
    requires n >= 1
    ensures |Spike(n)| == n && Square(LastDeviation(Spike(n))) == (n - 1) as real * Variance(Spike(n))
    ensures n >= 2 ==> Variance(Spike(n)) > 0.0
  {
    hide Sum, Squares, Square;
    SpikeSums(n, Mean(Spike(n)));
    SpikeArithmetic(n as real, (n - 1) as real, Mean(Spike(n)), Variance(Spike(n)));
  }

  lemma SpikeArithmetic(n: real, k: real, m: real, v: real)
    requires n >= 1.0 && k == n - 1.0 && m == 1.0 / n && v == (k * Square(0.0 - m) + Square(1.0 - m)) / n
    ensures Square(1.0 - m) == k * v && (n >= 2.0 ==> v > 0.0)
  {
    assert n * m == 1.0;
    assert Square(0.0 - m) == Square(m);
    assert 1.0 - m == k * m;
    assert Square(k * m) == k * (k * Square(m));
    assert k * Square(m) + k * (k * Square(m)) == n * (k * Square(m));
    assert n * v == n * (k * Square(m));
    SameProduct(n, v, k * Square(m));
    SquareSign(m);
  }

  lemma SameProduct(n: real, a: real, b: real)
    requires n > 0.0 && n * a == n * b
    ensures a == b
  {
    assert n * (a - b) == 0.0;
  }

  /** From eleven prices on the clamp does engage: some price list of that length needs it. With
      TenNeverClamp, the lookback lengths at which the clamp matters are exactly those above ten. */
  lemma ElevenMayClamp(n: nat, std: real)
    requires n >= 11 && IsStd(Spike(n), std)
    ensures std > 0.0 && Clamped(Spike(n), std)
  {
    SpikeAttains(n);
    SquareSign(std);
    ClampedIsFar(Spike(n), std);
    assert (n - 1) as real * Variance(Spike(n)) > 9.0 * Variance(Spike(n));
  }

  // ---- What the score means ----

  /** Only the last `window` prices are looked at: whatever came before them, the score is what they
      score by themselves, under any window that holds them all. */
  lemma ScoreLooksBack(ys: seq<real>, xs: seq<real>, window: int, wide: int, std: real)
    requires |xs| == window >= 1 && wide >= |xs| && IsStd(xs, std)
    ensures Lookback(ys + xs, window) == xs && Lookback(xs, wide) == xs
    ensures Score(ys + xs, window, std) == Score(xs, wide, std)
  {
    hide IsStd;
    assert Lookback(ys + xs, window) == xs;
    if |xs| == 1 {
      NoSpread(xs, std);
    }
  }

  lemma NoSpread(xs: seq<real>, std: real)
    requires |xs| == 1 && IsStd(xs, std)
    ensures std == 0.0
  {
    SumSnoc([], xs[0]);
    assert [] + [xs[0]] == xs && Sum([]) == 0.0 && Mean(xs) == xs[0];
    var squares := Squares(Deviations(xs, Mean(xs)));
    assert squares == [] + [0.0];
    SumSnoc([], 0.0);
    SquareSign(std);
  }

  /** What the score says, of the last `window` prices, or of all when there are fewer (a negative
      window skips as many from the start): how far the last is from their mean, upside down, in
      thirds of a standard deviation, and no further than one. So it is positive below the mean,
      negative above it, and zero on it. */
  lemma ScoreSign(prices: seq<real>, window: int, recent: seq<real>, std: real)
    requires |prices| >= 2 && window > -|prices|
    requires recent == if 0 < window <= |prices| then prices[|prices| - window..]
                       else if window < 0 then prices[-window..] else prices
    requires IsStd(recent, std)
    ensures Lookback(prices, window) == recent
    ensures var s, d := Score(prices, window, std), prices[|prices| - 1] - Sum(recent) / |recent| as real;
            && (s > 0.0 <==> d < 0.0) && (s < 0.0 <==> d > 0.0)
            && (if d > 3.0 * std then s == -1.0 else if d < -3.0 * std then s == 1.0 else s * (3.0 * std) == -d)
  {
    hide Sum, Variance;
    var d := LastDeviation(recent);
    if std == 0.0 {
      NoDeviation(recent);
    } else {
      QuotientSign(d, std);
      RawValue(d, std, -(d / std) / 3.0);
    }
  }

  lemma NoDeviation(xs: seq<real>)
    requires xs != [] && Variance(xs) == 0.0
    ensures LastDeviation(xs) == 0.0
  {
    var ds := Deviations(xs, Mean(xs));
    SquaresNotNegative(ds);
    assert Sum(Squares(ds)) == Variance(xs) * |xs| as real;
    assert ds[|xs| - 1] == 0.0;
  }

  lemma RawValue(d: real, std: real, raw: real)
    requires std > 0.0 && raw == -(d / std) / 3.0
    ensures raw * (3.0 * std) == -d
    ensures (raw < -1.0 <==> d > 3.0 * std) && (raw > 1.0 <==> d < -3.0 * std)
  {
    assert d / std * std == d;
    var c := 3.0 * std;
    assert raw * c == -d;
    if raw < -1.0 {
      SameSignProduct(-1.0 - raw, c, (-1.0 - raw) * c);
    } else if raw > 1.0 {
      SameSignProduct(raw - 1.0, c, (raw - 1.0) * c);
    }
    assert raw > -1.0 ==> (raw + 1.0) * c > 0.0;
    assert raw < 1.0 ==> (1.0 - raw) * c > 0.0;
  }

  lemma QuotientSign(d: real, std: real)
    requires std > 0.0
    ensures (d / std > 0.0 <==> d > 0.0) && (d / std < 0.0 <==> d < 0.0)
  {
  }

  // ---- Affine invariance ----

  function Affine(x: real, a: real, b: real): real {
    a * x + b
  }

  function Rescaled(xs: seq<real>, a: real, b: real): seq<real> {
    seq(|xs|, i requires 0 <= i < |xs| => Affine(xs[i], a, b))
  }

  lemma AffineAdds(n: nat, s: real, x: real, a: real, b: real)
    ensures (a * s + n as real * b) + Affine(x, a, b) == a * (s + x) + (n + 1) as real * b
  {
  }

  lemma {:induction false} SumRescaled(xs: seq<real>, a: real, b: real)
    ensures Sum(Rescaled(xs, a, b)) == a * Sum(xs) + |xs| as real * b
  {
    hide Affine;
    if xs != [] {
      var n := |xs| - 1;
      SumRescaled(xs[..n], a, b);
      assert Rescaled(xs, a, b)[..n] == Rescaled(xs[..n], a, b);
      AffineAdds(n, Sum(xs[..n]), xs[n], a, b);
    }
  }

  lemma MeanRescaled(xs: seq<real>, a: real, b: real)
    requires xs != []
    ensures Mean(Rescaled(xs, a, b)) == Affine(Mean(xs), a, b)
  {
    hide Sum, Affine;
    SumRescaled(xs, a, b);
    AffineQuotient(Sum(xs), |xs| as real, a, b);
  }

  lemma AffineQuotient(s: real, n: real, a: real, b: real)
    requires n > 0.0
    ensures (a * s + n * b) / n == Affine(s / n, a, b)
  {
    assert n * (s / n) == s;
    assert n * (a * (s / n)) == a * s;
    assert n * Affine(s / n, a, b) == a * s + n * b;
    SameProduct(n, (a * s + n * b) / n, Affine(s / n, a, b));
  }

  lemma DeviationRescaled(x: real, m: real, a: real, b: real)
    ensures Affine(x, a, b) - Affine(m, a, b) == a * (x - m)
    ensures Square(Affine(x, a, b) - Affine(m, a, b)) == Affine(Square(x - m), Square(a), 0.0)
  {
    var d := x - m;
    assert a * x - a * m == a * d;
    assert Square(a * d) == Square(a) * Square(d);
  }

  lemma VarianceRescaled(xs: seq<real>, a: real, b: real)
    requires xs != []
    ensures Variance(Rescaled(xs, a, b)) == Square(a) * Variance(xs)
  {
    hide Sum, Mean, Square, Affine;
    var m, ys := Mean(xs), Rescaled(xs, a, b);
    MeanRescaled(xs, a, b);
    var squares := Squares(Deviations(xs, m));
    forall i | 0 <= i < |xs|
      ensures Square(ys[i] - Mean(ys)) == Affine(squares[i], Square(a), 0.0)
    {
      DeviationRescaled(xs[i], m, a, b);
    }
    assert Squares(Deviations(ys, Mean(ys))) == Rescaled(squares, Square(a), 0.0);
    SumRescaled(squares, Square(a), 0.0);
    assert |ys| == |xs| == |squares|;
    assert Sum(Rescaled(squares, Square(a), 0.0)) == Square(a) * Sum(squares);
    QuotientScaled(Square(a), Sum(squares), |xs| as real);
  }

  lemma QuotientScaled(a: real, x: real, n: real)
    requires n > 0.0
    ensures a * x / n == a * (x / n)
  {
    assert n * (a * x / n) == a * x;
    assert n * (x / n) == x;
    assert n * (a * (x / n)) == a * x;
    SameProduct(n, a * x / n, a * (x / n));
  }

  lemma TailRescaled(prices: seq<real>, window: int, a: real, b: real)
    ensures Lookback(Rescaled(prices, a, b), window) == Rescaled(Lookback(prices, window), a, b)
  {
    hide Affine;
  }

  lemma StdRescaled(xs: seq<real>, std: real, a: real, b: real)
    requires xs != [] && IsStd(xs, std)
    ensures IsStd(Rescaled(xs, a, b), Abs(a) * std)
  {
    hide Variance, Rescaled;
    VarianceRescaled(xs, a, b);
    assert Square(Abs(a) * std) == Square(a) * Square(std) by {
      assert Square(Abs(a) * std) == Square(Abs(a)) * Square(std);
    }
    assert Abs(a) * std >= 0.0;
  }

  lemma RawRescaled(xs: seq<real>, std: real, a: real, b: real)
    requires xs != [] && std > 0.0 && a != 0.0
    ensures Abs(a) * std > 0.0
    ensures Raw(Rescaled(xs, a, b), Abs(a) * std) == if a > 0.0 then Raw(xs, std) else -Raw(xs, std)
  {
    hide Mean, Affine;
    MeanRescaled(xs, a, b);
    DeviationRescaled(xs[|xs| - 1], Mean(xs), a, b);
    assert LastDeviation(Rescaled(xs, a, b)) == a * LastDeviation(xs);
    RatioScaled(LastDeviation(xs), std, a);
  }

  /** Quoting prices in another unit or from another origin, `p` to `a p + b`, leaves the score as
      it is; turning them upside down, `a` negative, turns the score upside down. */
  lemma AffineInvariance(prices: seq<real>, window: int, std: real, a: real, b: real)
    requires a != 0.0
    requires |prices| >= 2 && Lookback(prices, window) != [] && IsStd(Lookback(prices, window), std)
    ensures Lookback(Rescaled(prices, a, b), window) == Rescaled(Lookback(prices, window), a, b)
    ensures IsStd(Rescaled(Lookback(prices, window), a, b), Abs(a) * std)
    ensures Score(Rescaled(prices, a, b), window, Abs(a) * std)
            == if a > 0.0 then Score(prices, window, std) else -Score(prices, window, std)
  {
    hide IsStd, Raw, Lookback;
    var xs := Lookback(prices, window);
    TailRescaled(prices, window, a, b);
    StdRescaled(xs, std, a, b);
    if std == 0.0 {
      assert Abs(a) * std == 0.0;
    } else {
      StdNotNegative(xs, std);
      RawRescaled(xs, std, a, b);
    }
  }

  lemma StdNotNegative(xs: seq<real>, std: real)
    requires xs != [] && IsStd(xs, std)
    ensures std >= 0.0
  {
  }

  lemma RatioScaled(d: real, std: real, a: real)
    requires std > 0.0 && a != 0.0
    ensures Abs(a) * std > 0.0 && a * d / (Abs(a) * std) == if a > 0.0 then d / std else -(d / std)
  {
    var q, c := d / std, Abs(a) * std;
    assert q * std == d;
    assert c > 0.0;
    var r := if a > 0.0 then q else -q;
    assert c * r == a * d;
    assert c * (a * d / c) == a * d;
    SameProduct(c, a * d / c, r);
  }
}
