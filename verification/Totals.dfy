/** Sums over the values of a dictionary and over lists, and the tail of a list. */
module Totals {

  ghost function Total<K>(m: map<K, real>): real
    decreases |m|
  {
    if m == map[] then 0.0
    else
      var k :| k in m;
      m[k] + Total(m - {k})
  }

  /** The order in which a dictionary is summed does not matter: any key may be taken out first. */
  lemma {:induction false} TotalRemove<K>(m: map<K, real>, k: K)
    requires k in m
    ensures Total(m) == m[k] + Total(m - {k})
    decreases |m|
  {
    var j :| j in m && Total(m) == m[j] + Total(m - {j});
    if j != k {
      TotalRemove(m - {j}, k);
      TotalRemove(m - {k}, j);
      assert m - {j} - {k} == m - {k} - {j};
    }
  }

  lemma TotalUpdate<K>(m: map<K, real>, k: K, v: real)
    ensures Total(m[k := v]) == Total(m) + v - (if k in m then m[k] else 0.0)
  {
    TotalRemove(m[k := v], k);
    if k in m {
      TotalRemove(m, k);
      assert m[k := v] - {k} == m - {k};
    } else {
      assert m[k := v] - {k} == m;
    }
  }

  /** Sums distribute over pointwise addition of dictionaries with the same keys. */
  lemma {:induction false} TotalAdd<K>(a: map<K, real>, b: map<K, real>, c: map<K, real>)
    requires a.Keys == b.Keys == c.Keys
    requires forall k :: k in c ==> c[k] == a[k] + b[k]
    ensures Total(c) == Total(a) + Total(b)
    decreases |c|
  {
    if c == map[] {
      assert a == map[] && b == map[];
    } else {
      var k :| k in c;
      TotalRemove(a, k);
      TotalRemove(b, k);
      TotalRemove(c, k);
      TotalAdd(a - {k}, b - {k}, c - {k});
    }
  }

  lemma {:induction false} TotalNotNegative<K>(m: map<K, real>)
    requires forall k :: k in m ==> m[k] >= 0.0
    ensures Total(m) >= 0.0
    decreases |m|
  {
    if m != map[] {
      var k :| k in m && Total(m) == m[k] + Total(m - {k});
      TotalNotNegative(m - {k});
    }
  }

  lemma {:induction false} TotalOfZeros<K>(m: map<K, real>)
    requires forall k :: k in m ==> m[k] == 0.0
    ensures Total(m) == 0.0
    decreases |m|
  {
    if m != map[] {
      var k :| k in m && Total(m) == m[k] + Total(m - {k});
      TotalOfZeros(m - {k});
    }
  }

  function Sum(xs: seq<real>): real {
    if xs == [] then 0.0 else Sum(xs[..|xs| - 1]) + xs[|xs| - 1]
  }

  lemma SumSnoc(xs: seq<real>, x: real)
    ensures Sum(xs + [x]) == Sum(xs) + x
  {
    assert (xs + [x])[..|xs|] == xs;
  }

  lemma {:induction false} SumOfConstant(n: nat, c: real)
    ensures Sum(seq(n, i => c)) == n as real * c
  {
    if n > 0 {
      SumOfConstant(n - 1, c);
      assert seq(n, i => c)[..n - 1] == seq(n - 1, i => c);
      assert n as real * c == (n - 1) as real * c + c;
    }
  }

  lemma {:induction false} SumConcat(xs: seq<real>, ys: seq<real>)
    ensures Sum(xs + ys) == Sum(xs) + Sum(ys)
  {
    if ys == [] {
      assert xs + ys == xs;
    } else {
      var zs := ys[..|ys| - 1];
      assert xs + ys == (xs + zs) + [ys[|ys| - 1]];
      SumSnoc(xs + zs, ys[|ys| - 1]);
      SumConcat(xs, zs);
    }
  }

  /** The slice `xs[-n:]`: the last `n`, or all but the first `-n` when `n` is negative. */
  function Tail(xs: seq<real>, n: int): seq<real> {
    if n > 0 then (if |xs| > n then xs[|xs| - n..] else xs)
    else if n < 0 && -n <= |xs| then xs[-n..]
    else if n == 0 then xs else []
  }
}
