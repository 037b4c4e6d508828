/** Arithmetic the generator applies to its sampled floats, stated over exact reals:
    Python's round-half-to-even `round(x, k)`, the truncating `int(x)`, `max`/`min`,
    column sums and means, and the linearly interpolated quantile of a column. */
module Numerics {

  function Max(a: real, b: real): (r: real)
    ensures r >= a && r >= b && (r == a || r == b)
  {
    if b > a then b else a
  }

  function MinInt(a: int, b: int): (r: int)
    ensures r <= a && r <= b && (r == a || r == b)
  {
    if b < a then b else a
  }

  function Pow10(k: nat): (r: nat)
    ensures r >= 1
  {
    if k == 0 then 1 else 10 * Pow10(k - 1)
  }

  /** The integer nearest to y; a tie goes to the even neighbour (IEEE and Python rounding). */
  function NearestEven(y: real): (n: int)
    ensures -0.5 <= n as real - y <= 0.5
    ensures (n as real - y == 0.5 || y - n as real == 0.5) ==> n % 2 == 0
  {
    var f := y.Floor;
    var d := y - f as real;
    if d < 0.5 then f
    else if d > 0.5 then f + 1
    else if f % 2 == 0 then f
    else f + 1
  }

  /** `round(x, k)`: x rounded to k decimal places, ties to even. */
  function Round(x: real, k: nat): real
  {
    RoundToStep(x, Pow10(k) as real)
  }

  /** x rounded to the nearest multiple of 1/p, ties to an even multiple. */
  function RoundToStep(x: real, p: real): (r: real)
    requires p > 0.0
    ensures r * p == NearestEven(x * p) as real
  {
    NearestEven(x * p) as real / p
  }

  lemma NearestEvenMonotone(a: real, b: real)
    requires a <= b
    ensures NearestEven(a) <= NearestEven(b)
  {
  }

  lemma DivMonotone(a: real, b: real, p: real)
    requires p > 0.0 && a <= b
    ensures a / p <= b / p
  {
    var qa, qb := a / p, b / p;
    assert qa * p == a && qb * p == b;
  }

  lemma MulMonotone(a: real, b: real, p: real)
    requires p > 0.0 && a <= b
    ensures a * p <= b * p
  {
    assert b * p - a * p == (b - a) * p;
  }

  lemma RoundToStepMonotone(x: real, y: real, p: real)
    requires p > 0.0 && x <= y
    ensures RoundToStep(x, p) <= RoundToStep(y, p)
  {
    MulMonotone(x, y, p);
    NearestEvenMonotone(x * p, y * p);
    DivMonotone(NearestEven(x * p) as real, NearestEven(y * p) as real, p);
  }

  /** Rounding never reverses the order of two values. */
  lemma RoundMonotone(x: real, y: real, k: nat)
    requires x <= y
    ensures Round(x, k) <= Round(y, k)
  {
    RoundToStepMonotone(x, y, Pow10(k) as real);
  }

  lemma RoundToStepError(x: real, p: real)
    requires p > 0.0
    ensures -0.5 / p <= RoundToStep(x, p) - x <= 0.5 / p
  {
    var n := NearestEven(x * p) as real;
    assert -0.5 <= n - x * p <= 0.5;
    assert n / p - x == (n - x * p) / p;
    DivMonotone(-0.5, n - x * p, p);
    DivMonotone(n - x * p, 0.5, p);
  }

  /** Rounding to k places moves a value by at most half a unit in the k-th place. */
  lemma RoundError(x: real, k: nat)
    ensures -0.5 / Pow10(k) as real <= Round(x, k) - x <= 0.5 / Pow10(k) as real
  {
    RoundToStepError(x, Pow10(k) as real);
  }

  /** Rounding keeps a value between two bounds that rounding leaves unchanged. */
  lemma RoundBetween(x: real, k: nat, lo: real, hi: real)
    requires lo <= x <= hi
    requires Round(lo, k) == lo && Round(hi, k) == hi
    ensures lo <= Round(x, k) <= hi
  {
    RoundMonotone(lo, x, k);
    RoundMonotone(x, hi, k);
  }

  /** `int(x)` on a float: truncation toward zero. */
  function TruncateToInt(x: real): (n: int)
    ensures x >= 0.0 ==> 0 <= n && n as real <= x < n as real + 1.0
    ensures x < 0.0 ==> n <= 0 && n as real - 1.0 < x <= n as real
  {
    if x >= 0.0 then x.Floor else -((-x).Floor)
  }

  function Sum(xs: seq<real>): real
  {
    if xs == [] then 0.0 else Sum(xs[..|xs| - 1]) + xs[|xs| - 1]
  }

  /** A column mean, as pandas' `mean` computes it on a non-empty column. */
  function Mean(xs: seq<real>): real
    requires |xs| > 0
  {
    Sum(xs) / |xs| as real
  }

  lemma {:induction false} SumAtMost(xs: seq<real>, hi: real)
    requires forall i :: 0 <= i < |xs| ==> xs[i] <= hi
    ensures Sum(xs) <= |xs| as real * hi
  {
    if xs != [] {
      SumAtMost(xs[..|xs| - 1], hi);
    }
  }

  lemma {:induction false} SumAtLeast(xs: seq<real>, lo: real)
    requires forall i :: 0 <= i < |xs| ==> lo <= xs[i]
    ensures |xs| as real * lo <= Sum(xs)
  {
    if xs != [] {
      SumAtLeast(xs[..|xs| - 1], lo);
    }
  }

  /** The mean of a column is at least any lower bound of all its entries. */
  lemma MeanAtLeast(xs: seq<real>, lo: real)
    requires |xs| > 0
    requires forall i :: 0 <= i < |xs| ==> lo <= xs[i]
    ensures lo <= Mean(xs)
  {
    SumAtLeast(xs, lo);
    var n := |xs| as real;
    assert (n * lo) / n == lo;
    DivMonotone(n * lo, Sum(xs), n);
  }

  /** The mean of a column is at most any upper bound of all its entries. */
  lemma MeanAtMost(xs: seq<real>, hi: real)
    requires |xs| > 0
    requires forall i :: 0 <= i < |xs| ==> xs[i] <= hi
    ensures Mean(xs) <= hi
  {
    SumAtMost(xs, hi);
    var n := |xs| as real;
    assert (n * hi) / n == hi;
    DivMonotone(Sum(xs), n * hi, n);
  }

  /** The mean of a column lies within any bounds that hold for every entry. */
  lemma MeanBounds(xs: seq<real>, lo: real, hi: real)
    requires |xs| > 0
    requires forall i :: 0 <= i < |xs| ==> lo <= xs[i] <= hi
    ensures lo <= Mean(xs) <= hi
  {
    MeanAtLeast(xs, lo);
    MeanAtMost(xs, hi);
  }

  predicate Sorted(s: seq<real>)
  {
    forall i, j :: 0 <= i < j < |s| ==> s[i] <= s[j]
  }

  lemma SortedCons(a: real, t: seq<real>)
    requires Sorted(t) && (t == [] || a <= t[0])
    ensures Sorted([a] + t)
  {
    forall i, j | 0 <= i < j < |t| + 1
      ensures ([a] + t)[i] <= ([a] + t)[j]
    {
      assert ([a] + t)[j] == t[j - 1];
      if i > 0 {
        assert ([a] + t)[i] == t[i - 1];
      }
    }
  }

  function Insert(x: real, s: seq<real>): (r: seq<real>)
    requires Sorted(s)
    ensures |r| == |s| + 1
    ensures r[0] == x || (s != [] && r[0] == s[0])
    ensures Sorted(r)
    ensures multiset(r) == multiset(s) + multiset{x}
  {
    if s == [] then [x]
    else if x <= s[0] then
      SortedCons(x, s);
      [x] + s
    else
      assert s == [s[0]] + s[1..];
      var t := Insert(x, s[1..]);
      SortedCons(s[0], t);
      [s[0]] + t
  }

  /** The ascending order of a column (the order pandas sorts a column into for `quantile`). */
  function SortAscending(s: seq<real>): (r: seq<real>)
    ensures Sorted(r)
    ensures multiset(r) == multiset(s)
  {
    if s == [] then []
    else
      assert s == s[..|s| - 1] + [s[|s| - 1]];
      Insert(s[|s| - 1], SortAscending(s[..|s| - 1]))
  }

  /** The virtual index (n - 1) * q of numpy's linear quantile, split into its whole part. */
  function QuantileIndex(n: nat, q: real): (lo: nat)
    requires n > 0 && 0.0 <= q <= 1.0
    ensures lo < n
    ensures lo as real <= (n - 1) as real * q < lo as real + 1.0
  {
    var m := (n - 1) as real;
    var h := m * q;
    assert 0.0 <= h <= m by {
      LerpBetween(0.0, m, q);
      assert q * (m - 0.0) == m * q;
    }
    h.Floor
  }

  /** `Series.quantile(q)` with the default linear interpolation between order statistics. */
  function Quantile(xs: seq<real>, q: real): real
    requires |xs| > 0 && 0.0 <= q <= 1.0
  {
    var s := SortAscending(xs);
    assert |s| == |multiset(s)| == |xs|;
    Interpolate(s, q)
  }

  /** Linear interpolation at the virtual index (n - 1) * q of an ascending column. */
  function Interpolate(s: seq<real>, q: real): real
    requires |s| > 0 && 0.0 <= q <= 1.0
  {
    var lo := QuantileIndex(|s|, q);
    var frac := (|s| - 1) as real * q - lo as real;
    if lo + 1 < |s| then s[lo] + frac * (s[lo + 1] - s[lo]) else s[lo]
  }

  lemma PermutationKeepsBounds(xs: seq<real>, s: seq<real>, lo: real, hi: real)
    requires multiset(s) == multiset(xs)
    requires forall i :: 0 <= i < |xs| ==> lo <= xs[i] <= hi
    ensures forall i :: 0 <= i < |s| ==> lo <= s[i] <= hi
  {
    forall i | 0 <= i < |s|
      ensures lo <= s[i] <= hi
    {
      assert s[i] in multiset(s);
      assert s[i] in xs;
    }
  }

  lemma LerpBetween(a: real, b: real, t: real)
    requires a <= b && 0.0 <= t <= 1.0
    ensures a <= a + t * (b - a) <= b
  {
    var d := b - a;
    if a < b {
      MulMonotone(0.0, t, d);
      MulMonotone(t, 1.0, d);
      assert 0.0 * d == 0.0 && 1.0 * d == d;
    } else {
      assert d == 0.0 && t * d == 0.0;
    }
  }

  lemma InterpolateBetween(s: seq<real>, q: real, lo: real, hi: real)
    requires |s| > 0 && 0.0 <= q <= 1.0
    requires Sorted(s)
    requires forall i :: 0 <= i < |s| ==> lo <= s[i] <= hi
    ensures lo <= Interpolate(s, q) <= hi
  {
    var l := QuantileIndex(|s|, q);
    if l + 1 < |s| {
      var frac := (|s| - 1) as real * q - l as real;
      assert 0.0 <= frac <= 1.0;
      assert lo <= s[l] <= s[l + 1] <= hi;
      LerpBetween(s[l], s[l + 1], frac);
      assert Interpolate(s, q) == s[l] + frac * (s[l + 1] - s[l]);
    } else {
      InterpolateAtLast(s, q);
      assert lo <= s[l] <= hi;
    }
  }

  /** When the virtual index is the last position there is no neighbour to interpolate
      towards, and the quantile is the last order statistic. */
  lemma InterpolateAtLast(s: seq<real>, q: real)
    requires |s| > 0 && 0.0 <= q <= 1.0
    requires QuantileIndex(|s|, q) + 1 >= |s|
    ensures QuantileIndex(|s|, q) == |s| - 1 && Interpolate(s, q) == s[|s| - 1]
  {
  }

  /** The interpolated quantile lies within any bounds that hold for every entry of the column. */
  lemma QuantileBetween(xs: seq<real>, q: real, lo: real, hi: real)
    requires |xs| > 0 && 0.0 <= q <= 1.0
    requires forall i :: 0 <= i < |xs| ==> lo <= xs[i] <= hi
    ensures lo <= Quantile(xs, q) <= hi
  {
    var s := SortAscending(xs);
    assert |s| == |multiset(s)| == |xs|;
    PermutationKeepsBounds(xs, s, lo, hi);
    InterpolateBetween(s, q, lo, hi);
  }
}
