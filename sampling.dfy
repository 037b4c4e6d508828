/** How the generator turns its random draws into values. A draw is supplied in standard
    form — a unit value u in [0, 1) for `uniform` and for a weighted `choice`, a standard
    normal deviate z for `normal` — and is mapped the way numpy maps it. */
module Sampling {
  import opened Numerics

  /** `uniform(lo, hi)` from the unit draw u. */
  function Uniform(lo: real, hi: real, u: real): real
  {
    lo + (hi - lo) * u
  }

  /** `normal(loc, scale)` from the standard deviate z. */
  function Normal(loc: real, scale: real, z: real): real
  {
    loc + scale * z
  }

  lemma UniformRange(lo: real, hi: real, u: real)
    requires lo <= hi && 0.0 <= u < 1.0
    ensures lo <= Uniform(lo, hi, u) <= hi
  {
    LerpBetween(lo, hi, u);
    assert (hi - lo) * u == u * (hi - lo);
  }

  /** `choice(labels, p=weights)` from the unit draw u: the first index whose cumulative
      weight exceeds u (numpy's `searchsorted(cdf, u, side='right')`). */
  function WeightedPick(weights: seq<real>, u: real): (i: nat)
    requires |weights| > 0
    ensures i < |weights|
  {
    if |weights| == 1 || u < weights[0] then 0
    else 1 + WeightedPick(weights[1..], u - weights[0])
  }

  lemma {:induction false} SumFront(s: seq<real>)
    requires |s| > 0
    ensures Sum(s) == s[0] + Sum(s[1..])
  {
    if |s| > 1 {
      SumFront(s[..|s| - 1]);
      assert s[..|s| - 1][1..] == s[1..][..|s| - 2];
    }
  }

  /** The pick is the index i whose cumulative-weight interval [W(i), W(i + 1)) holds u. */
  lemma {:induction false} WeightedPickInterval(weights: seq<real>, u: real)
    requires |weights| > 0 && 0.0 <= u < Sum(weights)
    requires forall k :: 0 <= k < |weights| ==> weights[k] >= 0.0
    ensures Sum(weights[..WeightedPick(weights, u)]) <= u < Sum(weights[..WeightedPick(weights, u) + 1])
  {
    var i := WeightedPick(weights, u);
    SumFront(weights);
    if |weights| == 1 {
      assert weights[..1] == weights;
    } else if u < weights[0] {
      assert weights[..1] == [weights[0]];
      assert Sum(weights[..1]) == Sum(weights[..0]) + weights[0];
    } else {
      var rest := weights[1..];
      WeightedPickInterval(rest, u - weights[0]);
      var j := WeightedPick(rest, u - weights[0]);
      assert i == j + 1;
      SumFront(weights[..i]);
      assert weights[..i][1..] == rest[..j];
      SumFront(weights[..i + 1]);
      assert weights[..i + 1][1..] == rest[..j + 1];
    }
  }
}
