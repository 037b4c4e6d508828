/** Reductions over one column of a table, in place of the pandas calls the generator uses:
    `unique()` (the distinct values in order of first appearance) and `value_counts()`
    (a label -> number-of-rows mapping). */
module Columns {

  predicate NoDuplicates<T(==,!new)>(s: seq<T>)
  {
    forall i, j :: 0 <= i < j < |s| ==> s[i] != s[j]
  }

  /** `Series.unique()`: every value of the column once, in order of first appearance. */
  function Distinct<T(==,!new)>(s: seq<T>): (d: seq<T>)
    ensures forall x :: x in d <==> x in s
    ensures NoDuplicates(d)
  {
    if s == [] then []
    else
      var rest := Distinct(s[..|s| - 1]);
      if s[|s| - 1] in rest then rest else rest + [s[|s| - 1]]
  }

  /** The position at which x first occurs in s. */
  function FirstIndex<T(==,!new)>(s: seq<T>, x: T): (i: nat)
    requires x in s
    ensures i < |s| && s[i] == x
    ensures forall j :: 0 <= j < i ==> s[j] != x
  {
    if s[0] == x then 0 else 1 + FirstIndex(s[1..], x)
  }

  lemma FirstIndexOfPrefix<T(!new)>(s: seq<T>, n: nat, x: T)
    requires n <= |s| && x in s[..n]
    ensures x in s && FirstIndex(s, x) == FirstIndex(s[..n], x)
  {
    var i := FirstIndex(s[..n], x);
    assert s[i] == x;
    var k := FirstIndex(s, x);
    assert k <= i;
    assert s[..n][k] == x;
  }

  /** `unique()` lists values in the order in which they first occur in the column. */
  lemma {:induction false} DistinctInFirstAppearanceOrder<T(!new)>(s: seq<T>, i: nat, j: nat)
    requires i < j < |Distinct(s)|
    ensures FirstIndex(s, Distinct(s)[i]) < FirstIndex(s, Distinct(s)[j])
  {
    var init := s[..|s| - 1];
    var rest := Distinct(init);
    var d := Distinct(s);
    assert d[..|rest|] == rest;
    assert d[i] == rest[i];
    if j < |rest| {
      assert d[j] == rest[j];
      DistinctInFirstAppearanceOrder(init, i, j);
      FirstIndexOrderOfPrefix(s, |s| - 1, rest[i], rest[j]);
    } else {
      FirstAppearanceAtEnd(s, rest[i]);
    }
  }

  lemma FirstIndexOrderOfPrefix<T(!new)>(s: seq<T>, n: nat, x: T, y: T)
    requires n <= |s| && x in s[..n] && y in s[..n]
    requires FirstIndex(s[..n], x) < FirstIndex(s[..n], y)
    ensures x in s && y in s && FirstIndex(s, x) < FirstIndex(s, y)
  {
    FirstIndexOfPrefix(s, n, x);
    FirstIndexOfPrefix(s, n, y);
  }

  /** A value the last step of `Distinct` appends occurs only at the end, after every value
      already listed. */
  lemma FirstAppearanceAtEnd<T(!new)>(s: seq<T>, x: T)
    requires s != [] && x in Distinct(s[..|s| - 1])
    requires |Distinct(s)| > |Distinct(s[..|s| - 1])|
    ensures FirstIndex(s, x) < FirstIndex(s, Distinct(s)[|Distinct(s)| - 1])
  {
    var init := s[..|s| - 1];
    var d := Distinct(s);
    assert d == Distinct(init) + [s[|s| - 1]];
    assert s[|s| - 1] !in init;
    FirstIndexOfPrefix(s, |s| - 1, x);
  }

  /** How many rows of the column hold x. */
  function Occurrences<T(==,!new)>(s: seq<T>, x: T): nat
  {
    if s == [] then 0
    else Occurrences(s[..|s| - 1], x) + (if s[|s| - 1] == x then 1 else 0)
  }

  lemma {:induction false} OccurrencesPositive<T(!new)>(s: seq<T>, x: T)
    ensures Occurrences(s, x) > 0 <==> x in s
  {
    if s != [] {
      var init := s[..|s| - 1];
      OccurrencesPositive(init, x);
      assert s == init + [s[|s| - 1]];
    }
  }

  /** `value_counts()`: each label of the column mapped to its number of rows. */
  function ValueCounts<T(==,!new)>(s: seq<T>): (m: map<T, nat>)
    ensures forall x :: x in m <==> x in s
    ensures forall x :: x in m ==> m[x] >= 1 && m[x] == Occurrences(s, x)
  {
    var m := map x | x in s :: Occurrences(s, x);
    assert forall x :: x in m ==> m[x] >= 1 by {
      forall x | x in m
        ensures m[x] >= 1
      {
        OccurrencesPositive(s, x);
      }
    }
    m
  }

  /** The counts a map gives to the labels of `keys`, added up. */
  function SumCounts<T(==,!new)>(keys: seq<T>, m: map<T, nat>): nat
    requires forall k :: k in keys ==> k in m
  {
    if keys == [] then 0 else SumCounts(keys[..|keys| - 1], m) + m[keys[|keys| - 1]]
  }

  /** The occurrence counts in s of the labels of `keys`, added up. */
  function TotalOccurrences<T(==,!new)>(keys: seq<T>, s: seq<T>): nat
  {
    if keys == [] then 0
    else TotalOccurrences(keys[..|keys| - 1], s) + Occurrences(s, keys[|keys| - 1])
  }

  lemma {:induction false} TotalAfterRow<T(!new)>(keys: seq<T>, s: seq<T>, x: T)
    ensures TotalOccurrences(keys, s + [x]) == TotalOccurrences(keys, s) + Occurrences(keys, x)
  {
    if keys != [] {
      TotalAfterRow(keys[..|keys| - 1], s, x);
      assert (s + [x])[..|s + [x]| - 1] == s;
    } else {
      assert (s + [x])[..|s + [x]| - 1] == s;
    }
  }

  lemma {:induction false} OccurrencesWithoutDuplicates<T(!new)>(keys: seq<T>, x: T)
    requires NoDuplicates(keys)
    ensures Occurrences(keys, x) == if x in keys then 1 else 0
  {
    if keys != [] {
      var init := keys[..|keys| - 1];
      OccurrencesWithoutDuplicates(init, x);
      OccurrencesPositive(init, x);
      assert keys == init + [keys[|keys| - 1]];
      if x == keys[|keys| - 1] {
        assert x !in init;
      }
    }
  }

  lemma {:induction false} TotalOverDistinct<T(!new)>(s: seq<T>)
    ensures TotalOccurrences(Distinct(s), s) == |s|
  {
    if s != [] {
      var init, x := s[..|s| - 1], s[|s| - 1];
      assert s == init + [x];
      var rest := Distinct(init);
      TotalOverDistinct(init);
      TotalAfterRow(rest, init, x);
      OccurrencesWithoutDuplicates(rest, x);
      if x !in rest {
        var d := rest + [x];
        assert d[..|d| - 1] == rest;
        OccurrencesPositive(init, x);
        assert Occurrences(s, x) == 1;
      }
    }
  }

  lemma {:induction false} SumCountsIsTotal<T(!new)>(keys: seq<T>, s: seq<T>)
    requires forall k :: k in keys ==> k in s
    ensures SumCounts(keys, ValueCounts(s)) == TotalOccurrences(keys, s)
  {
    if keys != [] {
      SumCountsIsTotal(keys[..|keys| - 1], s);
    }
  }

  /** The counts of `value_counts()`, taken once per label, add up to the number of rows. */
  lemma CountsAddUpToRows<T(!new)>(s: seq<T>)
    ensures SumCounts(Distinct(s), ValueCounts(s)) == |s|
  {
    SumCountsIsTotal(Distinct(s), s);
    TotalOverDistinct(s);
  }
}
