/** Project identifiers and names: `MIG_` followed by the 1-based project number in
    decimal, zero-padded to at least three digits (`f'MIG_{i+1:03d}'`), and
    `Migration Project <number>`. */
module Identifiers {

  predicate IsDigit(c: char)
  {
    '0' <= c <= '9'
  }

  predicate AllDigits(s: string)
  {
    forall k :: 0 <= k < |s| ==> IsDigit(s[k])
  }

  function DigitChar(d: nat): (c: char)
    requires d < 10
    ensures IsDigit(c)
  {
    ('0' as int + d) as char
  }

  function DigitValue(c: char): (d: nat)
    requires IsDigit(c)
    ensures d < 10
  {
    (c as int - '0' as int) as nat
  }

  /** The decimal numeral of n, without leading zeros. */
  function Decimal(n: nat): (s: string)
    ensures |s| >= 1 && AllDigits(s)
    ensures n > 0 ==> s[0] != '0'
  {
    if n < 10 then [DigitChar(n)] else Decimal(n / 10) + [DigitChar(n % 10)]
  }

  /** The number a numeral denotes; leading zeros are allowed. */
  function NumeralValue(s: string): nat
    requires AllDigits(s)
  {
    if s == [] then 0 else NumeralValue(s[..|s| - 1]) * 10 + DigitValue(s[|s| - 1])
  }

  lemma {:induction false} NumeralOfDecimal(n: nat)
    ensures NumeralValue(Decimal(n)) == n
  {
    if n >= 10 {
      NumeralOfDecimal(n / 10);
      var s := Decimal(n);
      assert s[..|s| - 1] == Decimal(n / 10);
    }
  }

  /** A numeral whose first digit is not zero denotes a positive number. */
  lemma {:induction false} LeadingDigitPositive(s: string)
    requires AllDigits(s) && |s| >= 1 && s[0] != '0'
    ensures NumeralValue(s) >= 1
  {
    if |s| > 1 {
      var init := s[..|s| - 1];
      assert init[0] == s[0];
      LeadingDigitPositive(init);
    }
  }

  /** `Decimal` is the only numeral without a leading zero: any other such numeral is the
      decimal form of the number it denotes. */
  lemma {:induction false} DecimalUnique(s: string)
    requires AllDigits(s) && |s| >= 1 && s[0] != '0'
    ensures s == Decimal(NumeralValue(s))
  {
    var v := NumeralValue(s);
    var last := s[|s| - 1];
    if |s| == 1 {
      var none := s[..|s| - 1];
      assert none == [];
      assert v == NumeralValue(none) * 10 + DigitValue(last);
      assert NumeralValue(none) == 0;
      assert s == [last];
    } else {
      var init := s[..|s| - 1];
      assert init[0] == s[0];
      LeadingDigitPositive(init);
      DecimalUnique(init);
      var w := NumeralValue(init);
      assert v == w * 10 + DigitValue(last);
      assert v >= 10 && v / 10 == w && v % 10 == DigitValue(last);
      assert s == init + [last];
    }
  }

  function Zeros(k: nat): (s: string)
    ensures |s| == k && AllDigits(s)
  {
    if k == 0 then "" else "0" + Zeros(k - 1)
  }

  lemma {:induction false} ZerosValue(k: nat)
    ensures NumeralValue(Zeros(k)) == 0
  {
    if k > 0 {
      var z := Zeros(k);
      assert z == Zeros(k - 1) + "0" by {
        ZerosShift(k);
      }
      assert z[..|z| - 1] == Zeros(k - 1);
      ZerosValue(k - 1);
    }
  }

  lemma {:induction false} ZerosAreZero(k: nat)
    ensures forall j :: 0 <= j < k ==> Zeros(k)[j] == '0'
  {
    if k > 0 {
      ZerosAreZero(k - 1);
      assert forall j :: 1 <= j < k ==> Zeros(k)[j] == Zeros(k - 1)[j - 1];
    }
  }

  lemma {:induction false} ZerosShift(k: nat)
    requires k > 0
    ensures Zeros(k) == Zeros(k - 1) + "0"
  {
    if k > 1 {
      ZerosShift(k - 1);
    }
  }

  /** Leading zeros do not change the value of a numeral. */
  lemma {:induction false} LeadingZerosValue(k: nat, s: string)
    requires AllDigits(s)
    ensures NumeralValue(Zeros(k) + s) == NumeralValue(s)
  {
    if s == [] {
      assert Zeros(k) + s == Zeros(k);
      ZerosValue(k);
    } else {
      var init := s[..|s| - 1];
      LeadingZerosValue(k, init);
      var t := Zeros(k) + s;
      assert t[..|t| - 1] == Zeros(k) + init;
    }
  }

  /** `f'{n:0<width>d}'` on a numeral: zeros on the left up to `width` characters. The
      result is exactly `width` long unless the numeral is longer, ends with the numeral,
      and has only zeros before it. */
  function ZeroPad(s: string, width: nat): (r: string)
    requires AllDigits(s)
    ensures AllDigits(r)
    ensures |r| == if |s| >= width then |s| else width
    ensures r[|r| - |s|..] == s
    ensures forall k :: 0 <= k < |r| - |s| ==> r[k] == '0'
  {
    if |s| >= width then s
    else
      ZerosAreZero(width - |s|);
      Zeros(width - |s|) + s
  }

  const IdPrefix: string := "MIG_"
  const NamePrefix: string := "Migration Project "

  /** The identifier of the project generated at 0-based position i. */
  function ProjectId(i: nat): string
  {
    IdPrefix + ZeroPad(Decimal(i + 1), 3)
  }

  /** The display name of the project generated at 0-based position i. */
  function ProjectName(i: nat): string
  {
    NamePrefix + Decimal(i + 1)
  }

  /** Reads the project number back out of an identifier. */
  function ProjectNumber(id: string): nat
    requires |id| >= |IdPrefix| && AllDigits(id[|IdPrefix|..])
  {
    NumeralValue(id[|IdPrefix|..])
  }

  /** Every identifier is `MIG_` followed by max(3, d) digits, where d is the length of
      the project number, the number itself last; the number read back from it is the
      1-based position of its project. */
  lemma ProjectIdRoundTrip(i: nat)
    ensures |ProjectId(i)| == |IdPrefix| + (if |Decimal(i + 1)| >= 3 then |Decimal(i + 1)| else 3)
    ensures ProjectId(i)[..|IdPrefix|] == IdPrefix
    ensures AllDigits(ProjectId(i)[|IdPrefix|..])
    ensures ProjectId(i)[|ProjectId(i)| - |Decimal(i + 1)|..] == Decimal(i + 1)
    ensures ProjectNumber(ProjectId(i)) == i + 1
  {
    var digits := Decimal(i + 1);
    var padded := ZeroPad(digits, 3);
    assert ProjectId(i)[|IdPrefix|..] == padded;
    NumeralOfDecimal(i + 1);
    if |digits| < 3 {
      LeadingZerosValue(3 - |digits|, digits);
    }
  }

  /** Every name is `Migration Project ` followed by the 1-based project number, unpadded. */
  lemma ProjectNameRoundTrip(i: nat)
    ensures |ProjectName(i)| > |NamePrefix| && ProjectName(i)[..|NamePrefix|] == NamePrefix
    ensures AllDigits(ProjectName(i)[|NamePrefix|..])
    ensures NumeralValue(ProjectName(i)[|NamePrefix|..]) == i + 1
    ensures ProjectName(i)[|NamePrefix|] != '0'
  {
    assert ProjectName(i)[|NamePrefix|..] == Decimal(i + 1);
    NumeralOfDecimal(i + 1);
  }

  /** Projects at different positions get different identifiers. */
  lemma ProjectIdsDistinct(i: nat, j: nat)
    requires i != j
    ensures ProjectId(i) != ProjectId(j)
  {
    ProjectIdRoundTrip(i);
    ProjectIdRoundTrip(j);
  }
}
