/** The refund amount a merchant types: decimal text to minor units and back. */
module RefundAmount {
  import opened Common
  import opened Decimals

  /** The largest integer up to which every integer is a distinct double. */
  const MAX_SAFE := 0x1F_FFFF_FFFF_FFFF

  /** The position of the first point, or the length. */
  function Point(s: string): (p: nat)
    ensures p <= |s| && '.' !in s[..p] && (p < |s| ==> s[p] == '.')
  {
    if s == [] then 0
    else
      var p := Point(s[..|s| - 1]);
      if p < |s| - 1 then assert s[..p] == s[..|s| - 1][..p]; p
      else assert s[..|s| - 1][..p] == s[..|s| - 1]; if s[|s| - 1] == '.' then |s| - 1 else |s|
  }

  /** The accepted form: one or more digits, then perhaps a point and one or two digits. */
  predicate Wellformed(input: string) {
    var p := Point(input);
    && p > 0 && Digits(input[..p])
    && (p == |input| || (Digits(input[p + 1..]) && 1 <= |input| - (p + 1) <= 2))
  }

  /** Digits, a point, and one or two more digits. */
  ghost predicate HasPlaces(input: string, whole: string, places: string) {
    && input == whole + "." + places
    && whole != [] && Digits(whole) && Digits(places) && 1 <= |places| <= 2
  }

  lemma {:induction false} PlacesAreWellformed(input: string, whole: string, places: string)
    requires HasPlaces(input, whole, places)
    ensures Wellformed(input)
  {
    PointAfterDigits(whole, places);
    assert input[..|whole|] == whole && input[|whole| + 1..] == places;
  }

  lemma {:induction false} DigitsAreWellformed(input: string)
    requires input != [] && Digits(input)
    ensures Wellformed(input)
  {
    NoPoint(input);
    assert input[..|input|] == input;
  }

  /** The accepted form is that of digits alone, or with a point and one or two more. */
  lemma {:induction false} WellformedIff(input: string)
    ensures Wellformed(input) <==>
              (input != [] && Digits(input)) || exists whole, places :: HasPlaces(input, whole, places)
  {
    if input != [] && Digits(input) {
      DigitsAreWellformed(input);
    }
    if whole, places :| HasPlaces(input, whole, places) {
      PlacesAreWellformed(input, whole, places);
    }
    if Wellformed(input) {
      var p := Point(input);
      if p < |input| {
        assert HasPlaces(input, input[..p], input[p + 1..]) by {
          assert input == input[..p] + "." + input[p + 1..];
        }
      } else {
        assert input[..p] == input;
      }
    }
  }

  /** The digits after the point, filled up to two. */
  function Padded(fraction: string): (r: string)
    requires |fraction| <= 2
    ensures |r| == 2 && (Digits(fraction) ==> Digits(r))
  {
    if fraction == [] then "00" else if |fraction| == 1 then fraction + "0" else fraction
  }

  /** `refundAmountMinor`, in integers. */
  function RefundAmountMinor(input: string, maximum: nat): Option<nat> {
    if !Wellformed(input) then None
    else
      var p := Point(input);
      var minor := DecimalValue(input[..p]) * 100 + DecimalValue(Padded(if p == |input| then [] else input[p + 1..]));
      if minor <= MAX_SAFE && 0 < minor <= maximum then Some(minor) else None
  }

  // ---------------------------------------------------------------- what the text denotes

  function Tenths(n: nat): (r: real)
    ensures r > 0.0
  {
    if n == 0 then 1.0 else Tenths(n - 1) / 10.0
  }

  /** The value of the digits of a fraction: each is a tenth of the place before it. */
  function Fraction(s: string): real
    requires Digits(s)
  {
    if s == [] then 0.0 else Fraction(s[..|s| - 1]) + DigitValue(s[|s| - 1]) as real * Tenths(|s|)
  }

  /** The value of the text as a decimal numeral. */
  function Denotes(input: string): real
    requires Wellformed(input)
  {
    var p := Point(input);
    DecimalValue(input[..p]) as real + (if p == |input| then 0.0 else Fraction(input[p + 1..]))
  }

  lemma {:induction false} NumberOfTwo(r: string)
    requires |r| == 2 && Digits(r)
    ensures DecimalValue(r) == 10 * DigitValue(r[0]) + DigitValue(r[1])
  {
    assert r[..1][..0] == [] && r[..1][0] == r[0];
    assert DecimalValue(r[..1]) == DigitValue(r[0]);
  }

  lemma {:induction false} PaddedIsHundredths(fraction: string)
    requires |fraction| <= 2 && Digits(fraction)
    ensures DecimalValue(Padded(fraction)) as real == Fraction(fraction) * 100.0
  {
    var r := Padded(fraction);
    assert Tenths(1) == 0.1 && Tenths(2) == 0.01;
    NumberOfTwo(r);
    if |fraction| == 1 {
      assert fraction[..0] == [];
      assert Fraction(fraction) == DigitValue(fraction[0]) as real * 0.1;
    } else if |fraction| == 2 {
      assert fraction[..1][..0] == [] && fraction[..1] == [fraction[0]];
      assert Fraction(fraction[..1]) == DigitValue(fraction[0]) as real * 0.1;
      assert Fraction(fraction) == DigitValue(fraction[0]) as real * 0.1 + DigitValue(fraction[1]) as real * 0.01;
    }
  }

  /** Exactly the texts of the accepted form that denote a whole number of minor units in range
      are accepted, and the number returned is the one denoted: nothing is rounded. */
  lemma {:induction false} AmountIsExact(input: string, maximum: nat, minor: nat)
    ensures RefundAmountMinor(input, maximum) == Some(minor) <==>
              && Wellformed(input) && Denotes(input) * 100.0 == minor as real
              && 0 < minor <= maximum && minor <= MAX_SAFE
  {
    if Wellformed(input) {
      var p := Point(input);
      var fraction := if p == |input| then [] else input[p + 1..];
      PaddedIsHundredths(fraction);
      var whole, rest := DecimalValue(input[..p]), DecimalValue(Padded(fraction));
      assert Denotes(input) * 100.0 == (whole * 100 + rest) as real;
    }
  }

  /** What is accepted is within the maximum whatever it is; nothing else is refused. */
  lemma {:induction false} RefusedIff(input: string, maximum: nat)
    ensures RefundAmountMinor(input, maximum).None? <==>
              !Wellformed(input) || Denotes(input) == 0.0 || Denotes(input) * 100.0 > maximum as real
              || Denotes(input) * 100.0 > MAX_SAFE as real
  {
    if Wellformed(input) {
      var p := Point(input);
      var fraction := if p == |input| then [] else input[p + 1..];
      PaddedIsHundredths(fraction);
      var minor := DecimalValue(input[..p]) * 100 + DecimalValue(Padded(fraction));
      assert Denotes(input) * 100.0 == minor as real;
      AmountIsExact(input, maximum, minor);
    }
  }

  // ---------------------------------------------------------------- the printer

  /** The field's first text: minor units as a decimal with two places. */
  function Print(minor: nat): string {
    Decimal(minor / 100) + "." + [DigitChar(minor % 100 / 10), DigitChar(minor % 10)]
  }

  lemma {:induction false} NoPoint(s: string)
    requires '.' !in s
    ensures Point(s) == |s|
  {
    if s != [] {
      assert s[|s| - 1] in s;
      NoPoint(s[..|s| - 1]);
    }
  }

  lemma {:induction false} PointIs(s: string, p: nat)
    requires p < |s| && s[p] == '.' && '.' !in s[..p]
    ensures Point(s) == p
  {
    if p < |s| - 1 {
      assert s[..|s| - 1][..p] == s[..p];
      PointIs(s[..|s| - 1], p);
    } else {
      NoPoint(s[..p]);
    }
  }

  lemma {:induction false} PointAfterDigits(a: string, b: string)
    requires Digits(a)
    ensures Point(a + "." + b) == |a|
  {
    assert (a + "." + b)[..|a|] == a;
    PointIs(a + "." + b, |a|);
  }

  /** Whole digits, a point and two digits. */
  lemma {:induction false} AmountOfParts(whole: string, places: string, maximum: nat)
    requires whole != [] && Digits(whole) && |places| == 2 && Digits(places)
    ensures var minor := DecimalValue(whole) * 100 + DecimalValue(places);
            RefundAmountMinor(whole + "." + places, maximum) ==
              if minor <= MAX_SAFE && 0 < minor <= maximum then Some(minor) else None
  {
    var s := whole + "." + places;
    PointAfterDigits(whole, places);
    assert s[..|whole|] == whole && s[|whole| + 1..] == places;
  }

  /** Every amount printed with two places is accepted exactly if it is in range, as itself. */
  lemma {:induction false} PrintParsesBack(minor: nat, maximum: nat)
    ensures RefundAmountMinor(Print(minor), maximum) ==
              if minor <= MAX_SAFE && 0 < minor <= maximum then Some(minor) else None
  {
    var places := [DigitChar(minor % 100 / 10), DigitChar(minor % 10)];
    DecimalReadsBack(minor / 100);
    NumberOfTwo(places);
    AmountOfParts(Decimal(minor / 100), places, maximum);
  }

  // ---------------------------------------------------------------- doubles

  function Pow2(e: nat): nat { if e == 0 then 1 else 2 * Pow2(e - 1) }

  ghost predicate Scaled(x: real, m: nat, e: nat) { x * Pow2(e) as real == m as real }

  /** A double below 2^53: a significand of 53 bits over a power of two. */
  ghost predicate IsDouble(x: real) { exists m: nat, e: nat :: m <= MAX_SAFE + 1 && Scaled(x, m, e) }

  function Distance(x: real, y: real): real { if x < y then y - x else x - y }

  /** What a division of doubles yields for the quotient `v`. */
  ghost predicate Nearest(x: real, v: real) {
    IsDouble(x) && forall y :: IsDouble(y) ==> Distance(x, v) <= Distance(y, v)
  }

  /** `x.toFixed(2)` in hundredths: the nearest integer, the larger of two. */
  function ToFixed(x: real): int { (100.0 * x + 0.5).Floor }

  /** From here on the doubles are the multiples of 1/64, below they are closer. */
  const WIDE := 0x4000_0000_0000

  lemma {:induction false} SixtyFourths(j: nat)
    requires j <= MAX_SAFE + 1
    ensures IsDouble(j as real / 64.0)
  {
    assert Pow2(6) == 64 by { assert Pow2(3) == 8; }
    assert Scaled(j as real / 64.0, j, 6);
  }

  lemma {:induction false} HundredTwentyEighths(j: nat)
    requires j <= MAX_SAFE + 1
    ensures IsDouble(j as real / 128.0)
  {
    assert Pow2(7) == 128 by { assert Pow2(4) == 16; }
    assert Scaled(j as real / 128.0, j, 7);
  }

  lemma {:induction false} Pow2Sum(a: nat, b: nat)
    ensures Pow2(a + b) == Pow2(a) * Pow2(b)
  {
    if a > 0 {
      Pow2Sum(a - 1, b);
    }
  }

  lemma {:induction false} Pow2Positive(e: nat)
    ensures Pow2(e) >= 1
  {
    if e > 0 {
      Pow2Positive(e - 1);
    }
  }

  /** Doubles from 2^46 on are multiples of 1/64. */
  lemma {:induction false} WideIsSixtyFourths(x: real) returns (j: nat)
    requires IsDouble(x) && x >= WIDE as real
    ensures x == j as real / 64.0
  {
    var m: nat, e: nat :| m <= MAX_SAFE + 1 && Scaled(x, m, e);
    Pow2Positive(e);
    if e <= 6 {
      assert Pow2(6) == 64 by { assert Pow2(3) == 8; }
      Pow2Sum(e, 6 - e);
      j := m * Pow2(6 - e);
      ScaledUp(x, m, Pow2(e), Pow2(6 - e));
    } else {
      Pow2Sum(7, e - 7);
      Pow2Positive(e - 7);
      assert Pow2(7) == 128 by { assert Pow2(4) == 16; }
      WideBound(x, m, Pow2(e), Pow2(e - 7));
      j := 64 * WIDE;
    }
  }

  lemma {:induction false} ScaledUp(x: real, m: nat, p: nat, q: nat)
    requires x * p as real == m as real && p * q == 64
    ensures x == (m * q) as real / 64.0
  {
    calc {
      x * 64.0;
      x * (p * q) as real;
      x * (p as real * q as real);
      (x * p as real) * q as real;
      (m * q) as real;
    }
  }

  lemma {:induction false} WideBound(x: real, m: nat, p: nat, q: nat)
    requires x * p as real == m as real && p == 128 * q && q >= 1 && m <= MAX_SAFE + 1 && x >= WIDE as real
    ensures x == WIDE as real
  {
    if x > WIDE as real {
      ProductGrows(x, WIDE as real, p as real, 128.0);
    }
  }

  lemma {:induction false} ProductGrows(x: real, y: real, p: real, q: real)
    requires x > y > 0.0 && p >= q > 0.0
    ensures x * p > y * q
  {
    assert (x - y) * p > 0.0;
    assert y * (p - q) >= 0.0;
  }

  /** Below 2^46 the quotient is off by less than half a hundredth. */
  lemma {:induction false} NarrowIsExact(maximum: nat, x: real)
    requires maximum <= 100 * WIDE && Nearest(x, maximum as real / 100.0)
    ensures ToFixed(x) == maximum
  {
    var j := (128 * maximum + 50) / 100;
    HundredTwentyEighths(j);
    var y, v := j as real / 128.0, maximum as real / 100.0;
    assert Distance(y, v) <= 1.0 / 256.0 by {
      assert -50 <= 100 * j - 128 * maximum <= 50;
      assert y - v == (100 * j - 128 * maximum) as real / 12800.0;
    }
    assert maximum as real - 0.5 < 100.0 * x < maximum as real + 0.5;
  }

  /** From there on it is the multiple of 1/64 nearest to it: `r` twenty-fifths of one away. */
  lemma {:induction false} WideQuotient(maximum: nat, x: real) returns (j: nat)
    requires 100 * WIDE < maximum <= MAX_SAFE && Nearest(x, maximum as real / 100.0)
    ensures x == j as real / 64.0
    ensures j == 16 * maximum / 25 + (if 16 * maximum % 25 <= 12 then 0 else 1)
  {
    var v := maximum as real / 100.0;
    var q, r := 16 * maximum / 25, 16 * maximum % 25;
    SixtyFourths(64 * WIDE);
    assert (64 * WIDE) as real / 64.0 == WIDE as real;
    assert x >= WIDE as real;
    j := WideIsSixtyFourths(x);
    SixtyFourths(q);
    SixtyFourths(q + 1);
    assert q as real / 64.0 - v == (-r) as real / 1600.0;
    assert (q + 1) as real / 64.0 - v == (25 - r) as real / 1600.0;
    assert x - v == (25 * (j - q) - r) as real / 1600.0;
    assert -r <= 25 * (j - q) - r <= r || r - 25 <= 25 * (j - q) - r <= 25 - r;
  }

  /** The printed maximum is the maximum exactly up to 2^46 hundredfold, and from there on where
      the maximum is within half a hundredth of a multiple of 1/64. */
  predicate PrintsExactly(maximum: nat) {
    maximum <= 100 * WIDE || !(9 <= 16 * maximum % 25 <= 17)
  }

  lemma {:induction false} PrintsExactlyIff(maximum: nat, x: real)
    requires maximum <= MAX_SAFE && Nearest(x, maximum as real / 100.0)
    ensures ToFixed(x) == maximum <==> PrintsExactly(maximum)
  {
    if maximum <= 100 * WIDE {
      NarrowIsExact(maximum, x);
    } else {
      var j := WideQuotient(maximum, x);
      assert 100.0 * x + 0.5 == (25 * j + 8) as real / 16.0;
      assert ToFixed(x) == (25 * j + 8) / 16;
    }
  }

  lemma {:induction false} DoubleIsNatural(x: real)
    requires IsDouble(x)
    ensures x >= 0.0 && ToFixed(x) >= 0
  {
    var m: nat, e: nat :| m <= MAX_SAFE + 1 && Scaled(x, m, e);
    Pow2Positive(e);
    if x < 0.0 {
      ProductGrows(-x, -x / 2.0, Pow2(e) as real, 1.0);
    }
  }

  /** So the text the field starts with, `maximum / 100` in doubles printed with two places,
      stands for the whole of what can be refunded exactly in that case. */
  lemma {:induction false} InitialTextIsTheMaximumIff(maximum: nat, x: real)
    requires 0 < maximum <= MAX_SAFE && Nearest(x, maximum as real / 100.0)
    ensures ToFixed(x) >= 0
    ensures RefundAmountMinor(Print(ToFixed(x)), maximum) == Some(maximum) <==> PrintsExactly(maximum)
  {
    DoubleIsNatural(x);
    PrintsExactlyIff(maximum, x);
    PrintParsesBack(ToFixed(x), maximum);
  }
}
