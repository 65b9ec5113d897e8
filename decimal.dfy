/**
 * Decimal rendering of integers, as used in the calculator's history records:
 * digits most significant first, no leading zeros, and a leading '-' for
 * negative numbers ("-12", "0", "13").  The parser ParseInt is the partner
 * that shows the rendering loses no information.
 */
module Decimal {
  import opened Wrappers

  predicate IsDigit(c: char) {
    '0' <= c <= '9'
  }

  predicate AllDigits(s: string) {
    forall i :: 0 <= i < |s| ==> IsDigit(s[i])
  }

  /** A digit string in canonical form: non-empty, and "0" is the only one starting with '0'. */
  predicate IsCanonicalNat(s: string) {
    |s| >= 1 && AllDigits(s) && (s[0] == '0' ==> |s| == 1)
  }

  /** A canonical integer: a canonical digit string, or '-' before a canonical non-zero one. */
  predicate IsCanonicalInt(s: string) {
    IsCanonicalNat(s) || (|s| >= 2 && s[0] == '-' && IsCanonicalNat(s[1..]) && s[1] != '0')
  }

  function DigitValue(c: char): (d: nat)
    requires IsDigit(c)
    ensures d < 10
  {
    c as int - '0' as int
  }

  function DigitChar(d: nat): (c: char)
    requires d < 10
    ensures IsDigit(c) && DigitValue(c) == d
  {
    ('0' as int + d) as char
  }

  /** The number a digit string denotes. */
  function DigitsValue(s: string): nat
    requires AllDigits(s)
  {
    if s == [] then 0 else 10 * DigitsValue(s[..|s| - 1]) + DigitValue(s[|s| - 1])
  }

  /** The decimal digits of n. */
  function NatToString(n: nat): (s: string)
    ensures IsCanonicalNat(s)
    ensures s[0] == '0' <==> n == 0
  {
    if n < 10 then [DigitChar(n)] else NatToString(n / 10) + [DigitChar(n % 10)]
  }

  /** The decimal rendering of i, with a leading '-' exactly when i is negative. */
  function IntToString(i: int): (s: string)
    ensures IsCanonicalInt(s)
    ensures s[0] == '-' <==> i < 0
  {
    if i < 0 then "-" + NatToString(-i) else NatToString(i)
  }

  /** Reads back a canonical integer rendering; anything else is rejected. */
  function ParseInt(s: string): Option<int> {
    if !IsCanonicalInt(s) then None
    else if s[0] == '-' then Some(-(DigitsValue(s[1..]) as int))
    else Some(DigitsValue(s))
  }

  lemma {:induction false} NatRoundTrip(n: nat)
    ensures DigitsValue(NatToString(n)) == n
  {
    if n >= 10 {
      var s := NatToString(n);
      assert s[..|s| - 1] == NatToString(n / 10);
      NatRoundTrip(n / 10);
    }
  }

  lemma {:induction false} LeadingDigitPositive(s: string)
    requires AllDigits(s) && |s| >= 1 && s[0] != '0'
    ensures DigitsValue(s) > 0
  {
    if |s| > 1 {
      var p := s[..|s| - 1];
      assert p[0] == s[0];
      LeadingDigitPositive(p);
    }
  }

  lemma {:induction false} CanonicalNatRoundTrip(s: string)
    requires IsCanonicalNat(s)
    ensures NatToString(DigitsValue(s)) == s
  {
    var v := DigitsValue(s);
    var d := s[|s| - 1];
    if |s| == 1 {
      assert s == [d];
      assert DigitChar(DigitValue(d)) == d;
    } else {
      var p := s[..|s| - 1];
      assert p[0] == s[0];
      assert IsCanonicalNat(p);
      LeadingDigitPositive(p);
      CanonicalNatRoundTrip(p);
      assert v == 10 * DigitsValue(p) + DigitValue(d);
      assert v / 10 == DigitsValue(p) && v % 10 == DigitValue(d);
      assert DigitChar(DigitValue(d)) == d;
      assert s == p + [d];
    }
  }

  /** Rendering and parsing are inverse: ParseInt accepts exactly the renderings. */
  lemma IntRoundTrip(s: string, i: int)
    ensures ParseInt(s) == Some(i) <==> IntToString(i) == s
  {
    if IntToString(i) == s {
      if i < 0 {
        assert s[1..] == NatToString(-i);
        NatRoundTrip(-i);
      } else {
        NatRoundTrip(i);
      }
    }
    if ParseInt(s) == Some(i) {
      if s[0] == '-' {
        CanonicalNatRoundTrip(s[1..]);
        LeadingDigitPositive(s[1..]);
        assert s == "-" + s[1..];
      } else {
        CanonicalNatRoundTrip(s);
      }
    }
  }

  /** Distinct integers have distinct renderings. */
  lemma IntToStringInjective(i: int, j: int)
    requires IntToString(i) == IntToString(j)
    ensures i == j
  {
    IntRoundTrip(IntToString(i), i);
    IntRoundTrip(IntToString(i), j);
  }

  /** A rendering holds no space, so it can be delimited by spaces. */
  lemma IntToStringHasNoSpace(i: int)
    ensures ' ' !in IntToString(i)
  {
  }
}
