/**
 * Decimal renderings of integers as PHP produces them (string interpolation
 * of an `int`, as in "/v3/locations/{$id}") and the matching parsers,
 * including the leading-integer reading that an `(int)` cast applies to a string.
 */
module Decimal {
  import opened Wrappers

  predicate IsDigit(c: char) {
    '0' <= c <= '9'
  }

  predicate AllDigits(s: string) {
    forall i :: 0 <= i < |s| ==> IsDigit(s[i])
  }

  function DigitChar(d: nat): (c: char)
    requires d < 10
    ensures IsDigit(c) && DigitValue(c) == d
  {
    (48 + d) as char
  }

  function DigitValue(c: char): nat
    requires IsDigit(c)
  {
    c as int - '0' as int
  }

  /** The value of a string of decimal digits (0 for the empty string). */
  function DigitsValue(s: string): nat
    requires AllDigits(s)
    decreases |s|
  {
    if |s| == 0 then 0 else DigitsValue(s[..|s| - 1]) * 10 + DigitValue(s[|s| - 1])
  }

  /** The shortest decimal rendering of a natural number. */
  function NatToString(n: nat): (s: string)
    ensures |s| > 0 && AllDigits(s)
    ensures |s| > 1 ==> s[0] != '0'
    decreases n
  {
    if n < 10 then [DigitChar(n)] else NatToString(n / 10) + [DigitChar(n % 10)]
  }

  /** How PHP renders an `int` in a string: decimal, with a leading '-' when negative. */
  function IntToString(i: int): (s: string)
    ensures |s| > 0 && '/' !in s
  {
    if i < 0 then "-" + NatToString(-i) else NatToString(i)
  }

  /** Reads back exactly the strings of the form [-]digits. */
  function ParseInt(s: string): Option<int> {
    if |s| > 1 && s[0] == '-' && AllDigits(s[1..]) then Some(0 - DigitsValue(s[1..]) as int)
    else if |s| > 0 && AllDigits(s) then Some(DigitsValue(s) as int)
    else None
  }

  lemma {:induction false} NatToStringValue(n: nat)
    ensures DigitsValue(NatToString(n)) == n
    decreases n
  {
    if n >= 10 {
      var s := NatToString(n);
      NatToStringValue(n / 10);
      assert s[..|s| - 1] == NatToString(n / 10);
    }
  }

  /** Rendering an integer and parsing the rendering gives the integer back. */
  lemma IntToStringRoundTrip(i: int)
    ensures ParseInt(IntToString(i)) == Some(i)
  {
    var s := IntToString(i);
    if i < 0 {
      var t := NatToString(-i);
      assert s == "-" + t;
      assert s[1..] == t;
      assert |s| > 1 && s[0] == '-' && AllDigits(s[1..]);
      NatToStringValue(-i);
      assert ParseInt(s) == Some(0 - DigitsValue(t) as int);
    } else {
      assert s == NatToString(i);
      assert !(|s| > 1 && s[0] == '-');
      NatToStringValue(i);
    }
  }

  /** Distinct integers have distinct renderings. */
  lemma IntToStringInjective(i: int, j: int)
    requires IntToString(i) == IntToString(j)
    ensures i == j
  {
    IntToStringRoundTrip(i);
    IntToStringRoundTrip(j);
  }

  /** The number of leading decimal digits of s. */
  function DigitRun(s: string): (n: nat)
    ensures n <= |s| && AllDigits(s[..n])
    ensures n < |s| ==> !IsDigit(s[n])
    decreases |s|
  {
    if |s| > 0 && IsDigit(s[0]) then
      var n := 1 + DigitRun(s[1..]);
      assert s[..n] == [s[0]] + s[1..][..n - 1];
      n
    else 0
  }

  /**
   * PHP's `(int)` cast of a string, restricted to an optional sign followed
   * by digits: the value of the leading integer, or 0 when there is none.
   */
  function LeadingInt(s: string): int {
    if |s| > 0 && (s[0] == '-' || s[0] == '+') then
      var t := s[1..];
      var v: int := DigitsValue(t[..DigitRun(t)]);
      if s[0] == '-' then -v else v
    else
      DigitsValue(s[..DigitRun(s)])
  }

  /** Casting the rendering of an integer back to `int` gives the integer. */
  lemma LeadingIntOfIntToString(i: int)
    ensures LeadingInt(IntToString(i)) == i
  {
    var s := IntToString(i);
    if i < 0 {
      var t := s[1..];
      assert t == NatToString(-i);
      assert DigitRun(t) == |t|;
      assert t[..|t|] == t;
      NatToStringValue(-i);
    } else {
      assert DigitRun(s) == |s|;
      assert s[..|s|] == s;
      NatToStringValue(i);
    }
  }
}
