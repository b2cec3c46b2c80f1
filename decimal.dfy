/**
 * Decimal text of numbers: `Number.prototype.toString()` on non-negative
 * integers, `padStart(2, "0")`, and a simplified `parseInt(s, 10)`.
 */
module Decimal {
  import opened Common

  predicate IsDigit(c: char) {
    '0' <= c <= '9'
  }

  predicate AllDigits(s: string) {
    forall i :: 0 <= i < |s| ==> IsDigit(s[i])
  }

  function DigitChar(d: nat): (c: char)
    requires d < 10
    ensures IsDigit(c)
  {
    ('0' as int + d) as char
  }

  function DigitValue(c: char): (d: nat)
    requires IsDigit(c)
    ensures d < 10 && DigitChar(d) == c
  {
    c as int - '0' as int
  }

  /** The shortest decimal spelling of `n`, as `n.toString()` gives it. */
  function NatToString(n: nat): (s: string)
    ensures AllDigits(s)
    ensures 1 <= |s|
    ensures n < 10 <==> |s| == 1
    ensures |s| > 1 ==> s[0] != '0'
  {
    if n < 10 then [DigitChar(n)] else NatToString(n / 10) + [DigitChar(n % 10)]
  }

  /** The number a string of decimal digits denotes (leading zeros allowed). */
  function DigitsValue(s: string): nat
    requires AllDigits(s)
  {
    if s == [] then 0 else DigitsValue(s[..|s| - 1]) * 10 + DigitValue(s[|s| - 1])
  }

  /** Reading back the decimal spelling of `n` gives `n`. */
  lemma {:induction false} NatToStringRoundTrip(n: nat)
    ensures DigitsValue(NatToString(n)) == n
  {
    if n >= 10 {
      var s := NatToString(n);
      assert s[..|s| - 1] == NatToString(n / 10);
      NatToStringRoundTrip(n / 10);
    }
  }

  /** A leading zero does not change the value of a digit string. */
  lemma {:induction false} LeadingZero(s: string)
    requires AllDigits(s)
    ensures AllDigits("0" + s) && DigitsValue("0" + s) == DigitsValue(s)
  {
    if s != [] {
      var t := "0" + s;
      assert t[..|t| - 1] == "0" + s[..|s| - 1];
      LeadingZero(s[..|s| - 1]);
    }
  }

  /** `n.toString().padStart(2, "0")`. */
  function Pad2(n: nat): (s: string)
    ensures AllDigits(s)
    ensures |s| == if n < 10 then 2 else |NatToString(n)|
    ensures DigitsValue(s) == n
    ensures n >= 10 ==> s[0] != '0'
  {
    var t := NatToString(n);
    NatToStringRoundTrip(n);
    if |t| >= 2 then t else (LeadingZero(t); "0" + t)
  }

  /** The longest prefix of `s` made of decimal digits. */
  function DigitPrefix(s: string): (r: string)
    ensures AllDigits(r) && r <= s
    ensures |r| < |s| ==> !IsDigit(s[|r|])
  {
    if s == [] || !IsDigit(s[0]) then [] else [s[0]] + DigitPrefix(s[1..])
  }

  /** A digit string is its own longest digit prefix, whatever follows a non-digit. */
  lemma {:induction false} DigitPrefixOfDigits(d: string, rest: string)
    requires AllDigits(d)
    requires rest == [] || !IsDigit(rest[0])
    ensures DigitPrefix(d + rest) == d
  {
    if d != [] {
      assert (d + rest)[1..] == d[1..] + rest;
      DigitPrefixOfDigits(d[1..], rest);
    } else {
      assert d + rest == rest;
    }
  }

  /**
   * `parseInt(s, 10)`, with `None` standing for NaN: an optional sign, then
   * the longest run of decimal digits; anything after the run is ignored,
   * and no digits at all gives NaN.
   */
  function ParseInt(s: string): (r: Option<int>)
    ensures r.None? <==> DigitPrefix(if |s| > 0 && (s[0] == '-' || s[0] == '+') then s[1..] else s) == []
  {
    var signed := |s| > 0 && (s[0] == '-' || s[0] == '+');
    var digits := DigitPrefix(if signed then s[1..] else s);
    var v: int := DigitsValue(digits);
    if digits == [] then None
    else if signed && s[0] == '-' then Some(-v)
    else Some(v)
  }

  /** `parseInt` inverts `toString` on non-negative integers. */
  lemma {:induction false} ParseIntRoundTrip(n: nat)
    ensures ParseInt(NatToString(n)) == Some(n as int)
  {
    var s := NatToString(n);
    ParseIntStopsAtNonDigit(n, []);
    assert s + [] == s;
  }

  /** `parseInt` of a non-empty digit string is the number those digits spell, leading zeros included. */
  lemma {:induction false} ParseIntOfDigits(s: string)
    requires AllDigits(s) && s != []
    ensures ParseInt(s) == Some(DigitsValue(s) as int)
  {
    DigitPrefixOfDigits(s, []);
    assert s + [] == s;
  }

  /** `parseInt` reads a leading minus sign as negation. */
  lemma {:induction false} ParseIntNegative(n: nat)
    ensures ParseInt("-" + NatToString(n)) == Some(-(n as int))
  {
    var s := NatToString(n);
    var t := "-" + s;
    assert t[1..] == s;
    assert DigitPrefix(s) == s by {
      DigitPrefixOfDigits(s, []);
      assert s + [] == s;
    }
    NatToStringRoundTrip(n);
  }

  /** `parseInt` stops at the first non-digit: "12abc" reads as 12. */
  lemma {:induction false} ParseIntStopsAtNonDigit(n: nat, rest: string)
    requires rest == [] || !IsDigit(rest[0])
    ensures ParseInt(NatToString(n) + rest) == Some(n as int)
  {
    var s := NatToString(n);
    DigitPrefixOfDigits(s, rest);
    NatToStringRoundTrip(n);
  }
}
