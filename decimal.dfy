/**
 * Decimal rendering of integers, as a JavaScript template literal renders an
 * integral number (`${page}`), and the canonical parser that inverts it.
 */
module Decimal {
  import opened Wrappers

  predicate IsDigit(c: char) {
    '0' <= c <= '9'
  }

  /** A character that can occur in a rendered integer. */
  predicate IsNumeral(c: char) {
    IsDigit(c) || c == '-'
  }

  function DigitChar(d: nat): (c: char)
    requires d < 10
    ensures IsDigit(c)
  {
    (48 + d) as char
  }

  function DigitValue(c: char): (d: nat)
    requires IsDigit(c)
    ensures d < 10
    ensures DigitChar(d) == c
  {
    c as int - 48
  }

  predicate AllDigits(s: string) {
    forall k :: 0 <= k < |s| ==> IsDigit(s[k])
  }

  /** Non-empty, digits only, and no leading zero unless the numeral is "0". */
  predicate Canonical(s: string) {
    |s| >= 1 && AllDigits(s) && (s[0] == '0' ==> |s| == 1)
  }

  /** Decimal numeral of a natural number, most significant digit first. */
  function NatToString(n: nat): (s: string)
    ensures Canonical(s)
    ensures s[0] == '0' <==> n == 0
    decreases n
  {
    if n < 10 then [DigitChar(n)] else NatToString(n / 10) + [DigitChar(n % 10)]
  }

  /** The number an all-digit numeral denotes (0 for the empty numeral). */
  function DigitsValue(s: string): nat
    requires AllDigits(s)
    decreases |s|
  {
    if s == [] then 0 else DigitsValue(s[..|s| - 1]) * 10 + DigitValue(s[|s| - 1])
  }

  /** Decimal numeral of an integer; a negative number gets a leading '-'. */
  function IntToString(i: int): (s: string)
    ensures |s| >= 1
    ensures forall k :: 0 <= k < |s| ==> IsNumeral(s[k])
    ensures s[0] == '-' <==> i < 0
  {
    if i < 0 then "-" + NatToString(-i) else NatToString(i)
  }

  function ParseNat(s: string): Option<nat> {
    if Canonical(s) then Some(DigitsValue(s)) else None
  }

  /** Accepts exactly the numerals IntToString produces: no '+', no "-0", no leading zeros. */
  function ParseInt(s: string): Option<int> {
    if |s| >= 1 && s[0] == '-' then
      match ParseNat(s[1..])
      case Some(n) => if n > 0 then Some(-(n as int)) else None
      case None => None
    else
      match ParseNat(s)
      case Some(n) => Some(n)
      case None => None
  }

  lemma {:induction false} ValueOfNatToString(n: nat)
    ensures DigitsValue(NatToString(n)) == n
    decreases n
  {
    if n >= 10 {
      var s := NatToString(n);
      assert s[..|s| - 1] == NatToString(n / 10);
      ValueOfNatToString(n / 10);
    }
  }

  lemma {:induction false} CanonicalValuePositive(s: string)
    requires Canonical(s) && s[0] != '0'
    ensures DigitsValue(s) > 0
    decreases |s|
  {
    if |s| > 1 {
      CanonicalValuePositive(s[..|s| - 1]);
    }
  }

  lemma {:induction false} NatToStringOfValue(s: string)
    requires Canonical(s)
    ensures NatToString(DigitsValue(s)) == s
    decreases |s|
  {
    if |s| > 1 {
      var init, d := s[..|s| - 1], DigitValue(s[|s| - 1]);
      CanonicalValuePositive(init);
      NatToStringOfValue(init);
      var n := DigitsValue(s);
      assert n == DigitsValue(init) * 10 + d;
      assert n / 10 == DigitsValue(init) && n % 10 == d;
      assert s == init + [s[|s| - 1]];
    }
  }

  /** Parsing what was rendered gives the number back. */
  lemma ParseIntToString(i: int)
    ensures ParseInt(IntToString(i)) == Some(i)
  {
    var s := IntToString(i);
    if i < 0 {
      assert s[1..] == NatToString(-i);
      ValueOfNatToString(-i);
    } else {
      ValueOfNatToString(i);
    }
  }

  /** Whatever parses was rendered that way: the numeral of a number is unique. */
  lemma IntToStringOfParse(s: string, i: int)
    requires ParseInt(s) == Some(i)
    ensures IntToString(i) == s
  {
    if |s| >= 1 && s[0] == '-' {
      NatToStringOfValue(s[1..]);
      assert s == "-" + s[1..];
    } else {
      NatToStringOfValue(s);
    }
  }
}
