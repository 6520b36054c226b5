/**
 * Decimal digit strings: rendering a natural number (used for generated ids) and the
 * subset of JavaScript's `Number(string)` conversion that the validation layer relies on.
 */
module Decimal {
  import opened Wrappers

  predicate IsDigit(c: char) {
    '0' <= c <= '9'
  }

  predicate AllDigits(s: string) {
    forall i :: 0 <= i < |s| ==> IsDigit(s[i])
  }

  function DigitChar(d: nat): (c: char)
    requires d < 10
    ensures IsDigit(c)
  {
    ('0' as int + d) as char
  }

  function DigitValue(c: char): (d: nat)
    requires IsDigit(c)
    ensures d < 10
  {
    c as int - '0' as int
  }

  /** Value of a digit string, most significant digit first; "" is 0. */
  function DigitsValue(s: string): nat
    requires AllDigits(s)
  {
    if s == [] then 0 else DigitsValue(s[..|s| - 1]) * 10 + DigitValue(s[|s| - 1])
  }

  function Pow10(k: nat): (p: nat)
    ensures p >= 1
  {
    if k == 0 then 1 else 10 * Pow10(k - 1)
  }

  /** Shortest decimal rendering of `n`, as JavaScript's template literals print an integer. */
  function NatToString(n: nat): (s: string)
    ensures |s| >= 1 && AllDigits(s)
    ensures |s| > 1 ==> s[0] != '0'
  {
    if n < 10 then [DigitChar(n)] else NatToString(n / 10) + [DigitChar(n % 10)]
  }

  lemma {:induction false} NatToStringValue(n: nat)
    ensures DigitsValue(NatToString(n)) == n
  {
    if n >= 10 {
      var s := NatToString(n);
      assert s[..|s| - 1] == NatToString(n / 10);
      NatToStringValue(n / 10);
    }
  }

  /** Distinct numbers render to distinct strings. */
  lemma NatToStringInjective(m: nat, n: nat)
    requires NatToString(m) == NatToString(n)
    ensures m == n
  {
    NatToStringValue(m);
    NatToStringValue(n);
  }

  /** Length of the longest prefix of `s` made of digits. */
  function DigitPrefixLength(s: string): (k: nat)
    ensures k <= |s| && AllDigits(s[..k])
    ensures k < |s| ==> !IsDigit(s[k])
  {
    if s == [] || !IsDigit(s[0]) then 0
    else
      var k := 1 + DigitPrefixLength(s[1..]);
      assert s[..k] == [s[0]] + s[1..][..k - 1];
      k
  }

  /**
   * An unsigned decimal literal: digits, optionally followed by '.' and digits, with at
   * least one digit overall ("12", "12.", ".5", "10.5"). None means the text is not one.
   */
  function ParseUnsigned(s: string): Option<real> {
    var k := DigitPrefixLength(s);
    var whole := DigitsValue(s[..k]) as real;
    var rest := s[k..];
    if rest == [] then
      if k == 0 then None else Some(whole)
    else if rest[0] == '.' && AllDigits(rest[1..]) && (k > 0 || |rest| > 1) then
      Some(whole + DigitsValue(rest[1..]) as real / Pow10(|rest| - 1) as real)
    else
      None
  }

  /**
   * `Number(s)` on a string: the empty string is 0, an optional sign may precede an
   * unsigned decimal literal, anything else is NaN (None).
   */
  function ParseNumber(s: string): Option<real> {
    if s == [] then Some(0.0)
    else if s[0] == '-' then
      match ParseUnsigned(s[1..])
      case Some(v) => Some(-v)
      case None => None
    else if s[0] == '+' then ParseUnsigned(s[1..])
    else ParseUnsigned(s)
  }

  lemma AllDigitsPrefixLength(s: string)
    requires AllDigits(s)
    ensures DigitPrefixLength(s) == |s|
  {
  }

  /** A rendered natural number converts back to that number. */
  lemma ParseNatToString(n: nat)
    ensures ParseNumber(NatToString(n)) == Some(n as real)
  {
    var s := NatToString(n);
    AllDigitsPrefixLength(s);
    assert s[..|s|] == s;
    NatToStringValue(n);
    assert IsDigit(s[0]);
  }

  /** Numeric strings from the form tests convert to their numbers. */
  lemma ParseNumberHundredThousand()
    ensures ParseNumber("100000") == Some(100000.0)
  {
    ParseNatToString(100000);
    assert NatToString(100000) == "100000";
  }

  lemma ParseNumberNegative()
    ensures ParseNumber("-10000") == Some(-10000.0)
  {
    ParseNatToString(10000);
    assert NatToString(10000) == "10000";
    assert "-10000"[1..] == "10000";
  }

  lemma ParseNumberTwelve()
    ensures ParseNumber("12") == Some(12.0)
  {
    ParseNatToString(12);
    assert NatToString(12) == "12";
  }

  lemma ParseNumberZero()
    ensures ParseNumber("0") == Some(0.0)
  {
    ParseNatToString(0);
  }

  lemma ParseNumberFraction()
    ensures ParseNumber("10.5") == Some(10.5)
  {
    var s := "10.5";
    assert DigitPrefixLength(s[2..]) == 0;
    assert DigitPrefixLength(s) == 2;
    assert s[..2] == "10" && s[2..] == ".5" && ".5"[1..] == "5";
    assert DigitsValue("10") == 10;
    assert DigitsValue("5") == 5;
  }

  lemma ParseNumberRejects()
    ensures ParseNumber("abc") == None
    ensures ParseNumber("xyz") == None
    ensures ParseNumber("invalid") == None
    ensures ParseNumber("-") == None
    ensures ParseNumber(".") == None
  {
    assert DigitPrefixLength("abc") == 0;
    assert DigitPrefixLength("xyz") == 0;
    assert DigitPrefixLength("invalid") == 0;
    assert "-"[1..] == [];
  }
}
