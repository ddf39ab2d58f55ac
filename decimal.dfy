/** Decimal rendering of non-negative integers, as Python's `str()` and the
    `{}` replacement fields of f-strings and `str.format` produce it, together
    with a reader for a leading decimal number. The reader is the partner of
    the renderer: every string the adapter builds from numbers can be read
    back into the numbers it was built from. */
module Decimal {
  import opened Wrappers

  predicate IsDigit(ch: char) {
    '0' <= ch <= '9'
  }

  predicate AllDigits(s: string) {
    forall i :: 0 <= i < |s| ==> IsDigit(s[i])
  }

  function DigitChar(d: nat): (ch: char)
    requires d < 10
    ensures IsDigit(ch)
  {
    (48 + d) as char
  }

  function DigitValue(ch: char): (d: nat)
    requires IsDigit(ch)
    ensures d < 10
  {
    ch as int - 48
  }

  /** The decimal representation of `n`: most significant digit first, no
      leading zeros, "0" for zero. */
  function DecimalString(n: nat): (s: string)
    ensures |s| > 0 && AllDigits(s)
    ensures s[0] == '0' ==> n == 0
    decreases n
  {
    if n < 10 then [DigitChar(n)] else DecimalString(n / 10) + [DigitChar(n % 10)]
  }

  /** The number a string of decimal digits denotes. */
  function DigitsValue(s: string): nat
    requires AllDigits(s)
  {
    if s == [] then 0 else 10 * DigitsValue(s[..|s| - 1]) + DigitValue(s[|s| - 1])
  }

  lemma {:induction false} DigitsValueOfDecimalString(n: nat)
    ensures DigitsValue(DecimalString(n)) == n
    decreases n
  {
    var s := DecimalString(n);
    if n >= 10 {
      DigitsValueOfDecimalString(n / 10);
      assert s[..|s| - 1] == DecimalString(n / 10);
    }
  }

  /** The number of decimal digits `s` starts with. */
  function LeadingDigitCount(s: string): (k: nat)
    ensures k <= |s|
    ensures forall i :: 0 <= i < k ==> IsDigit(s[i])
    ensures k < |s| ==> !IsDigit(s[k])
    decreases |s|
  {
    if s == [] || !IsDigit(s[0]) then 0 else 1 + LeadingDigitCount(s[1..])
  }

  /** Reads the maximal run of decimal digits at the start of `s`: the number
      it denotes and what follows it, or None when `s` does not start with a
      digit. */
  function ReadNumber(s: string): Option<(nat, string)> {
    var k := LeadingDigitCount(s);
    if k == 0 then None else Some((DigitsValue(s[..k]), s[k..]))
  }

  /** Reading a rendered number back gives the number and leaves the rest of
      the string, as long as the rest does not itself start with a digit. */
  lemma ReadNumberOfDecimalString(n: nat, rest: string)
    requires rest == [] || !IsDigit(rest[0])
    ensures ReadNumber(DecimalString(n) + rest) == Some((n, rest))
  {
    var d := DecimalString(n);
    var s := d + rest;
    var k := LeadingDigitCount(s);
    assert forall i :: 0 <= i < |d| ==> s[i] == d[i] && IsDigit(s[i]);
    assert |d| < |s| ==> s[|d|] == rest[0] && !IsDigit(s[|d|]);
    assert k == |d|;
    assert s[..k] == d && s[k..] == rest;
    DigitsValueOfDecimalString(n);
  }

  /** Reads a number that follows the separator `sep` at the start of `s`:
      the number and what follows it, or None when `s` does not start with
      `sep` and a digit. */
  function ReadAfter(sep: char, s: string): Option<(nat, string)> {
    if |s| > 0 && s[0] == sep then ReadNumber(s[1..]) else None
  }

  lemma ReadAfterDecimalString(sep: char, n: nat, rest: string)
    requires rest == [] || !IsDigit(rest[0])
    ensures ReadAfter(sep, [sep] + DecimalString(n) + rest) == Some((n, rest))
  {
    assert ([sep] + DecimalString(n) + rest)[1..] == DecimalString(n) + rest;
    ReadNumberOfDecimalString(n, rest);
  }

  /** Rendering is injective: distinct numbers have distinct renderings. */
  lemma DecimalStringInjective(m: nat, n: nat)
    ensures DecimalString(m) == DecimalString(n) <==> m == n
  {
    DigitsValueOfDecimalString(m);
    DigitsValueOfDecimalString(n);
  }
}
