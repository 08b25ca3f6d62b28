/**
  Python's `str()` of an `int`, as an f-string renders it: an optional minus
  sign followed by the decimal digits, most significant first, with no leading
  zeros. `ParseInt` reads such a string back, so that the rendering is shown
  to lose no information.
 */
module Decimal {
  import opened Options

  predicate IsDigit(c: char) {
    '0' <= c <= '9'
  }

  predicate AllDigits(s: string) {
    forall i :: 0 <= i < |s| ==> IsDigit(s[i])
  }

  function DigitValue(c: char): (d: nat)
    requires IsDigit(c)
    ensures d < 10
  {
    c as int - '0' as int
  }

  function DigitChar(d: nat): (c: char)
    requires d < 10
    ensures IsDigit(c) && DigitValue(c) == d
  {
    ('0' as int + d) as char
  }

  /** The digits of `n`: at least one, and no leading zero unless `n` is 0. */
  function NatToDecimal(n: nat): (s: string)
    ensures 1 <= |s| && AllDigits(s)
    ensures s[0] == '0' ==> n == 0
    decreases n
  {
    if n < 10 then [DigitChar(n)] else NatToDecimal(n / 10) + [DigitChar(n % 10)]
  }

  /** `str(i)`: a minus sign exactly for negative values, then the digits of `|i|`. */
  function IntToDecimal(i: int): (s: string)
    ensures 1 <= |s|
    ensures s[0] == '-' <==> i < 0
    ensures i >= 0 ==> AllDigits(s)
    ensures i < 0 ==> 2 <= |s| && AllDigits(s[1..]) && s[1] != '0'
  {
    if i < 0 then "-" + NatToDecimal(-i) else NatToDecimal(i)
  }

  /** The value of a string of digits, most significant first. */
  function DigitsValue(s: string): (v: nat)
    requires AllDigits(s)
  {
    if s == [] then 0 else 10 * DigitsValue(s[..|s| - 1]) + DigitValue(s[|s| - 1])
  }

  /** Reads an optionally signed decimal integer; `None` for any other string. */
  function ParseInt(s: string): (r: Option<int>)
    ensures r.Some? ==> 1 <= |s| && (r.value < 0 <==> s[0] == '-')
  {
    if |s| >= 2 && s[0] == '-' && AllDigits(s[1..]) && DigitsValue(s[1..]) > 0 then
      Some(0 - DigitsValue(s[1..]) as int)
    else if |s| >= 1 && AllDigits(s) then
      Some(DigitsValue(s))
    else
      None
  }

  lemma {:induction false} DigitsValueOfNatToDecimal(n: nat)
    ensures DigitsValue(NatToDecimal(n)) == n
    decreases n
  {
    if n >= 10 {
      DigitsValueOfNatToDecimal(n / 10);
      var s := NatToDecimal(n);
      assert s[..|s| - 1] == NatToDecimal(n / 10);
    }
  }

  /** Rendering then parsing gives back the integer. */
  lemma IntToDecimalRoundTrip(i: int)
    ensures ParseInt(IntToDecimal(i)) == Some(i)
  {
    if i < 0 {
      DigitsValueOfNatToDecimal(-i);
      assert IntToDecimal(i)[1..] == NatToDecimal(-i);
    } else {
      DigitsValueOfNatToDecimal(i);
    }
  }

  /** Two integers render alike only if they are equal. */
  lemma IntToDecimalInjective(a: int, b: int)
    ensures IntToDecimal(a) == IntToDecimal(b) ==> a == b
  {
    IntToDecimalRoundTrip(a);
    IntToDecimalRoundTrip(b);
  }
}
