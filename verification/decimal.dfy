/** Python's `str()` of an integer: the decimal numeral used in `data[productId]`. */
module Decimal {

  predicate IsAsciiDigit(c: char) {
    '0' <= c <= '9'
  }

  /** The numeral of one digit value. */
  function DigitChar(d: int): (c: char)
    requires 0 <= d <= 9
    ensures IsAsciiDigit(c) && c as int - '0' as int == d
  {
    (d + '0' as int) as char
  }

  /** The value of an ASCII digit, inverse of DigitChar. */
  function DigitValue(c: char): (d: int)
    requires IsAsciiDigit(c)
    ensures 0 <= d <= 9 && DigitChar(d) == c
  {
    c as int - '0' as int
  }

  /** `str(n)` for a non-negative `n`: most significant digit first, no leading zero. */
  function NatToDecimal(n: nat): (s: string)
    ensures |s| > 0
    ensures forall i :: 0 <= i < |s| ==> IsAsciiDigit(s[i])
    ensures s[0] == '0' ==> n == 0
    decreases n
  {
    if n < 10 then [DigitChar(n)] else NatToDecimal(n / 10) + [DigitChar(n % 10)]
  }

  /** `str(n)` for any integer: a minus sign before the numeral of `-n` when negative. */
  function IntToDecimal(n: int): (s: string)
    ensures |s| > 0
    ensures (s[0] == '-') <==> n < 0
    ensures forall i :: (if n < 0 then 1 else 0) <= i < |s| ==> IsAsciiDigit(s[i])
  {
    if n < 0 then "-" + NatToDecimal(-n) else NatToDecimal(n)
  }

  /** The value a string of ASCII digits denotes, read most significant digit first. */
  function DecimalValue(s: string): (n: nat)
    requires forall i :: 0 <= i < |s| ==> IsAsciiDigit(s[i])
  {
    if s == [] then 0 else 10 * DecimalValue(s[..|s| - 1]) + DigitValue(s[|s| - 1])
  }

  /** Reading back the numeral of `n` gives `n`: the numeral loses nothing. */
  lemma {:induction false} DecimalRoundTrip(n: nat)
    ensures DecimalValue(NatToDecimal(n)) == n
    decreases n
  {
    var s := NatToDecimal(n);
    if n >= 10 {
      DecimalRoundTrip(n / 10);
      assert s[..|s| - 1] == NatToDecimal(n / 10);
    }
  }

  /** Distinct integers have distinct numerals. */
  lemma IntToDecimalInjective(m: int, n: int)
    requires IntToDecimal(m) == IntToDecimal(n)
    ensures m == n
  {
    var s := IntToDecimal(m);
    if m < 0 {
      assert NatToDecimal(-m) == s[1..] == NatToDecimal(-n);
      DecimalRoundTrip(-m);
      DecimalRoundTrip(-n);
    } else {
      DecimalRoundTrip(m);
      DecimalRoundTrip(n);
    }
  }
}
