/** Base-10 rendering of counters (the decimal numbering style) and its inverse. */
module Decimal {

  predicate IsDigit(c: char) {
    '0' <= c <= '9'
  }

  predicate AllDigits(t: string) {
    forall k :: 0 <= k < |t| ==> IsDigit(t[k])
  }

  function DigitValue(c: char): (v: nat)
    requires IsDigit(c)
    ensures v < 10
  {
    c as int - '0' as int
  }

  function DigitChar(d: nat): (c: char)
    requires d < 10
    ensures IsDigit(c) && DigitValue(c) == d
  {
    "0123456789"[d]
  }

  /** The digits of `n`, most significant first. */
  function DecimalString(n: nat): (r: string)
    ensures |r| > 0
    decreases n
  {
    if n < 10 then [DigitChar(n)] else DecimalString(n / 10) + [DigitChar(n % 10)]
  }

  /** A rendered counter is all digits, with no leading zero unless the counter is 0. */
  lemma {:induction false} DecimalStringDigits(n: nat)
    ensures AllDigits(DecimalString(n))
    ensures DecimalString(n)[0] == '0' ==> n == 0
    decreases n
  {
    if n >= 10 {
      DecimalStringDigits(n / 10);
      var t := DecimalString(n);
      assert t == DecimalString(n / 10) + [DigitChar(n % 10)];
      assert t[0] == DecimalString(n / 10)[0];
    }
  }

  /** The number a string of digits denotes. */
  function DecimalValue(t: string): nat
    requires AllDigits(t)
    decreases |t|
  {
    if t == [] then 0 else 10 * DecimalValue(t[..|t| - 1]) + DigitValue(t[|t| - 1])
  }

  /** Reading back a rendered counter gives the counter. */
  lemma {:induction false} DecimalRoundTrip(n: nat)
    ensures AllDigits(DecimalString(n)) && DecimalValue(DecimalString(n)) == n
  {
    DecimalStringDigits(n);
    if n >= 10 {
      var t := DecimalString(n);
      assert t[..|t| - 1] == DecimalString(n / 10);
      DecimalRoundTrip(n / 10);
    }
  }

  /** Different counters render differently. */
  lemma DecimalInjective(a: nat, b: nat)
    requires DecimalString(a) == DecimalString(b)
    ensures a == b
  {
    DecimalRoundTrip(a);
    DecimalRoundTrip(b);
  }
}
