/**
 * How a millisecond timestamp reads inside a template literal (`${Date.now()}`):
 * its decimal digits, most significant first, without leading zeros.
 */
module Decimal {

  predicate IsDigit(c: char) {
    '0' <= c <= '9'
  }

  function DigitChar(d: nat): (c: char)
    requires d < 10
    ensures IsDigit(c) && c as int - '0' as int == d
  {
    ('0' as int + d) as char
  }

  function DigitValue(c: char): nat
    requires IsDigit(c)
  {
    c as int - '0' as int
  }

  /** The decimal text of `n`. */
  function NatToDecimal(n: nat): (s: string)
    ensures |s| >= 1
    ensures forall i :: 0 <= i < |s| ==> IsDigit(s[i])
    ensures n > 0 ==> s[0] != '0'
    decreases n
  {
    if n < 10 then [DigitChar(n)] else NatToDecimal(n / 10) + [DigitChar(n % 10)]
  }

  /** The number a string of digits denotes (the inverse of NatToDecimal). */
  function ParseDecimal(s: string): nat
    requires forall i :: 0 <= i < |s| ==> IsDigit(s[i])
  {
    if s == [] then 0
    else ParseDecimal(s[..|s| - 1]) * 10 + DigitValue(s[|s| - 1])
  }

  /** Reading the digits back gives the number. */
  lemma {:induction false} DecimalRoundTrip(n: nat)
    ensures ParseDecimal(NatToDecimal(n)) == n
    decreases n
  {
    var s := NatToDecimal(n);
    if n >= 10 {
      DecimalRoundTrip(n / 10);
      assert s[..|s| - 1] == NatToDecimal(n / 10);
    }
  }

  /** Different timestamps render differently. */
  lemma DecimalInjective(a: nat, b: nat)
    requires NatToDecimal(a) == NatToDecimal(b)
    ensures a == b
  {
    DecimalRoundTrip(a);
    DecimalRoundTrip(b);
  }

  /** `prefix` followed by the decimal text of `n` (the `media-${Date.now()}` ids). */
  function Tagged(prefix: string, n: nat): (s: string)
    ensures |s| > |prefix|
    ensures s[..|prefix|] == prefix
    ensures forall i :: |prefix| <= i < |s| ==> IsDigit(s[i])
    ensures ParseDecimal(s[|prefix|..]) == n
  {
    var s := prefix + NatToDecimal(n);
    assert s[|prefix|..] == NatToDecimal(n);
    DecimalRoundTrip(n);
    s
  }

  /** Ids made with the same prefix from different timestamps differ. */
  lemma TaggedInjective(prefix: string, a: nat, b: nat)
    requires Tagged(prefix, a) == Tagged(prefix, b)
    ensures a == b
  {
  }
}
