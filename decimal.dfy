/**
 * Unsigned decimal numerals, as printf's %u writes them and as scanf's %u
 * reads their digits.
 */
module Decimal {

  /** The unsigned int of the C source (32 bits on the targets it builds for). */
  const UINT_LIMIT: int := 0x1_0000_0000
  type uint32 = x: int | 0 <= x < UINT_LIMIT

  predicate IsDigit(c: char) {
    '0' <= c <= '9'
  }

  predicate AllDigits(s: string) {
    forall i :: 0 <= i < |s| ==> IsDigit(s[i])
  }

  function DigitValue(c: char): (d: nat)
    requires IsDigit(c)
    ensures d < 10
  {
    (c as int) - ('0' as int)
  }

  function DigitChar(d: nat): (c: char)
    requires d < 10
    ensures IsDigit(c) && DigitValue(c) == d
  {
    (('0' as int) + d) as char
  }

  /** What printf's %u writes for n: its digits, most significant first, with no leading zero. */
  function Dec(n: nat): (s: string)
    ensures |s| > 0 && AllDigits(s)
    ensures s[0] == '0' ==> n == 0
  {
    if n < 10 then [DigitChar(n)] else Dec(n / 10) + [DigitChar(n % 10)]
  }

  /** The number a run of decimal digits denotes. */
  function DigitsValue(s: string): nat
    requires AllDigits(s)
  {
    if s == [] then 0 else DigitsValue(s[..|s| - 1]) * 10 + DigitValue(s[|s| - 1])
  }

  function Pow10(k: nat): (p: nat)
    ensures p >= 1
  {
    if k == 0 then 1 else 10 * Pow10(k - 1)
  }

  /** Reading back the digits printf wrote gives the number printed. */
  lemma {:induction false} DecRoundTrip(n: nat)
    ensures DigitsValue(Dec(n)) == n
  {
    if n >= 10 {
      var s := Dec(n);
      assert s[..|s| - 1] == Dec(n / 10);
      DecRoundTrip(n / 10);
    }
  }

  /** A number below 10^k takes at most k digits (and always at least one). */
  lemma {:induction false} DecWidth(n: nat, k: nat)
    requires 0 < k && n < Pow10(k)
    ensures |Dec(n)| <= k
  {
    if n >= 10 {
      DecWidth(n / 10, k - 1);
    }
  }

  /** Every unsigned int prints in at most ten digits. */
  lemma DecWidthUint(n: uint32)
    ensures |Dec(n)| <= 10
  {
    assert Pow10(10) == 10000000000;
    DecWidth(n, 10);
  }
}
