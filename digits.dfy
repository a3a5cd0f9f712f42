/**
 * Decimal text of integers, as Python's `str()` and the `02d` format
 * specification produce it, with the reading-back direction.
 */
module Digits {

  predicate IsDigit(c: char) { '0' <= c <= '9' }

  predicate AllDigits(s: string) { forall i :: 0 <= i < |s| ==> IsDigit(s[i]) }

  function DigitValue(c: char): (d: nat)
    requires IsDigit(c)
    ensures d < 10
  {
    (c as int) - ('0' as int)
  }

  function DigitChar(d: nat): (c: char)
    requires d < 10
    ensures IsDigit(c) && DigitValue(c) == d
  {
    (('0' as int) + d) as char
  }

  function Pow10(k: nat): (p: nat)
    ensures p >= 1
  {
    if k == 0 then 1 else 10 * Pow10(k - 1)
  }

  /** `str(n)` for a natural number: its digits, most significant first, no leading zero. */
  function NatToString(n: nat): (s: string)
    ensures |s| >= 1 && AllDigits(s)
    ensures |s| > 1 ==> s[0] != '0'
  {
    if n < 10 then [DigitChar(n)] else NatToString(n / 10) + [DigitChar(n % 10)]
  }

  /** `str(i)` for any integer: a minus sign, then the digits of the magnitude. */
  function IntToString(i: int): string
  {
    if i < 0 then "-" + NatToString(-i) else NatToString(i)
  }

  /**
   * `f"{n:02d}"`: at least two characters, zero-padded after any sign.
   * A negative number already has two characters, so it is never padded.
   */
  function Pad2(n: int): string
  {
    if 0 <= n < 10 then "0" + NatToString(n) else IntToString(n)
  }

  /** The value of a digit string, most significant digit first. */
  function ParseNat(s: string): nat
    requires AllDigits(s)
  {
    if s == [] then 0 else 10 * ParseNat(s[..|s| - 1]) + DigitValue(s[|s| - 1])
  }

  /** Reading the text of n back gives n. */
  lemma {:induction false} ParseNatToString(n: nat)
    ensures ParseNat(NatToString(n)) == n
  {
    if n >= 10 {
      var s := NatToString(n);
      assert s[..|s| - 1] == NatToString(n / 10);
      ParseNatToString(n / 10);
    }
  }

  /** The text of n has at most k digits exactly when n is below 10^k. */
  lemma {:induction false} DigitCount(n: nat, k: nat)
    requires k >= 1
    ensures |NatToString(n)| <= k <==> n < Pow10(k)
  {
    if n >= 10 {
      if k == 1 {
        assert |NatToString(n / 10)| >= 1;
      } else {
        DigitCount(n / 10, k - 1);
      }
    }
  }

  /** For 0 <= n < 100, `02d` gives exactly two digits that read back as n. */
  lemma Pad2RoundTrip(n: int)
    requires 0 <= n < 100
    ensures |Pad2(n)| == 2 && AllDigits(Pad2(n)) && ParseNat(Pad2(n)) == n
  {
    if n < 10 {
      var s := Pad2(n);
      assert s[..1] == "0" && s[1] == DigitChar(n);
      assert ParseNat(s[..1]) == 0;
    } else {
      DigitCount(n, 2);
      assert |NatToString(n)| != 1;
      ParseNatToString(n);
    }
  }
}
