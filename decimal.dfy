/** Decimal text of natural numbers: `Number.prototype.toString()` for the
    one-time codes, and the value a string of digits denotes. */
module Decimal {
  import opened Chars

  function DigitChar(d: nat): (c: char)
    requires d < 10
    ensures IsDigit(c)
  {
    ('0' as int + d) as char
  }

  function DigitValue(c: char): (d: nat)
    requires IsDigit(c)
    ensures d < 10
  {
    c as int - '0' as int
  }

  predicate AllDigits(s: string)
  {
    forall i :: 0 <= i < |s| ==> IsDigit(s[i])
  }

  /** `n.toString()` for a natural number: no sign, no leading zeros. */
  function NatToString(n: nat): (s: string)
    ensures |s| >= 1 && AllDigits(s)
    decreases n
  {
    if n < 10 then [DigitChar(n)] else NatToString(n / 10) + [DigitChar(n % 10)]
  }

  /** The number a non-empty string of digits denotes. */
  function DecimalValue(s: string): nat
    requires AllDigits(s)
    decreases |s|
  {
    if s == [] then 0 else DecimalValue(s[..|s| - 1]) * 10 + DigitValue(s[|s| - 1])
  }

  function Pow10(k: nat): (p: nat)
    ensures p >= 1
  {
    if k == 0 then 1 else 10 * Pow10(k - 1)
  }

  /** Reading the text back gives the number. */
  lemma {:induction false} NatToStringRoundTrip(n: nat)
    ensures DecimalValue(NatToString(n)) == n
    decreases n
  {
    var s := NatToString(n);
    if n >= 10 {
      NatToStringRoundTrip(n / 10);
      assert s[..|s| - 1] == NatToString(n / 10);
    }
  }

  /** A number with k digits is written with k characters. */
  lemma {:induction false} NatToStringLength(n: nat, k: nat)
    requires k >= 1 && Pow10(k - 1) <= n < Pow10(k)
    ensures |NatToString(n)| == k
    decreases k
  {
    if k == 1 {
      assert n < 10;
    } else {
      assert n >= 10 by { assert Pow10(k - 1) == 10 * Pow10(k - 2); }
      var q := n / 10;
      assert Pow10(k - 2) <= q < Pow10(k - 1) by {
        assert Pow10(k - 1) == 10 * Pow10(k - 2);
        assert Pow10(k) == 10 * Pow10(k - 1);
        assert 10 * q <= n < 10 * q + 10;
      }
      NatToStringLength(q, k - 1);
    }
  }

  /** The six-digit codes: exactly six characters, all digits, denoting the number. */
  lemma SixDigitCode(n: nat)
    requires 100000 <= n <= 999999
    ensures |NatToString(n)| == 6 && AllDigits(NatToString(n))
    ensures DecimalValue(NatToString(n)) == n
  {
    assert Pow10(5) == 100000 && Pow10(6) == 1000000;
    NatToStringLength(n, 6);
    NatToStringRoundTrip(n);
  }
}
