/** Decimal digits: Python's `str()` of a non-negative integer, its inverse,
    and the zero-padded two-digit hour `strftime("%H")` produces. */
module Digits {

  predicate IsDigit(c: char)
  {
    '0' <= c <= '9'
  }

  predicate AllDigits(s: string)
  {
    forall k :: 0 <= k < |s| ==> IsDigit(s[k])
  }

  function DigitChar(d: nat): (c: char)
    requires d < 10
    ensures IsDigit(c)
  {
    (('0' as int) + d) as char
  }

  function DigitValue(c: char): (d: nat)
    requires IsDigit(c)
    ensures d < 10 && DigitChar(d) == c
  {
    (c as int) - ('0' as int)
  }

  function Pow10(k: nat): (p: nat)
    ensures p >= 1
  {
    if k == 0 then 1 else 10 * Pow10(k - 1)
  }

  /** `str(n)` for n >= 0: the shortest decimal numeral, without sign or padding. */
  function DecimalString(n: nat): string
    decreases n
  {
    if n < 10 then [DigitChar(n)] else DecimalString(n / 10) + [DigitChar(n % 10)]
  }

  /** The value of a decimal numeral (`int(s)` on digits only). */
  function DecimalValue(s: string): nat
    requires AllDigits(s)
    decreases |s|
  {
    if s == [] then 0 else DecimalValue(s[..|s| - 1]) * 10 + DigitValue(s[|s| - 1])
  }

  /** `str` produces only digits, and reading them back gives the number. */
  lemma {:induction false} DecimalRoundTrip(n: nat)
    ensures AllDigits(DecimalString(n))
    ensures DecimalValue(DecimalString(n)) == n
    decreases n
  {
    if n >= 10 {
      DecimalRoundTrip(n / 10);
      var s := DecimalString(n);
      assert s[..|s| - 1] == DecimalString(n / 10);
    }
  }

  /** A number with k + 1 digits is written with exactly k + 1 characters. */
  lemma {:induction false} DecimalLength(n: nat, k: nat)
    requires Pow10(k) <= n < Pow10(k + 1)
    ensures |DecimalString(n)| == k + 1
    decreases k
  {
    if n >= 10 {
      assert k >= 1;
      assert Pow10(k) == 10 * Pow10(k - 1);
      assert Pow10(k + 1) == 10 * Pow10(k);
      DecimalLength(n / 10, k - 1);
    }
  }

  /** `str` of a positive number never starts with '0'. */
  lemma {:induction false} DecimalNoLeadingZero(n: nat)
    requires n > 0
    ensures DecimalString(n)[0] != '0'
    decreases n
  {
    if n >= 10 {
      DecimalNoLeadingZero(n / 10);
    }
  }

  /** The hour field of `strftime("%H:00")`, and the first two characters of
      every "HH:00" time the schedule form offers. */
  function TwoDigits(h: nat): (s: string)
    requires h < 100
    ensures |s| == 2 && AllDigits(s)
  {
    [DigitChar(h / 10), DigitChar(h % 10)]
  }

  /** Distinct hours give distinct two-digit fields. */
  lemma TwoDigitsInjective(h: nat, g: nat)
    requires h < 100 && g < 100
    ensures TwoDigits(h) == TwoDigits(g) <==> h == g
  {
    if TwoDigits(h) == TwoDigits(g) {
      assert DigitValue(TwoDigits(h)[0]) == h / 10;
      assert DigitValue(TwoDigits(h)[1]) == h % 10;
      assert DigitValue(TwoDigits(g)[0]) == g / 10;
      assert DigitValue(TwoDigits(g)[1]) == g % 10;
    }
  }
}
