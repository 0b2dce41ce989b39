/**
 * Decimal numerals: how a non-negative whole number is printed when it is
 * interpolated into a string, and how a run of digits is read back.
 */
module Decimal {

  predicate IsDigit(c: char)
  {
    '0' <= c <= '9'
  }

  predicate AllDigits(s: string)
  {
    forall i :: 0 <= i < |s| ==> IsDigit(s[i])
  }

  /** A non-empty run of decimal digits. */
  predicate Numeral(s: string)
  {
    |s| >= 1 && AllDigits(s)
  }

  function DigitValue(c: char): (d: nat)
    requires IsDigit(c)
    ensures d < 10
  {
    (c as int) - ('0' as int)
  }

  function DigitChar(d: nat): (c: char)
    requires d < 10
    ensures IsDigit(c) && DigitValue(c) == d
  {
    ((('0' as int) + d) as char)
  }

  /** The number a run of digits denotes, most significant digit first. */
  function Value(s: string): nat
    requires AllDigits(s)
    decreases |s|
  {
    if s == [] then 0 else Value(s[..|s| - 1]) * 10 + DigitValue(s[|s| - 1])
  }

  /** The numeral of `n` as printed: most significant digit first. */
  function Show(n: nat): string
    decreases n
  {
    if n < 10 then [DigitChar(n)] else Show(n / 10) + [DigitChar(n % 10)]
  }

  /**
   * `Show(n)` is the canonical numeral of `n`: digits only, denoting `n`,
   * and without a leading zero unless `n` is zero itself.
   */
  lemma {:induction false} ShowNumeral(n: nat)
    ensures Numeral(Show(n)) && Value(Show(n)) == n
    ensures (Show(n)[0] == '0') == (n == 0)
    ensures (|Show(n)| == 1) == (n < 10)
    ensures 10 <= n < 100 ==> |Show(n)| == 2
    decreases n
  {
    if n >= 10 {
      ShowNumeral(n / 10);
      var s := Show(n);
      assert s[..|s| - 1] == Show(n / 10);
    }
  }

  /** A numeral without a superfluous leading zero is the canonical numeral of its value. */
  lemma {:induction false} ShowCanonical(s: string)
    requires Numeral(s)
    requires s[0] == '0' ==> |s| == 1
    ensures Show(Value(s)) == s
    decreases |s|
  {
    var p, c := s[..|s| - 1], s[|s| - 1];
    assert s == p + [c];
    assert DigitChar(DigitValue(c)) == c;
    if |s| > 1 {
      assert p[0] == s[0];
      ShowCanonical(p);
      ShowNumeral(Value(p));
      var v := Value(p);
      assert v != 0;
      assert (v * 10 + DigitValue(c)) / 10 == v;
      assert (v * 10 + DigitValue(c)) % 10 == DigitValue(c);
    }
  }

  /** A numeral never contains the field separator of a clock string. */
  lemma DigitsHaveNoColon(s: string)
    requires AllDigits(s)
    ensures ':' !in s
  {
  }
}
