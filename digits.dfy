/**
 * Decimal rendering of non-negative integers, as Python's `str` does it, and
 * the six-digit confirmation codes that signup draws with
 * `str(randint(100000, 999999))`.
 */
module Digits {

  predicate IsDigit(c: char) {
    '0' <= c <= '9'
  }

  predicate IsDigits(s: string) {
    forall i :: 0 <= i < |s| ==> IsDigit(s[i])
  }

  function DigitChar(d: nat): (c: char)
    requires d < 10
    ensures IsDigit(c) && c as int - '0' as int == d
  {
    ('0' as int + d) as char
  }

  function DigitValue(c: char): (d: nat)
    requires IsDigit(c)
    ensures d < 10 && DigitChar(d) == c
  {
    c as int - '0' as int
  }

  function Pow10(k: nat): (p: nat)
    ensures p >= 1
  {
    if k == 0 then 1 else 10 * Pow10(k - 1)
  }

  /** `str(n)` for a non-negative `n`: most significant digit first, no leading zero. */
  function DecimalString(n: nat): (s: string)
    ensures |s| >= 1 && IsDigits(s)
    ensures s[0] == '0' <==> n == 0
  {
    if n < 10 then [DigitChar(n)] else DecimalString(n / 10) + [DigitChar(n % 10)]
  }

  /** The number a string of decimal digits denotes (`int(s)`). */
  function DecimalValue(s: string): (n: nat)
    requires IsDigits(s)
  {
    if s == [] then 0 else 10 * DecimalValue(s[..|s| - 1]) + DigitValue(s[|s| - 1])
  }

  /** A confirmation code as signup stores it: exactly six decimal digits, the first not zero. */
  predicate IsConfirmationCode(s: string) {
    |s| == 6 && IsDigits(s) && s[0] != '0'
  }

  lemma {:induction false} ValueOfDecimalString(n: nat)
    ensures DecimalValue(DecimalString(n)) == n
  {
    if n >= 10 {
      var p := DecimalString(n / 10);
      var s := p + [DigitChar(n % 10)];
      assert s[..|s| - 1] == p;
      ValueOfDecimalString(n / 10);
    }
  }

  lemma {:induction false} DecimalStringLength(n: nat, k: nat)
    requires Pow10(k) <= n < Pow10(k + 1)
    ensures |DecimalString(n)| == k + 1
  {
    if k > 0 {
      DecimalStringLength(n / 10, k - 1);
    }
  }

  lemma {:induction false} DecimalValueBounds(s: string)
    requires IsDigits(s) && |s| >= 1
    ensures DecimalValue(s) < Pow10(|s|)
    ensures s[0] != '0' ==> Pow10(|s| - 1) <= DecimalValue(s)
  {
    if |s| > 1 {
      var p := s[..|s| - 1];
      assert p[0] == s[0];
      DecimalValueBounds(p);
    }
  }

  /** A digit string without a leading zero is what `str` prints for its value. */
  lemma {:induction false} DecimalStringOfValue(s: string)
    requires IsDigits(s) && |s| >= 1 && (s[0] != '0' || |s| == 1)
    ensures DecimalString(DecimalValue(s)) == s
  {
    if |s| > 1 {
      var p := s[..|s| - 1];
      assert p[0] == s[0];
      DecimalValueBounds(p);
      DecimalStringOfValue(p);
      var n := DecimalValue(s);
      assert n / 10 == DecimalValue(p) && n % 10 == DigitValue(s[|s| - 1]);
      assert s == p + [s[|s| - 1]];
    }
  }

  /** Every draw of `randint(100000, 999999)` prints as a confirmation code, and reads back as the draw. */
  lemma CodeOfDraw(n: int)
    requires 100000 <= n <= 999999
    ensures IsConfirmationCode(DecimalString(n))
    ensures DecimalValue(DecimalString(n)) == n
  {
    assert Pow10(5) == 100000 && Pow10(6) == 1000000;
    DecimalStringLength(n, 5);
    ValueOfDecimalString(n);
  }

  /** Conversely, every confirmation code is the printed form of exactly one draw in range. */
  lemma DrawOfCode(s: string)
    requires IsConfirmationCode(s)
    ensures 100000 <= DecimalValue(s) <= 999999
    ensures DecimalString(DecimalValue(s)) == s
  {
    assert Pow10(5) == 100000 && Pow10(6) == 1000000;
    DecimalValueBounds(s);
    DecimalStringOfValue(s);
  }
}
