/** Decimal numerals: C's `isdigit` on ASCII, `atoi` on a run of digits, and
    the `%i` conversion of `printf` for non-negative values. */
module Numerals {

  predicate IsDigit(c: char) {
    '0' <= c <= '9'
  }

  predicate AllDigits(s: string) {
    forall k :: 0 <= k < |s| ==> IsDigit(s[k])
  }

  function DigitValue(c: char): (d: nat)
    requires IsDigit(c)
    ensures d < 10
  {
    (c as int - '0' as int) as nat
  }

  function DigitChar(d: nat): (c: char)
    requires d < 10
    ensures IsDigit(c) && DigitValue(c) == d
  {
    ('0' as int + d) as char
  }

  /** `isdigit` accepts only the ten digit characters: each one it accepts is
      the digit character of its own value. */
  lemma DigitOfValue(c: char)
    requires IsDigit(c)
    ensures DigitValue(c) < 10 && DigitChar(DigitValue(c)) == c
  {
  }

  function Pow10(n: nat): (p: nat)
    ensures p >= 1
  {
    if n == 0 then 1 else 10 * Pow10(n - 1)
  }

  /** `atoi` of a string made only of digits: its decimal value, leading zeros
      allowed. An n-digit numeral is below 10^n. */
  function Atoi(digits: string): (n: nat)
    requires AllDigits(digits)
    ensures n < Pow10(|digits|)
  {
    if digits == [] then 0
    else 10 * Atoi(digits[..|digits| - 1]) + DigitValue(digits[|digits| - 1])
  }

  /** `%i` of a non-negative value: its decimal numeral without leading zeros. */
  function Format(n: nat): (s: string)
    ensures |s| >= 1 && AllDigits(s)
    ensures s[0] == '0' ==> n == 0
  {
    if n < 10 then [DigitChar(n)] else Format(n / 10) + [DigitChar(n % 10)]
  }

  /** Reading a printed value back with `atoi` gives the value. */
  lemma {:induction false} AtoiFormat(n: nat)
    ensures Atoi(Format(n)) == n
  {
    if n >= 10 {
      AtoiFormat(n / 10);
      var s := Format(n);
      assert s[..|s| - 1] == Format(n / 10);
    }
  }
}
