/**
 The few Python string builtins the setup script relies on, over `string`
 (a `seq<char>`): `str.endswith`, `str.isdigit` (ASCII digits only),
 `int(s)` on a digit string and `str(i)` on an integer.
 */
module Text {

  predicate IsDigit(c: char) {
    '0' <= c <= '9'
  }

  /** Every character is an ASCII decimal digit (the empty string included). */
  predicate AllDigits(s: string) {
    forall i :: 0 <= i < |s| ==> IsDigit(s[i])
  }

  /** `s.isdigit()`: non-empty and made of decimal digits only. */
  predicate IsDigits(s: string) {
    |s| > 0 && AllDigits(s)
  }

  /** `s.endswith(suffix)`: a plain suffix test on characters. */
  predicate EndsWith(s: string, suffix: string) {
    |suffix| <= |s| && s[|s| - |suffix|..] == suffix
  }

  predicate StartsWith(s: string, prefix: string) {
    |prefix| <= |s| && s[..|prefix|] == prefix
  }

  /** A digit string without superfluous leading zeros, as `str(n)` prints it. */
  predicate Canonical(s: string) {
    IsDigits(s) && (s[0] == '0' ==> |s| == 1)
  }

  function DigitValue(c: char): (d: nat)
    requires IsDigit(c)
    ensures d < 10
  {
    c as int - '0' as int
  }

  function DigitChar(d: nat): (c: char)
    requires d < 10
    ensures IsDigit(c) && DigitValue(c) == d
  {
    ('0' as int + d) as char
  }

  /** `int(s)` for a string of decimal digits (leading zeros allowed). */
  function DigitsValue(s: string): nat
    requires AllDigits(s)
  {
    if |s| == 0 then 0
    else 10 * DigitsValue(s[..|s| - 1]) + DigitValue(s[|s| - 1])
  }

  /** `str(n)` for a non-negative integer. */
  function NatDecimal(n: nat): (s: string)
    ensures Canonical(s)
    decreases n
  {
    if n < 10 then [DigitChar(n)]
    else NatDecimal(n / 10) + [DigitChar(n % 10)]
  }

  /** `str(i)` for any integer: a minus sign before the digits of `-i` when negative. */
  function Decimal(i: int): (s: string)
    ensures |s| > 0
    ensures i >= 0 <==> IsDigit(s[0])
    ensures i >= 0 ==> Canonical(s)
  {
    if i < 0 then "-" + NatDecimal(-i) else NatDecimal(i)
  }

  lemma {:induction false} DigitsValueOfNatDecimal(n: nat)
    ensures DigitsValue(NatDecimal(n)) == n
    decreases n
  {
    if n >= 10 {
      var s := NatDecimal(n);
      assert s[..|s| - 1] == NatDecimal(n / 10);
      DigitsValueOfNatDecimal(n / 10);
    }
  }

  lemma {:induction false} LeadingNonzeroIsPositive(s: string)
    requires IsDigits(s) && s[0] != '0'
    ensures DigitsValue(s) > 0
  {
    if |s| > 1 {
      LeadingNonzeroIsPositive(s[..|s| - 1]);
    }
  }

  /** A canonical digit string is exactly what `str` prints for its value. */
  lemma {:induction false} NatDecimalOfDigitsValue(s: string)
    requires Canonical(s)
    ensures NatDecimal(DigitsValue(s)) == s
  {
    if |s| > 1 {
      var p := s[..|s| - 1];
      LeadingNonzeroIsPositive(p);
      NatDecimalOfDigitsValue(p);
      assert s == p + [s[|s| - 1]];
    } else {
      assert s == [s[0]];
    }
  }

  /** `str` is injective on integers: distinct ids never print alike. */
  lemma DecimalInjective(a: int, b: int)
    requires Decimal(a) == Decimal(b)
    ensures a == b
  {
    if a >= 0 && b >= 0 {
      DigitsValueOfNatDecimal(a);
      DigitsValueOfNatDecimal(b);
    } else if a < 0 && b < 0 {
      assert NatDecimal(-a) == Decimal(a)[1..];
      assert NatDecimal(-b) == Decimal(b)[1..];
      DigitsValueOfNatDecimal(-a);
      DigitsValueOfNatDecimal(-b);
    }
  }

  /** A string that ends with `suffix` ends with the last character of `suffix`. */
  lemma EndsWithLast(s: string, suffix: string)
    requires EndsWith(s, suffix) && |suffix| > 0
    ensures s[|s| - 1] == suffix[|suffix| - 1]
  {
    assert s[|s| - |suffix|..][|suffix| - 1] == s[|s| - 1];
  }
}
