/** Decimal numerals: printing them, and reading them as the C library does. */
module Decimal {
  import Isolated

  predicate IsDigit(c: char) {
    '0' <= c <= '9'
  }

  function DigitOf(d: nat): char
    requires d < 10
  {
    ('0' as int + d) as char
  }

  function Print(n: nat): string {
    if n < 10 then [DigitOf(n)] else Print(n / 10) + [DigitOf(n % 10)]
  }

  predicate AllDigits(s: string) {
    forall i :: 0 <= i < |s| ==> IsDigit(s[i])
  }

  function DigitValue(c: char): nat
    requires IsDigit(c)
  {
    c as int - '0' as int
  }

  function Value(s: string): nat
    requires AllDigits(s)
    decreases |s|
  {
    if s == [] then 0
    else Value(s[..|s| - 1]) * 10 + DigitValue(s[|s| - 1])
  }

  lemma {:induction false} PrintIsNumeral(n: nat)
    ensures Print(n) != [] && AllDigits(Print(n))
  {
    if n >= 10 { PrintIsNumeral(n / 10); }
  }

  lemma {:induction false} ValueOfPrint(n: nat)
    ensures AllDigits(Print(n)) && Value(Print(n)) == n
  {
    PrintIsNumeral(n);
    if n >= 10 {
      ValueOfPrint(n / 10);
      assert Print(n)[..|Print(n)| - 1] == Print(n / 10);
    } else {
      assert Print(n)[..0] == [];
    }
  }

  // Reading: spaces first, then a sign, then as many digits as there are

  function SkipSpaces(s: string): string {
    if s != [] && Isolated.IsSpace(s[0]) then SkipSpaces(s[1..]) else s
  }

  predicate IsNegative(s: string) {
    var t := SkipSpaces(s);
    t != [] && t[0] == '-'
  }

  /** What follows the spaces and the sign. */
  function Unsigned(s: string): string {
    var t := SkipSpaces(s);
    if t != [] && (t[0] == '-' || t[0] == '+') then t[1..] else t
  }

  function LeadingDigits(s: string): (digits: string)
    ensures AllDigits(digits) && digits <= s
  {
    if s != [] && IsDigit(s[0]) then [s[0]] + LeadingDigits(s[1..]) else []
  }

  /** Reading stops at the first character that is no digit. */
  lemma {:induction false} LeadingDigitsOf(digits: string, rest: string)
    requires AllDigits(digits) && (rest != [] ==> !IsDigit(rest[0]))
    ensures LeadingDigits(digits + rest) == digits
  {
    if digits == [] {
      assert digits + rest == rest;
    } else {
      assert (digits + rest)[1..] == digits[1..] + rest;
      LeadingDigitsOf(digits[1..], rest);
    }
  }

  /** Digits are written in their order, and a number with its highest digit first. */
  lemma NumeralsAreDecimal(n: nat, d: nat)
    requires n > 0 && d < 10
    ensures Print(d) == ["0123456789"[d]]
    ensures Print(10 * n + d) == Print(n) + Print(d)
  {
    assert (10 * n + d) / 10 == n && (10 * n + d) % 10 == d;
  }
}
