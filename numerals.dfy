/**
 * Decimal rendering of a natural number, as Rust's `{}` formats a `u64`:
 * the shortest run of ASCII digits, most significant first, with no sign and
 * no leading zero. `ValueOf` reads a run of digits back, and the two are
 * proved inverse to each other on canonical digit strings.
 */
module Numerals {

  predicate IsDigit(c: char) {
    '0' <= c <= '9'
  }

  predicate AllDigits(s: string) {
    forall i :: 0 <= i < |s| ==> IsDigit(s[i])
  }

  /** A canonical decimal numeral: non-empty, only digits, no leading zero unless it is "0". */
  predicate IsCanonical(s: string) {
    |s| >= 1 && AllDigits(s) && (s[0] == '0' ==> |s| == 1)
  }

  function DigitValue(c: char): (d: nat)
    requires IsDigit(c)
    ensures d < 10
  {
    c as int - '0' as int
  }

  function DigitChar(d: nat): (c: char)
    requires d < 10
    ensures IsDigit(c) && DigitValue(c) == d
    ensures c == '0' <==> d == 0
  {
    ('0' as int + d) as char
  }

  /** The numeral `{}` prints for `n`. */
  function Decimal(n: nat): (s: string)
    ensures IsCanonical(s)
    ensures s == "0" <==> n == 0
    ensures '_' !in s
    decreases n
  {
    if n < 10 then [DigitChar(n)] else Decimal(n / 10) + [DigitChar(n % 10)]
  }

  /** The number a run of digits denotes. */
  function ValueOf(s: string): nat
    requires AllDigits(s)
  {
    if s == [] then 0 else ValueOf(s[..|s| - 1]) * 10 + DigitValue(s[|s| - 1])
  }

  lemma DigitCharOfValue(c: char)
    requires IsDigit(c)
    ensures DigitChar(DigitValue(c)) == c
  {
  }

  /** Reading back what `Decimal` prints gives the number printed. */
  lemma {:induction false} ValueOfDecimal(n: nat)
    ensures ValueOf(Decimal(n)) == n
    decreases n
  {
    var s := Decimal(n);
    if n >= 10 {
      ValueOfDecimal(n / 10);
      assert s[..|s| - 1] == Decimal(n / 10);
    }
  }

  /** A numeral with a non-zero first digit denotes a positive number. */
  lemma {:induction false} ValueOfPositive(s: string)
    requires |s| >= 1 && AllDigits(s) && s[0] != '0'
    ensures ValueOf(s) >= 1
    decreases |s|
  {
    if |s| > 1 {
      ValueOfPositive(s[..|s| - 1]);
    }
  }

  /** Printing the value of a canonical numeral gives that numeral back. */
  lemma {:induction false} DecimalOfValue(s: string)
    requires IsCanonical(s)
    ensures Decimal(ValueOf(s)) == s
    decreases |s|
  {
    var last := s[|s| - 1];
    DigitCharOfValue(last);
    if |s| > 1 {
      var p := s[..|s| - 1];
      assert p[0] == s[0];
      ValueOfPositive(p);
      DecimalOfValue(p);
      var n := ValueOf(s);
      assert n == ValueOf(p) * 10 + DigitValue(last);
      assert n / 10 == ValueOf(p) && n % 10 == DigitValue(last);
      assert s == p + [last];
    }
  }

  /** Distinct numbers print as distinct numerals. */
  lemma DecimalInjective(a: nat, b: nat)
    requires Decimal(a) == Decimal(b)
    ensures a == b
  {
    ValueOfDecimal(a);
    ValueOfDecimal(b);
  }
}
