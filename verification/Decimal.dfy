/** Decimal printing of integers, and the parsing of an unsigned 64-bit one. */
module Decimal {
  function Digit(d: nat): char
    requires d < 10
  {
    ('0' as int + d) as char
  }

  predicate IsDigit(c: char) {
    '0' <= c <= '9'
  }

  predicate AllDigits(s: string) {
    forall i :: 0 <= i < |s| ==> IsDigit(s[i])
  }

  function DigitValue(c: char): (d: nat)
    requires IsDigit(c)
    ensures d < 10
  {
    c as int - '0' as int
  }

  function PrintNat(n: nat): (s: string)
    ensures s != [] && AllDigits(s)
  {
    if n < 10 then [Digit(n)] else PrintNat(n / 10) + [Digit(n % 10)]
  }

  /** `i64::to_string` */
  function PrintInt(n: int): (s: string)
    ensures s != [] && forall i :: 0 <= i < |s| ==> IsDigit(s[i]) || s[i] == '-'
  {
    if n < 0 then "-" + PrintNat(-n) else PrintNat(n)
  }

  function ValueOf(s: string): nat
    requires AllDigits(s)
  {
    if s == [] then 0 else 10 * ValueOf(s[..|s| - 1]) + DigitValue(s[|s| - 1])
  }

  lemma {:induction false} ValueOfPrinted(n: nat)
    ensures ValueOf(PrintNat(n)) == n
  {
    if n >= 10 {
      ValueOfPrinted(n / 10);
      assert PrintNat(n)[..|PrintNat(n)| - 1] == PrintNat(n / 10);
    } else {
      assert PrintNat(n)[..0] == [];
    }
  }

  lemma PrintIntInjective(a: int, b: int)
    requires PrintInt(a) == PrintInt(b)
    ensures a == b
  {
    SignShows(a);
    SignShows(b);
    ValueOfPrinted(if a < 0 then -a else a);
    ValueOfPrinted(if b < 0 then -b else b);
  }

  lemma SignShows(a: int)
    ensures PrintInt(a)[0] == '-' <==> a < 0
    ensures a < 0 ==> PrintInt(a)[1..] == PrintNat(-a)
  {
  }
}
