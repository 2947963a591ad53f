/** Decimal numerals, as strconv.Itoa writes them and strconv.Atoi reads them. */
module Decimal {
  import opened Wrappers

  function Digit(d: nat): char
    requires d < 10
  {
    "0123456789"[d]
  }

  predicate IsDigit(c: char) { '0' <= c <= '9' }

  function DigitValue(c: char): nat
    requires IsDigit(c)
  {
    c as int - '0' as int
  }

  function Numeral(n: nat): (s: string)
    ensures s != [] && forall i :: 0 <= i < |s| ==> IsDigit(s[i])
  {
    if n < 10 then [Digit(n)] else Numeral(n / 10) + [Digit(n % 10)]
  }

  function Itoa(n: int): string { if n < 0 then "-" + Numeral(-n) else Numeral(n) }

  function Value(s: string): nat
    requires forall i :: 0 <= i < |s| ==> IsDigit(s[i])
  {
    if s == [] then 0 else 10 * Value(s[..|s| - 1]) + DigitValue(s[|s| - 1])
  }

  /** Numerals without a sign; anything else is an error. */
  function Atoi(s: string): Option<nat> {
    if s != [] && forall i :: 0 <= i < |s| ==> IsDigit(s[i]) then Some(Value(s)) else None
  }

  lemma {:induction false} ValueOfNumeral(n: nat)
    ensures Value(Numeral(n)) == n
  {
    if n >= 10 {
      ValueOfNumeral(n / 10);
      assert Numeral(n)[..|Numeral(n)| - 1] == Numeral(n / 10);
    } else {
      assert Numeral(n)[..0] == [];
    }
  }

  lemma RoundTrip(n: nat)
    ensures Atoi(Itoa(n)) == Some(n)
  {
    ValueOfNumeral(n);
  }

  lemma Sign(n: int)
    ensures Itoa(n) != [] && (Itoa(n)[0] == '-' <==> n < 0)
  {}

  lemma NumeralInjective(n: nat, m: nat)
    requires Numeral(n) == Numeral(m)
    ensures n == m
  {
    ValueOfNumeral(n);
    ValueOfNumeral(m);
  }

  lemma Injective(n: int, m: int)
    requires Itoa(n) == Itoa(m)
    ensures n == m
  {
    Sign(n);
    Sign(m);
    hide Numeral, Value;
    if n < 0 {
      assert Itoa(n)[1..] == Numeral(-n);
      assert Itoa(m)[1..] == Numeral(-m);
      NumeralInjective(-n, -m);
    } else {
      NumeralInjective(n, m);
    }
  }
}
