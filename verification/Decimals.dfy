// Numbers as JavaScript prints them.
module Decimals {

  predicate IsDigit(c: char) {
    '0' <= c <= '9'
  }

  function Decimal(n: nat): (s: string)
    ensures s != "" && forall c :: c in s ==> IsDigit(c)
  {
    if n < 10 then ["0123456789"[n]] else Decimal(n / 10) + ["0123456789"[n % 10]]
  }

  lemma {:induction false} DecimalInjective(m: nat, n: nat)
    requires Decimal(m) == Decimal(n)
    ensures m == n
    decreases m
  {
    var s := Decimal(m);
    assert m >= 10 ==> s[|s| - 1] == "0123456789"[m % 10] && s[..|s| - 1] == Decimal(m / 10);
    assert n >= 10 ==> s[|s| - 1] == "0123456789"[n % 10] && s[..|s| - 1] == Decimal(n / 10);
    if m >= 10 && n >= 10 {
      DecimalInjective(m / 10, n / 10);
    }
  }

  function DigitValue(c: char): nat
    requires IsDigit(c)
  {
    c as int - '0' as int
  }

  // What a string of digits stands for.
  function Value(s: string): nat
    requires forall c :: c in s ==> IsDigit(c)
  {
    if s == "" then 0
    else
      var last := s[|s| - 1];
      assert last in s && IsDigit(last);
      10 * Value(s[..|s| - 1]) + DigitValue(last)
  }

  // The digits stand for the number, without leading zeros.
  lemma {:induction false} DecimalValue(n: nat)
    ensures Value(Decimal(n)) == n && (Decimal(n)[0] == '0' ==> n == 0)
  {
    var s := Decimal(n);
    if n < 10 {
      assert s[..|s| - 1] == "" && s == ["0123456789"[n]];
      assert DigitValue("0123456789"[n]) == n;
    } else {
      assert s[..|s| - 1] == Decimal(n / 10) && s[|s| - 1] == "0123456789"[n % 10];
      assert DigitValue("0123456789"[n % 10]) == n % 10;
      DecimalValue(n / 10);
    }
  }
}
