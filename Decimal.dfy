/** Decimal text of integers, as PHP renders an `int` interpolated into a
    string ("Product with ID {$id} not found"). */
module Decimal {

  predicate IsDigits(s: string) {
    forall i :: 0 <= i < |s| ==> '0' <= s[i] <= '9'
  }

  function DigitChar(d: nat): (c: char)
    requires d < 10
    ensures '0' <= c <= '9' && (c as int) - ('0' as int) == d
  {
    ('0' as int + d) as char
  }

  /** Shortest decimal digits of `n`: no leading zero except for "0" itself. */
  function NatToDecimal(n: nat): (s: string)
    ensures |s| >= 1 && IsDigits(s)
    ensures s[0] == '0' ==> n == 0
    decreases n
  {
    if n < 10 then [DigitChar(n)] else NatToDecimal(n / 10) + [DigitChar(n % 10)]
  }

  /** PHP's string form of an int: a minus sign before the magnitude. */
  function IntToDecimal(n: int): string {
    if n < 0 then "-" + NatToDecimal(-n) else NatToDecimal(n)
  }

  /** The value a string of decimal digits denotes (the reading direction). */
  function DecimalValue(s: string): nat
    requires IsDigits(s)
  {
    if s == [] then 0
    else DecimalValue(s[..|s| - 1]) * 10 + ((s[|s| - 1] as int) - ('0' as int))
  }

  /** Reading back what NatToDecimal wrote gives the number. */
  lemma {:induction false} NatToDecimalRoundTrip(n: nat)
    ensures DecimalValue(NatToDecimal(n)) == n
    decreases n
  {
    var s := NatToDecimal(n);
    if n >= 10 {
      NatToDecimalRoundTrip(n / 10);
      assert s[..|s| - 1] == NatToDecimal(n / 10);
    }
  }

  /** Two different integers never print alike. */
  lemma IntToDecimalInjective(m: int, n: int)
    requires IntToDecimal(m) == IntToDecimal(n)
    ensures m == n
  {
    var sm, sn := IntToDecimal(m), IntToDecimal(n);
    if m < 0 {
      SignedForm(m);
    } else {
      assert sm == NatToDecimal(m);
      NatToDecimalRoundTrip(m);
    }
    if n < 0 {
      SignedForm(n);
    } else {
      assert sn == NatToDecimal(n);
      NatToDecimalRoundTrip(n);
    }
    if m < 0 && n < 0 {
      assert sm[1..] == sn[1..];
    }
  }

  lemma SignedForm(n: int)
    requires n < 0
    ensures IntToDecimal(n)[0] == '-' && IntToDecimal(n)[1..] == NatToDecimal(-n)
    ensures DecimalValue(IntToDecimal(n)[1..]) == -n
  {
    var s := NatToDecimal(-n);
    assert ("-" + s)[1..] == s;
    NatToDecimalRoundTrip(-n);
  }
}
