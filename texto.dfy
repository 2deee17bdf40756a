/**
 * Decimal rendering of integers, as Python's f-strings and JavaScript's
 * template literals print them, and the digit-by-digit reading that inverts it.
 */
module Texto {

  predicate EsDigito(c: char)
  {
    '0' <= c <= '9'
  }

  predicate SoloDigitos(s: string)
  {
    forall i :: 0 <= i < |s| ==> EsDigito(s[i])
  }

  function CaracterDigito(d: nat): (c: char)
    requires d < 10
    ensures EsDigito(c) && c as int - '0' as int == d
  {
    ('0' as int + d) as char
  }

  function ValorDigito(c: char): (d: nat)
    requires EsDigito(c)
    ensures d < 10
  {
    c as int - '0' as int
  }

  /** The decimal digits of `n`, most significant first, without leading zeros. */
  function NatToString(n: nat): (s: string)
    ensures |s| >= 1 && SoloDigitos(s)
    ensures |s| > 1 ==> s[0] != '0'
    decreases n
  {
    if n < 10 then [CaracterDigito(n)]
    else NatToString(n / 10) + [CaracterDigito(n % 10)]
  }

  /** `-` followed by the digits of the magnitude for a negative number. */
  function IntToString(i: int): (s: string)
    ensures |s| >= 1
    ensures i >= 0 ==> s == NatToString(i)
    ensures i < 0 ==> s == "-" + NatToString(-i)
  {
    if i < 0 then "-" + NatToString(-i) else NatToString(i)
  }

  /** The value of a string of decimal digits, read left to right. */
  function DigitsValue(s: string): nat
    requires SoloDigitos(s)
  {
    if s == [] then 0 else DigitsValue(s[..|s| - 1]) * 10 + ValorDigito(s[|s| - 1])
  }

  /** Reading the rendering of `n` gives `n` back. */
  lemma {:induction false} DigitsValueNatToString(n: nat)
    ensures DigitsValue(NatToString(n)) == n
    decreases n
  {
    var s := NatToString(n);
    if n >= 10 {
      DigitsValueNatToString(n / 10);
      assert s[..|s| - 1] == NatToString(n / 10);
    }
  }

  /** Distinct numbers are rendered differently. */
  lemma NatToStringInyectiva(m: nat, n: nat)
    ensures NatToString(m) == NatToString(n) <==> m == n
  {
    if NatToString(m) == NatToString(n) {
      DigitsValueNatToString(m);
      DigitsValueNatToString(n);
    }
  }
}
