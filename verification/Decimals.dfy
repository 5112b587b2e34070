/** Integers as the decimal text JavaScript prints for them. */
module Decimals {

  function Digit(d: int): char
    requires 0 <= d < 10
  {
    "0123456789"[d]
  }

  function Natural(n: nat): (s: string)
    ensures |s| >= 1 && (|s| == 1 <==> n < 10)
    ensures forall i :: 0 <= i < |s| ==> '0' <= s[i] <= '9'
  {
    if n < 10 then [Digit(n)] else Natural(n / 10) + [Digit(n % 10)]
  }

  function Decimal(n: int): (s: string)
    ensures |s| >= 1 && (n < 0 <==> s[0] == '-')
    ensures forall i :: 0 <= i < |s| ==> s[i] < 128 as char
  {
    if n < 0 then "-" + Natural(-n) else Natural(n)
  }

  lemma {:induction false} NaturalInjective(a: nat, b: nat)
    requires Natural(a) == Natural(b)
    ensures a == b
  {
    var s := Natural(a);
    assert Digit(a % 10) == s[|s| - 1] == Digit(b % 10);
    if a >= 10 && b >= 10 {
      assert Natural(a / 10) == s[..|s| - 1] == Natural(b / 10);
      NaturalInjective(a / 10, b / 10);
    }
  }

  lemma DecimalInjective(a: int, b: int)
    requires Decimal(a) == Decimal(b)
    ensures a == b
  {
    hide Natural;
    if a < 0 && b < 0 {
      assert Natural(-a) == Decimal(a)[1..] == Decimal(b)[1..] == Natural(-b);
      NaturalInjective(-a, -b);
    } else if a >= 0 && b >= 0 {
      NaturalInjective(a, b);
    }
  }
}
