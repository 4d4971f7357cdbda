/** Facts about products and quotients of amounts, kept behind names so that proofs need not multiply out. */
module Quotients {
  import opened Sums

  function Quotient(a: real, b: real): real
    requires b != 0.0
  {
    a / b
  }

  lemma QuotientTimes(a: real, b: real)
    requires b != 0.0
    ensures Times(Quotient(a, b), b) == a
  {
  }

  lemma SignOfProduct(x: real, c: real)
    requires c > 0.0
    ensures x > 0.0 <==> x * c > 0.0
    ensures x >= 0.0 <==> x * c >= 0.0
  {
  }

  lemma QuotientSign(a: real, b: real)
    requires b > 0.0
    ensures a > 0.0 ==> Quotient(a, b) > 0.0
    ensures a >= 0.0 ==> Quotient(a, b) >= 0.0
  {
  }

  lemma TimesOrder(a: real, b: real, c: real)
    requires c > 0.0
    ensures a < b <==> Times(a, c) < Times(b, c)
    ensures a == b <==> Times(a, c) == Times(b, c)
  {
    assert Times(b, c) - Times(a, c) == (b - a) * c;
    SignOfProduct(b - a, c);
    SignOfProduct(a - b, c);
  }

  lemma QuotientOrder(a: real, b: real, d: real)
    requires d > 0.0
    ensures a <= b <==> Quotient(a, d) <= Quotient(b, d)
  {
    QuotientTimes(a, d);
    QuotientTimes(b, d);
    TimesOrder(Quotient(b, d), Quotient(a, d), d);
  }

  lemma QuotientBelow(a: real, b: real, r: real)
    requires b > 0.0
    ensures Quotient(a, b) < r <==> a < Times(r, b)
  {
    QuotientTimes(a, b);
    TimesOrder(Quotient(a, b), r, b);
  }
}
