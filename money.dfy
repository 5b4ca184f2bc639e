/** Monetary amounts as integer cents, and the two-decimal rounding the
    payment code applies with `toFixed(2)`. */
module Money {

  /** Rounds the rational n / d to the nearest integer, halves upward.
      With n / d measured in cents this is `toFixed(2)` on a non-negative
      amount in euros. */
  function RoundHalfUp(n: int, d: int): (r: int)
    requires d > 0
    ensures 2 * n - d < 2 * r * d <= 2 * n + d
  {
    var r := (2 * n + d) / (2 * d);
    assert 2 * n + d == r * (2 * d) + (2 * n + d) % (2 * d);
    assert 2 * r * d == r * (2 * d);
    r
  }

  /** The bounds in RoundHalfUp's contract determine its result. */
  lemma RoundHalfUpUnique(n: int, d: int, r: int)
    requires d > 0
    requires 2 * n - d < 2 * r * d <= 2 * n + d
    ensures r == RoundHalfUp(n, d)
  {
    var q := RoundHalfUp(n, d);
    MulStep(r, q, 2 * d);
    MulStep(q, r, 2 * d);
    assert 2 * r * d == r * (2 * d) && 2 * q * d == q * (2 * d);
  }

  /** Rounding a quotient that lies between two integers stays between them. */
  lemma RoundHalfUpBetween(n: int, d: int, lo: int, hi: int)
    requires d > 0
    requires lo * d <= n <= hi * d
    ensures lo <= RoundHalfUp(n, d) <= hi
  {
    var r := RoundHalfUp(n, d);
    MulStep(r, lo, 2 * d);
    MulStep(hi, r, 2 * d);
    assert 2 * r * d == r * (2 * d);
    assert lo * (2 * d) == 2 * (lo * d) && hi * (2 * d) == 2 * (hi * d);
  }

  lemma MulMonotone(a: int, b: int, c: int)
    requires a <= b && c >= 0
    ensures a * c <= b * c
  {
    assert b * c - a * c == (b - a) * c;
  }

  /** One step up in a factor adds at least the other factor. */
  lemma MulStep(a: int, b: int, c: int)
    requires c >= 0
    ensures a < b ==> a * c + c <= b * c
  {
    assert b * c - a * c - c == (b - a - 1) * c;
    if a < b {
      assert (b - a - 1) * c >= 0;
    }
  }

  /** The fixed tax rate applied to every product, in percent. */
  const TaxRatePercent: int := 7

  /** Tax on one unit of a product priced `price` cents: the price times
      0.07, rounded to the cent. */
  function ProductTax(price: int): (t: int)
    ensures 2 * TaxRatePercent * price - 100 < 200 * t <= 2 * TaxRatePercent * price + 100
  {
    RoundHalfUp(TaxRatePercent * price, 100)
  }

  /** The tax on a non-negative price is non-negative and never exceeds the
      price, so the net unit amount is never negative. */
  lemma ProductTaxBounds(price: int)
    requires price >= 0
    ensures 0 <= ProductTax(price) <= price
  {
    assert 0 * 100 <= TaxRatePercent * price <= price * 100;
    RoundHalfUpBetween(TaxRatePercent * price, 100, 0, price);
  }

  /** Taxing the unit price and multiplying by the quantity is not the same
      as taxing the extended price: ten units at 0.05 carry no tax, while
      0.50 carries 0.04. */
  lemma UnitTaxDiffersFromExtendedTax()
    ensures ProductTax(5) * 10 == 0
    ensures ProductTax(5 * 10) == 4
  {
  }
}
