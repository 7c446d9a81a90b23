/** Integer rating: a quantity times a price per so many units, rounded to the nearest minor unit. */
module Rating {
  import opened Int64

  datatype Price = Price(minorUnits: int, perQuantity: int) {
    predicate Valid() {
      minorUnits >= 0 && perQuantity > 0
    }
  }

  datatype Error = InvalidArgument | Overflow

  datatype Rated = Amount(value: int) | Failed(error: Error)

  function Abs(x: int): nat {
    if x < 0 then -x else x
  }

  /** r is the integer nearest to n / d, and the one further from zero when two are equally near. */
  predicate IsNearest(r: int, n: int, d: int)
    requires d > 0
  {
    && 2 * Abs(r * d - n) <= d
    && (2 * Abs(r * d - n) == d ==> Abs(r * d) > Abs(n))
  }

  /** Magnitude plus half a divisor, truncated, with the sign put back. */
  function Round(n: int, d: int): (r: int)
    requires d > 0
    ensures IsNearest(r, n, d)
  {
    var q := (Abs(n) + d / 2) / d;
    RoundMagnitude(Abs(n), d);
    var r := if n < 0 then -q else q;
    SignedMagnitude(n, d, q);
    r
  }

  lemma RoundMagnitude(m: nat, d: int)
    requires d > 0
    ensures var q := (m + d / 2) / d; q >= 0 && m - d < 2 * q * d - m <= m + d
    ensures var q := (m + d / 2) / d; -d < 2 * (q * d - m) <= d
  {
    var h := d / 2;
    var q := (m + h) / d;
    assert q * d + (m + h) % d == m + h;
    assert d - 1 <= 2 * h <= d;
  }

  lemma SignedMagnitude(n: int, d: int, q: int)
    requires d > 0 && q >= 0 && -d < 2 * (q * d - Abs(n)) <= d
    ensures IsNearest(if n < 0 then -q else q, n, d)
  {
    assert (-q) * d == -(q * d);
    assert q * d >= 0;
  }

  /** Rating one quantity: out of range exactly when the nearest amount is. */
  function RateQuantity(quantity: int, price: Price): (r: Rated)
    ensures !price.Valid() ==> r == Failed(InvalidArgument)
    ensures r.Amount? ==> price.Valid() && Fits(r.value) && IsNearest(r.value, quantity * price.minorUnits, price.perQuantity)
    ensures price.Valid() && r.Failed? ==> r.error == Overflow
    ensures price.Valid() && r.Failed? ==> forall a: int | IsNearest(a, quantity * price.minorUnits, price.perQuantity) :: !Fits(a)
  {
    if !price.Valid() then Failed(InvalidArgument)
    else
      var r := Round(quantity * price.minorUnits, price.perQuantity);
      if Fits(r) then Amount(r)
      else
        assert forall a: int | IsNearest(a, quantity * price.minorUnits, price.perQuantity) :: !Fits(a) by {
          forall a: int | IsNearest(a, quantity * price.minorUnits, price.perQuantity) ensures a == r {
            NearestUnique(a, r, quantity * price.minorUnits, price.perQuantity);
          }
        }
        Failed(Overflow)
  }

  /** Rounding is monotone. */
  lemma NearestMonotone(a: int, n: int, b: int, m: int, d: int)
    requires d > 0 && IsNearest(a, n, d) && IsNearest(b, m, d) && n <= m
    ensures a <= b
  {
    var x, y := a * d, b * d;
    assert b >= 0 ==> y >= 0 by { if b >= 0 { Product(b, d); } }
    assert a <= 0 ==> x <= 0 by { if a <= 0 { Product(-a, d); assert (-a) * d == -x; } }
    if a > b {
      Gap(a, b, d);
    }
  }

  lemma Gap(a: int, b: int, d: int)
    requires d > 0 && a > b
    ensures a * d - b * d >= d
    ensures a > b + 1 ==> a * d - b * d >= 2 * d
  {
    assert a * d - b * d == d + (a - b - 1) * d;
    Product(a - b - 1, d);
    if a > b + 1 {
      Product(a - b - 2, d);
      assert a * d - b * d == 2 * d + (a - b - 2) * d;
    }
  }

  lemma Product(a: nat, b: nat)
    ensures a * b >= 0
  {}

  /** Rounding half away from zero leaves exactly one nearest integer. */
  lemma NearestUnique(a: int, b: int, n: int, d: int)
    requires d > 0 && IsNearest(a, n, d) && IsNearest(b, n, d)
    ensures a == b
  {
    NearestMonotone(a, n, b, n, d);
    NearestMonotone(b, n, a, n, d);
  }

  lemma RoundOdd(n: int, d: int)
    requires d > 0
    ensures Round(-n, d) == -Round(n, d)
  {
    assert (-Round(n, d)) * d == -(Round(n, d) * d);
    NearestUnique(Round(-n, d), -Round(n, d), -n, d);
  }

  /** A credit is rated as the exact negative of the same charge, whenever both amounts are in range. */
  lemma RateOdd(quantity: int, price: Price)
    requires RateQuantity(quantity, price).Amount? && RateQuantity(-quantity, price).Amount?
    ensures RateQuantity(-quantity, price).value == -RateQuantity(quantity, price).value
  {
    assert (-quantity) * price.minorUnits == -(quantity * price.minorUnits);
    RoundOdd(quantity * price.minorUnits, price.perQuantity);
  }

  lemma Dearer(q: int, p: int, m: int)
    requires q <= p && m >= 0
    ensures q * m <= p * m
  {
    Product(p - q, m);
    assert (p - q) * m == p * m - q * m;
  }

  /** More usage never costs less. */
  lemma RateMonotone(q: int, p: int, price: Price)
    requires q <= p && RateQuantity(q, price).Amount? && RateQuantity(p, price).Amount?
    ensures RateQuantity(q, price).value <= RateQuantity(p, price).value
  {
    hide RateQuantity, IsNearest;
    Dearer(q, p, price.minorUnits);
    NearestMonotone(RateQuantity(q, price).value, q * price.minorUnits,
      RateQuantity(p, price).value, p * price.minorUnits, price.perQuantity);
  }

  /** Rating one more line on its own adds at most half a unit to the distance from the exact price. */
  lemma OneMoreLine(a: int, q: int, n: nat, amount: int, quantity: int, d: int, m: int)
    requires d > 0 && IsNearest(amount, quantity * m, d)
    requires 2 * Abs(a * d - q * m) <= n * d
    ensures 2 * Abs((a + amount) * d - (q + quantity) * m) <= (n + 1) * d
  {
    assert (a + amount) * d == a * d + amount * d;
    assert (q + quantity) * m == q * m + quantity * m;
    assert (n + 1) * d == n * d + d;
  }
}
