/** Arithmetic shared by the models. */
module Arithmetic {

  /** Multiplying by a positive number keeps the order. */
  lemma TimesMonotone(x: real, y: real, b: real)
    requires b > 0.0
    ensures x <= y <==> x * b <= y * b
  {
    if x <= y {
      assert (y - x) * b >= 0.0;
    } else {
      assert (x - y) * b > 0.0;
    }
  }

  /** The cast of x + 0.5 to an unsigned integer. */
  function Rounded(x: real): nat
    requires x >= 0.0
  {
    (x + 0.5).Floor
  }

  /** a / b rounded to the nearest integer, halves up. */
  function Nearest(a: int, b: int): int
    requires b > 0
  {
    (2 * a + b) / (2 * b)
  }

  lemma TimesAtLeastOne(b: nat, k: nat)
    requires k >= 1
    ensures b * k >= b
  {
  }

  lemma Cancel(b: nat, x: int, y: int)
    requires b > 0 && b * x <= b * y
    ensures x <= y
  {
    if x > y {
      TimesAtLeastOne(b, x - y);
    }
  }

  lemma CancelStrict(b: nat, x: int, y: int)
    requires b * x < b * y
    ensures x < y
  {
    if x > y {
      TimesAtLeastOne(b, x - y);
    }
  }

  lemma NearestIs(a: nat, b: nat, q: nat)
    requires b > 0
    ensures q == Nearest(a, b) <==> 2 * b * q <= 2 * a + b < 2 * b * q + 2 * b
  {
    var n := Nearest(a, b);
    assert 2 * a + b == 2 * b * n + (2 * a + b) % (2 * b);
    if q < n {
      TimesAtLeastOne(2 * b, n - q);
    } else if q > n {
      TimesAtLeastOne(2 * b, q - n);
    }
  }

  /** Rounding the quotient of two integers. */
  lemma RoundedQuotient(x: real, a: nat, b: nat)
    requires b > 0 && x >= 0.0 && x * b as real == a as real
    ensures Rounded(x) == Nearest(a, b)
  {
    var q := Rounded(x);
    TimesMonotone(q as real, x + 0.5, b as real);
    TimesMonotone(q as real + 1.0, x + 0.5, b as real);
    ScaledBounds(x, a, b, q);
    NearestIs(a, b, q);
  }

  lemma Distribute(x: real, y: real, b: real)
    ensures (x + y) * b == x * b + y * b
  {
  }

  lemma ProductOfReals(q: nat, b: nat)
    ensures q as real * b as real == (q * b) as real
  {
  }

  lemma ScaledBounds(x: real, a: nat, b: nat, q: nat)
    requires x * b as real == a as real
    requires q as real * b as real <= (x + 0.5) * b as real < (q as real + 1.0) * b as real
    ensures 2 * b * q <= 2 * a + b < 2 * b * q + 2 * b
  {
    Distribute(x, 0.5, b as real);
    Distribute(q as real, 1.0, b as real);
    ProductOfReals(q, b);
    InIntegers(a, b, q * b);
    assert 2 * b * q == 2 * (q * b);
  }

  lemma InIntegers(a: nat, b: nat, p: nat)
    requires p as real <= a as real + 0.5 * b as real < p as real + b as real
    ensures 2 * p <= 2 * a + b < 2 * p + 2 * b
  {
  }

  lemma NearestBounded(a: nat, b: nat, limit: nat)
    requires b > 0 && a <= b * limit
    ensures Nearest(a, b) <= limit
  {
    var n := Nearest(a, b);
    NearestIs(a, b, n);
    if n > limit {
      TimesAtLeastOne(2 * b, n - limit);
    }
  }

  function Quotient(a: nat, b: nat): (x: real)
    requires b > 0
    ensures x >= 0.0
  {
    a as real / b as real
  }

  lemma QuotientTimes(a: nat, b: nat)
    requires b > 0
    ensures Quotient(a, b) * b as real == a as real
  {
  }
}
