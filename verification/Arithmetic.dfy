/** Facts about products and quotients of reals, each proved apart from the facts it would slow down. */
module Arithmetic {

  function Times(x: real, y: real): real {
    x * y
  }

  function Min(x: real, y: real): real {
    if x <= y then x else y
  }

  lemma NonNegativeProduct(x: real, y: real)
    requires x >= 0.0 && y >= 0.0
    ensures Times(x, y) >= 0.0
  {
  }

  lemma ProductMonotone(x: real, y: real, z: real)
    requires x <= y && z >= 0.0
    ensures Times(x, z) <= Times(y, z) && Times(z, x) <= Times(z, y)
  {
    NonNegativeProduct(y - x, z);
    assert (y - x) * z == y * z - x * z;
  }

  lemma ScaledBound(x: real, bound: real, z: real)
    requires -bound <= x <= bound && z >= 0.0
    ensures -Times(bound, z) <= Times(x, z) <= Times(bound, z)
  {
    ProductMonotone(x, bound, z);
    ProductMonotone(-bound, x, z);
  }

  lemma QuotientTimes(x: real, y: real)
    requires y != 0.0
    ensures Times(x / y, y) == x
  {
  }

  lemma ProductStrict(x: real, y: real, z: real)
    requires x < y && z > 0.0
    ensures Times(x, z) < Times(y, z)
  {
    assert (y - x) * z > 0.0;
    assert (y - x) * z == y * z - x * z;
  }

  lemma QuotientIs(x: real, y: real, q: real)
    requires y != 0.0 && x == Times(q, y)
    ensures x / y == q
  {
  }

  lemma TimesAdds(k: real, x: real, y: real)
    ensures Times(k, x + y) == Times(k, x) + Times(k, y)
  {
  }

  lemma TimesAddsLeft(x: real, y: real, k: real)
    ensures Times(x + y, k) == Times(x, k) + Times(y, k)
  {
  }

  lemma TimesNegates(x: real, y: real)
    ensures Times(-x, y) == Times(x, -y) == -Times(x, y)
  {
  }

  lemma RatioAtMost(x: real, y: real, q: real)
    requires y > 0.0
    ensures x / y <= q <==> x <= Times(y, q)
  {
    QuotientTimes(x, y);
    if x / y <= q {
      ProductMonotone(x / y, q, y);
    } else {
      ProductStrict(q, x / y, y);
    }
  }

  lemma RatioAtLeast(x: real, y: real, q: real)
    requires y > 0.0
    ensures x / y >= q <==> x >= Times(y, q)
  {
    QuotientTimes(x, y);
    if x / y >= q {
      ProductMonotone(q, x / y, y);
    } else {
      ProductStrict(x / y, q, y);
    }
  }
}
