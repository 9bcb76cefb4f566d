/** Small facts of real arithmetic, each proved on its own so that the
    solver meets products and quotients only one step at a time. */
module RealArith {

  lemma MulPos(x: real, y: real)
    requires x > 0.0 && y > 0.0
    ensures x * y > 0.0
  {
  }

  lemma MulNonneg(x: real, y: real)
    requires x >= 0.0 && y >= 0.0
    ensures x * y >= 0.0
  {
  }

  lemma DivCancel(x: real, y: real)
    requires y != 0.0
    ensures (x / y) * y == x
  {
  }

  /** A quotient is the one number that gives back the dividend. */
  lemma DivUnique(x: real, y: real, z: real)
    requires y != 0.0 && z * y == x
    ensures x / y == z
  {
  }

  /** A common non-zero factor cancels. */
  lemma MulCancel(u: real, v: real, p: real)
    requires p != 0.0 && u * p == v * p
    ensures u == v
  {
    assert (u - v) * p == u * p - v * p;
  }

  /** A common positive factor keeps the order. */
  lemma MulCompare(u: real, v: real, p: real)
    requires p > 0.0 && u * p <= v * p
    ensures u <= v
  {
    assert (u - v) * p == u * p - v * p;
    if u > v {
      MulPos(u - v, p);
    }
  }

  /** Dividing a non-negative number by one at least 1. */
  lemma DivAtLeastOne(x: real, m: real)
    requires x >= 0.0 && m >= 1.0
    ensures 0.0 <= x / m <= x
    ensures x > 0.0 ==> x / m > 0.0
  {
    DivCancel(x, m);
  }

  /** The sign of a quotient by a positive divisor. */
  lemma DivSign(x: real, y: real)
    requires y > 0.0
    ensures x >= 0.0 <==> x / y >= 0.0
    ensures x == 0.0 ==> x / y == 0.0
    ensures x > 0.0 <==> x / y > 0.0
  {
    DivCancel(x, y);
    if x / y < 0.0 {
      assert (x / y) * y < 0.0;
    }
    if x / y >= 0.0 {
      MulNonneg(x / y, y);
    }
  }
}
