/** Facts about real multiplication and division that the solver needs one at a time. */
module Reals {

  /** Python's int(): towards zero. */
  function Truncate(x: real): int {
    if x >= 0.0 then x.Floor else -((-x).Floor)
  }

  lemma DivMul(a: real, b: real)
    requires b != 0.0
    ensures (a / b) * b == a
    ensures b * (a / b) == a
  {}

  lemma Cross(q: real, r: real, p: real, m: real)
    requires r != 0.0
    ensures (q * r) * (p / r) == q * p
    ensures (q * r) * (p / r) * m == q * p * m
  {
    calc {
      (q * r) * (p / r);
      q * (r * (p / r));
      { DivMul(p, r); }
      q * p;
    }
  }

  lemma DivMonotone(a: real, b: real, r: real)
    requires r > 0.0 && a <= b
    ensures a / r <= b / r
  {}

  lemma DivPositive(a: real, r: real)
    requires a > 0.0 && r > 0.0
    ensures a / r > 0.0
    ensures a / r == a ==> r == 1.0
  {
    var q := a / r;
    DivMul(a, r);
    if q == a {
      assert q * r == a * r;
      assert a * (r - 1.0) == 0.0;
    }
  }

  lemma RatioCancels(a: real, b: real, r: real)
    requires b != 0.0 && r != 0.0
    ensures b * r != 0.0 && (a * r) / (b * r) == a / b
  {
    DivDiv(a * r, r, b);
    assert r * b == b * r;
    assert (a * r) / r == a;
  }

  lemma DivInverse(a: real, r: real)
    requires r != 0.0
    ensures (a / r) / (1.0 / r) == a
  {
    var back := 1.0 / r;
    assert back * r == 1.0 by { DivMul(1.0, r); }
    assert a * back == (a / r) by {
      assert a * back == ((a / r) * r) * back;
    }
  }

  lemma DivDiv(a: real, b: real, c: real)
    requires b != 0.0 && c != 0.0
    ensures b * c != 0.0 && a / (b * c) == (a / b) / c
  {
    var q := (a / b) / c;
    assert q * c == a / b by { DivMul(a / b, c); }
    assert q * (b * c) == (q * c) * b;
    assert q * (b * c) == a by { DivMul(a, b); }
  }

  lemma ScaledDifference(a: real, b: real, q: real, r: real, m: real)
    requires r != 0.0
    ensures (a / r - b / r) * (q * r) * m == (a - b) * q * m
  {
    Cross(q, r, a, m);
    Cross(q, r, b, m);
    assert (a / r - b / r) * (q * r) * m == (q * r) * (a / r) * m - (q * r) * (b / r) * m;
  }

  lemma ProductNonNegative(x: real, y: real)
    requires x >= 0.0 && y >= 0.0
    ensures x * y >= 0.0
  {}

  lemma SignOfProduct(x: real, y: real)
    requires y > 0.0 && x * y >= 0.0
    ensures x >= 0.0
  {}

  lemma InverseOf(x: real)
    requires x != 0.0
    ensures x > 0.0 <==> 1.0 / x > 0.0
    ensures x > 0.0 ==> (1.0 / x >= 1.0 <==> x <= 1.0)
  {
    var inverse := 1.0 / x;
    DivMul(1.0, x);
    assert inverse * x == 1.0;
    if x > 0.0 {
      SignOfProduct(inverse, x);
      assert (inverse - 1.0) * x == 1.0 - x;
      if inverse >= 1.0 { ProductNonNegative(inverse - 1.0, x); }
      if x <= 1.0 { SignOfProduct(inverse - 1.0, x); }
    } else {
      assert (-inverse) * (-x) == 1.0;
      SignOfProduct(-inverse, -x);
    }
  }

  lemma Cancel(x: real, y: real, a: real)
    requires a != 0.0 && x * a == y * a
    ensures x == y
  {
    assert (x - y) * a == 0.0;
  }

  lemma FractionLost(a: real, low: real)
    requires a != 0.0
    ensures (a - low) / a == 1.0 - low / a
  {
    DivMul(low, a);
    DivMul(a - low, a);
    Cancel((a - low) / a, 1.0 - low / a, a);
  }

  lemma DivAntitone(low: real, a: real, b: real)
    requires 0.0 < a <= b && low >= 0.0
    ensures low / b <= low / a
  {
    var x, y := low / a, low / b;
    DivMul(low, a);
    DivMul(low, b);
    SignOfProduct(y, b);
    ProductNonNegative(y, b - a);
    assert (x - y) * a == y * (b - a);
    SignOfProduct(x - y, a);
  }

  lemma ProductPositive(x: real, y: real)
    requires x > 0.0 && y > 0.0
    ensures x * y > 0.0
  {}

  /** A quotient exceeds a bound exactly when the numerator exceeds the bound's share. */
  lemma RatioAbove(a: real, b: real, bound: real)
    requires b > 0.0
    ensures a / b > bound <==> a > bound * b
  {
    var q := a / b;
    DivMul(a, b);
    assert (q - bound) * b == a - bound * b;
    if q > bound {
      ProductPositive(q - bound, b);
    } else {
      ProductNonNegative(bound - q, b);
      assert (bound - q) * b == bound * b - a;
    }
  }
}
