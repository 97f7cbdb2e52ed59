/** Facts about multiplication and division of exact rationals that the solver does not find alone. */
module Rationals {

  lemma MulCancel(x: real, y: real, b: real)
    requires b != 0.0 && x * b == y * b
    ensures x == y
  {
    assert (x - y) * b == 0.0;
  }

  lemma DivMulCancel(a: real, b: real)
    requires b != 0.0
    ensures a * b / b == a && b * a / b == a && a / b * b == a
  {
    assert (a * b / b) * b == a * b;
    MulCancel(a * b / b, a, b);
  }

  lemma MulMono(a: real, b: real, c: real)
    requires a <= b && c >= 0.0
    ensures a * c <= b * c && c * a <= c * b
  {
    assert (b - a) * c >= 0.0;
  }

  lemma MulStrict(a: real, b: real, c: real)
    requires a < b && c > 0.0
    ensures a * c < b * c
  {
    assert (b - a) * c > 0.0;
  }

  lemma AddLe(a: real, b: real, c: real, d: real)
    requires a <= b && c <= d
    ensures a + c <= b + d
  {
  }

  lemma MulPos(a: real, b: real)
    requires a > 0.0 && b > 0.0
    ensures a * b > 0.0
  {
  }

  lemma NegTimesPos(x: real, c: real)
    requires x < 0.0 && c > 0.0
    ensures x * c < 0.0
  {
  }

  lemma DivMono(a: real, b: real, c: real)
    requires a <= b && c > 0.0
    ensures a / c <= b / c
  {
    DivMulCancel(a, c);
    DivMulCancel(b, c);
    var d := b / c - a / c;
    assert d * c == b - a;
    if d < 0.0 { NegTimesPos(d, c); }
  }

  lemma DivPos(a: real, c: real)
    requires a > 0.0 && c > 0.0
    ensures a / c > 0.0
  {
    DivMulCancel(a, c);
    if a / c <= 0.0 {
      MulMono(a / c, 0.0, c);
    }
  }

  lemma DivNonNeg(a: real, c: real)
    requires a >= 0.0 && c > 0.0
    ensures a / c >= 0.0
  {
    if a > 0.0 { DivPos(a, c); }
  }

  /** `a / b <= c` exactly when `a <= c * b`, for a positive `b`. */
  lemma DivLe(a: real, b: real, c: real)
    requires b > 0.0
    ensures a / b <= c <==> a <= c * b
  {
    DivMulCancel(a, b);
    DivMulCancel(c, b);
    if a / b <= c { MulMono(a / b, c, b); }
    if a <= c * b { DivMono(a, c * b, b); }
  }

  /** `a / b < c` when `a < c * b`, for a positive `b`. */
  lemma DivLt(a: real, b: real, c: real)
    requires b > 0.0 && a < c * b
    ensures a / b < c
  {
    DivLe(a, b, c);
    DivMulCancel(a, b);
  }

  /** `c <= a / b` exactly when `c * b <= a`, for a positive `b`. */
  lemma LeDiv(a: real, b: real, c: real)
    requires b > 0.0
    ensures c <= a / b <==> c * b <= a
  {
    DivMulCancel(a, b);
    DivMulCancel(c, b);
    if c <= a / b { MulMono(c, a / b, b); }
    if c * b <= a { DivMono(c * b, a, b); }
  }

  lemma DivAdd(a: real, b: real, d: real)
    requires d != 0.0
    ensures (a + b) / d == a / d + b / d
  {
    DivMulCancel(a, d);
    DivMulCancel(b, d);
    DivMulCancel(a + b, d);
    assert (a / d + b / d) * d == a + b;
    MulCancel((a + b) / d, a / d + b / d, d);
  }

  lemma DivSub(a: real, b: real, d: real)
    requires d != 0.0
    ensures (a - b) / d == a / d - b / d
  {
    DivAdd(a - b, b, d);
  }

  /** The rule of three: `a` scaled by the ratio `b / c`. */
  function Scale(a: real, b: real, c: real): real
    requires c != 0.0
  {
    a * b / c
  }

  lemma ScaleCancel(a: real, b: real, c: real)
    requires c != 0.0
    ensures Scale(a, b, c) * c == a * b
  {
    DivMulCancel(a * b, c);
  }

  lemma ScalePos(a: real, b: real, c: real)
    requires a > 0.0 && b > 0.0 && c > 0.0
    ensures Scale(a, b, c) > 0.0
  {
    MulPos(a, b);
    DivPos(a * b, c);
  }

  /** `Scale(a, b, c) <= d` exactly when `a * b <= d * c`, for a positive `c`. */
  lemma ScaleLe(a: real, b: real, c: real, d: real)
    requires c > 0.0
    ensures Scale(a, b, c) <= d <==> a * b <= d * c
  {
    DivLe(a * b, c, d);
  }

  /** `d <= Scale(a, b, c)` exactly when `d * c <= a * b`, for a positive `c`. */
  lemma LeScale(a: real, b: real, c: real, d: real)
    requires c > 0.0
    ensures d <= Scale(a, b, c) <==> d * c <= a * b
  {
    LeDiv(a * b, c, d);
  }

  /** Scaling by a ratio in `0..1` gives a value in `0..a`. */
  lemma ScaleBounded(a: real, b: real, c: real)
    requires c > 0.0 && 0.0 <= b <= c && a >= 0.0
    ensures 0.0 <= Scale(a, b, c) <= a
  {
    MulMono(b, c, a);
    MulMono(0.0, b, a);
    ScaleLe(a, b, c, a);
    DivNonNeg(a * b, c);
  }

  /** Two values with the same product by a non-zero `c` are equal. */
  lemma ScaleUnique(x: real, a: real, b: real, c: real)
    requires c != 0.0 && x * c == a * b
    ensures x == Scale(a, b, c)
  {
    ScaleCancel(a, b, c);
    MulCancel(x, Scale(a, b, c), c);
  }

  lemma ConvexBelow(p: real, q: real, m: real, z: real)
    requires p <= m && q <= m && 0.0 <= z <= 1.0
    ensures p * z + q * (1.0 - z) <= m
  {
    MulMono(p, m, z);
    MulMono(q, m, 1.0 - z);
    AddLe(p * z, m * z, q * (1.0 - z), m * (1.0 - z));
    assert m * z + m * (1.0 - z) == m;
  }

  lemma ConvexPositive(p: real, q: real, z: real)
    requires p > 0.0 && q > 0.0 && 0.0 <= z <= 1.0
    ensures p * z + q * (1.0 - z) > 0.0
  {
    MulMono(0.0, p, z);
    if z < 1.0 {
      MulPos(q, 1.0 - z);
    } else {
      assert p * z == p;
    }
  }

  lemma ConvexNonNegative(p: real, q: real, z: real)
    requires p >= 0.0 && q >= 0.0 && 0.0 <= z <= 1.0
    ensures p * z + q * (1.0 - z) >= 0.0
  {
    MulMono(0.0, p, z);
    MulMono(0.0, q, 1.0 - z);
    AddLe(0.0 * z, p * z, 0.0 * (1.0 - z), q * (1.0 - z));
  }
}
