/** Real vectors with their Euclidean norm, and cosine similarity. */
module Vectors {

  /** The norm is carried along as the witness of the square root. */
  datatype Vec = Vec(values: seq<real>, norm: real)

  function Dot(a: seq<real>, b: seq<real>): real
    requires |a| == |b|
  {
    if a == [] then 0.0 else Dot(a[..|a| - 1], b[..|b| - 1]) + a[|a| - 1] * b[|b| - 1]
  }

  ghost predicate IsVec(v: Vec) {
    v.norm >= 0.0 && v.norm * v.norm == Dot(v.values, v.values)
  }

  function Cosine(a: Vec, b: Vec): real
    requires |a.values| == |b.values|
  {
    if a.norm == 0.0 || b.norm == 0.0 then 0.0
    else
      NonZeroProduct(a.norm, b.norm);
      Dot(a.values, b.values) / (a.norm * b.norm)
  }

  lemma NonZeroProduct(x: real, y: real)
    requires x != 0.0 && y != 0.0
    ensures x * y != 0.0
  {
  }

  function AtLeastZero(x: real): real {
    if x > 0.0 then x else 0.0
  }

  // ------------------------------------------------------------------
  // Cauchy-Schwarz
  // ------------------------------------------------------------------

  lemma SquareIsNonNegative(x: real)
    ensures x * x >= 0.0
  {
    if x < 0.0 {
      assert x * x == (-x) * (-x);
    }
  }

  lemma LargerSquare(u: real, v: real)
    requires u > v >= 0.0
    ensures u * u > v * v
  {
    PositiveProduct(u - v, u + v);
    assert u * u - v * v == (u - v) * (u + v);
  }

  lemma PositiveProduct(x: real, y: real)
    requires x > 0.0 && y > 0.0
    ensures x * y > 0.0
  {
  }

  lemma SquareOrder(u: real, v: real)
    requires v >= 0.0 && u * u <= v * v
    ensures -v <= u <= v
  {
    if u > v {
      LargerSquare(u, v);
    }
    if -u > v {
      LargerSquare(-u, v);
    }
  }

  lemma Scaled(p: real, q: real, w: real)
    requires p <= q && w >= 0.0
    ensures p * w <= q * w
  {
  }

  /** The cross term of one more coordinate. */
  lemma CrossTerm(s: real, a: real, b: real, x: real, y: real)
    requires a >= 0.0 && b >= 0.0 && s * s <= a * b
    ensures 2.0 * s * x * y <= a * (y * y) + b * (x * x)
  {
    var u := 2.0 * s * x * y;
    var p, q := a * (y * y), b * (x * x);
    SquareIsNonNegative(x);
    SquareIsNonNegative(y);
    SquareIsNonNegative(p - q);
    var w := 4.0 * ((x * x) * (y * y));
    assert w >= 0.0;
    Scaled(s * s, a * b, w);
    assert u * u == (s * s) * w;
    assert (a * b) * w == 4.0 * p * q;
    assert (p + q) * (p + q) == (p - q) * (p - q) + 4.0 * p * q;
    SquareOrder(u, p + q);
  }

  lemma {:induction false} DotSelf(a: seq<real>)
    ensures Dot(a, a) >= 0.0
  {
    if a != [] {
      DotSelf(a[..|a| - 1]);
      SquareIsNonNegative(a[|a| - 1]);
    }
  }

  lemma {:induction false} CauchySchwarz(a: seq<real>, b: seq<real>)
    requires |a| == |b|
    ensures Dot(a, b) * Dot(a, b) <= Dot(a, a) * Dot(b, b)
  {
    if a != [] {
      var n := |a| - 1;
      var s, p, q := Dot(a[..n], b[..n]), Dot(a[..n], a[..n]), Dot(b[..n], b[..n]);
      CauchySchwarz(a[..n], b[..n]);
      DotSelf(a[..n]);
      DotSelf(b[..n]);
      CrossTerm(s, p, q, a[n], b[n]);
      Expanded(s, p, q, a[n], b[n]);
    }
  }

  lemma Expanded(s: real, p: real, q: real, x: real, y: real)
    requires s * s <= p * q && 2.0 * s * x * y <= p * (y * y) + q * (x * x)
    ensures (s + x * y) * (s + x * y) <= (p + x * x) * (q + y * y)
  {
    assert (s + x * y) * (s + x * y) == s * s + 2.0 * s * x * y + (x * y) * (x * y);
    assert (p + x * x) * (q + y * y) == p * q + p * (y * y) + q * (x * x) + (x * x) * (y * y);
    assert (x * y) * (x * y) == (x * x) * (y * y);
  }

  lemma CosineValue(a: Vec, b: Vec)
    requires |a.values| == |b.values| && a.norm != 0.0 && b.norm != 0.0
    ensures a.norm * b.norm != 0.0 && Cosine(a, b) == Dot(a.values, b.values) / (a.norm * b.norm)
  {
    hide Dot;
    NonZeroProduct(a.norm, b.norm);
  }

  /** Cosine similarity lies between -1 and 1. */
  lemma CosineBound(a: Vec, b: Vec)
    requires IsVec(a) && IsVec(b) && |a.values| == |b.values|
    ensures -1.0 <= Cosine(a, b) <= 1.0
  {
    if a.norm != 0.0 && b.norm != 0.0 {
      hide Dot, Cosine;
      CauchySchwarz(a.values, b.values);
      CosineValue(a, b);
      NormsBound(Dot(a.values, b.values), a.norm, b.norm, Dot(a.values, a.values), Dot(b.values, b.values));
    }
  }

  lemma NormsBound(d: real, x: real, y: real, p: real, q: real)
    requires x > 0.0 && y > 0.0 && x * y != 0.0 && x * x == p && y * y == q && d * d <= p * q
    ensures -1.0 <= d / (x * y) <= 1.0
  {
    assert x * y > 0.0;
    assert (x * y) * (x * y) == p * q;
    SquareOrder(d, x * y);
    Ratio(d, x * y);
  }

  lemma Ratio(d: real, m: real)
    requires m > 0.0 && -m <= d <= m
    ensures -1.0 <= d / m <= 1.0
  {
  }
}
