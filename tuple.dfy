/** Four-component spatial tuples. By convention w is 1 for a point and 0 for
    a free vector; the general constructor `Tuple(x, y, z, w)` (the source's
    `Tuple::new`) accepts any w, and addition does not check it.

    The source caches `magnitude = sqrt(x² + y² + z² + w²)` at construction.
    Reals have no square root here, so the model keeps no cached field and
    describes a magnitude relationally with IsMagnitude. */
module Tuples {
  import opened Utils

  datatype Tuple = Tuple(x: real, y: real, z: real, w: real)

  predicate IsPoint(t: Tuple) { t.w == 1.0 }

  predicate IsVector(t: Tuple) { t.w == 0.0 }

  /** `Tuple::point`. */
  function Point(x: real, y: real, z: real): (t: Tuple)
    ensures IsPoint(t) && t.x == x && t.y == y && t.z == z
  {
    Tuple(x, y, z, 1.0)
  }

  /** `Tuple::vector`. */
  function Vector(x: real, y: real, z: real): (t: Tuple)
    ensures IsVector(t) && t.x == x && t.y == y && t.z == z
  {
    Tuple(x, y, z, 0.0)
  }

  /** `a + b`: component-wise over all four fields, w included. */
  function Add(a: Tuple, b: Tuple): Tuple
  {
    Tuple(a.x + b.x, a.y + b.y, a.z + b.z, a.w + b.w)
  }

  /** `-a`: all four components negated. */
  function Neg(a: Tuple): Tuple
  {
    Tuple(-a.x, -a.y, -a.z, -a.w)
  }

  /** `a - b`, which the source defines as `a + -b`. */
  function Sub(a: Tuple, b: Tuple): (t: Tuple)
    ensures t.x == a.x - b.x && t.y == a.y - b.y && t.z == a.z - b.z && t.w == a.w - b.w
  {
    Add(a, Neg(b))
  }

  /** `a * s`: all four components multiplied by the scalar. */
  function Scale(a: Tuple, s: real): Tuple
  {
    Tuple(a.x * s, a.y * s, a.z * s, a.w * s)
  }

  /** `a / s`, which the source defines as `a * (1 / s)`. */
  function Div(a: Tuple, s: real): (t: Tuple)
    requires s != 0.0
    ensures t.x * s == a.x && t.y * s == a.y && t.z * s == a.z && t.w * s == a.w
  {
    Scale(a, 1.0 / s)
  }

  /** `PartialEq`: all four components approximately equal. */
  predicate Equal(a: Tuple, b: Tuple)
  {
    ApproxEq(a.x, b.x) && ApproxEq(a.y, b.y) && ApproxEq(a.z, b.z) && ApproxEq(a.w, b.w)
  }

  /** The square of the magnitude the source caches. */
  function MagnitudeSquared(t: Tuple): (m2: real)
    ensures m2 >= 0.0
    ensures m2 == 0.0 <==> t == Tuple(0.0, 0.0, 0.0, 0.0)
  {
    SquareNonNegative(t.x);
    SquareNonNegative(t.y);
    SquareNonNegative(t.z);
    SquareNonNegative(t.w);
    t.x * t.x + t.y * t.y + t.z * t.z + t.w * t.w
  }

  lemma SquareNonNegative(a: real)
    ensures a * a >= 0.0
    ensures a * a == 0.0 ==> a == 0.0
  {
    if a < 0.0 {
      assert a * a == (-a) * (-a);
    }
    if a * a == 0.0 {
      ProductZero(a, a);
    }
  }

  lemma ProductZero(a: real, b: real)
    requires a * b == 0.0
    ensures a == 0.0 || b == 0.0
  {
    if a != 0.0 {
      assert b == (a * b) / a;
    }
  }

  /** m is the magnitude of t: the non-negative square root of the sum of
      the squares of its four components. */
  predicate IsMagnitude(t: Tuple, m: real)
  {
    m >= 0.0 && m * m == MagnitudeSquared(t)
  }

  /** `normalize`, given the magnitude m the source has cached in t: every
      component divided by m. A zero magnitude is excluded (the source then
      produces NaN components). */
  function Normalize(t: Tuple, m: real): (u: Tuple)
    requires IsMagnitude(t, m) && m != 0.0
    ensures u.x * m == t.x && u.y * m == t.y && u.z * m == t.z && u.w * m == t.w
  {
    Tuple(t.x / m, t.y / m, t.z / m, t.w / m)
  }

  /** `dot`: panics unless both operands are vectors; then the sum of the
      pairwise products, in which the w term vanishes. */
  function Dot(a: Tuple, b: Tuple): (d: real)
    requires IsVector(a) && IsVector(b)
    ensures d == a.x * b.x + a.y * b.y + a.z * b.z
  {
    a.x * b.x + a.y * b.y + a.z * b.z + a.w * b.w
  }

  /** `cross`: panics unless both operands are vectors; returns a vector. */
  function Cross(a: Tuple, b: Tuple): (c: Tuple)
    requires IsVector(a) && IsVector(b)
    ensures IsVector(c)
  {
    Vector(a.y * b.z - a.z * b.y,
           a.z * b.x - a.x * b.z,
           a.x * b.y - a.y * b.x)
  }

  // ---- addition, negation and subtraction ----

  lemma AddCommutative(a: Tuple, b: Tuple)
    ensures Add(a, b) == Add(b, a)
  {
  }

  lemma AddAssociative(a: Tuple, b: Tuple, c: Tuple)
    ensures Add(Add(a, b), c) == Add(a, Add(b, c))
  {
  }

  /** How addition and subtraction combine points and vectors: a point moved
      by a vector is a point, the difference of two points is a vector, and
      the sum of two points has w = 2 without being rejected. */
  lemma PointVectorArithmetic(p: Tuple, q: Tuple, v: Tuple, u: Tuple)
    requires IsPoint(p) && IsPoint(q) && IsVector(v) && IsVector(u)
    ensures IsPoint(Add(p, v)) && IsPoint(Sub(p, v))
    ensures IsVector(Sub(p, q)) && IsVector(Add(v, u)) && IsVector(Sub(v, u))
    ensures Add(p, q).w == 2.0
  {
  }

  lemma NegInvolutive(a: Tuple)
    ensures Neg(Neg(a)) == a
  {
  }

  /** Subtraction undoes addition; a - a is the zero vector. */
  lemma SubAddRoundTrip(a: Tuple, b: Tuple)
    ensures Add(Sub(a, b), b) == a
    ensures Sub(Add(a, b), b) == a
    ensures Sub(a, a) == Vector(0.0, 0.0, 0.0)
  {
  }

  /** Subtraction is anti-commutative. */
  lemma SubAntiCommutative(a: Tuple, b: Tuple)
    ensures Sub(b, a) == Neg(Sub(a, b))
  {
  }

  // ---- scaling and division ----

  lemma ScaleDistributes(a: Tuple, b: Tuple, s: real)
    ensures Scale(Add(a, b), s) == Add(Scale(a, s), Scale(b, s))
  {
  }

  lemma DivScaleRoundTrip(a: Tuple, s: real)
    requires s != 0.0
    ensures Scale(Div(a, s), s) == a
    ensures Div(Scale(a, s), s) == a
  {
  }

  // ---- magnitude and normalisation ----

  /** A tuple has exactly one magnitude. */
  lemma {:induction false} MagnitudeUnique(t: Tuple, m1: real, m2: real)
    requires IsMagnitude(t, m1) && IsMagnitude(t, m2)
    ensures m1 == m2
  {
    assert (m1 - m2) * (m1 + m2) == 0.0;
    ProductZero(m1 - m2, m1 + m2);
  }

  /** Scaling by s scales the magnitude by |s|. */
  lemma MagnitudeScale(t: Tuple, m: real, s: real)
    requires IsMagnitude(t, m)
    ensures IsMagnitude(Scale(t, s), Abs(s) * m)
  {
    var u := Scale(t, s);
    var k := s * s;
    ScaledSquare(t.x, s);
    ScaledSquare(t.y, s);
    ScaledSquare(t.z, s);
    ScaledSquare(t.w, s);
    assert MagnitudeSquared(u) == k * (t.x * t.x) + k * (t.y * t.y) + k * (t.z * t.z) + k * (t.w * t.w);
    assert MagnitudeSquared(u) == k * MagnitudeSquared(t);
    ScaledSquare(m, Abs(s));
    assert Abs(s) * Abs(s) == k;
  }

  lemma ScaledSquare(a: real, s: real)
    ensures (a * s) * (a * s) == (s * s) * (a * a)
  {
  }

  /** A normalised tuple has magnitude 1. */
  lemma NormalizeIsUnit(t: Tuple, m: real)
    requires IsMagnitude(t, m) && m != 0.0
    ensures IsMagnitude(Normalize(t, m), 1.0)
  {
    var u := Normalize(t, m);
    assert u == Scale(t, 1.0 / m);
    MagnitudeScale(t, m, 1.0 / m);
    assert Abs(1.0 / m) * m == 1.0;
  }

  /** Normalising keeps a vector a vector. */
  lemma NormalizeKeepsVector(t: Tuple, m: real)
    requires IsMagnitude(t, m) && m != 0.0 && IsVector(t)
    ensures IsVector(Normalize(t, m))
  {
  }

  // ---- dot and cross products ----

  /** The dot product of a vector with itself is its magnitude squared. */
  lemma DotSelf(v: Tuple)
    requires IsVector(v)
    ensures Dot(v, v) == MagnitudeSquared(v)
  {
  }

  lemma DotCommutative(a: Tuple, b: Tuple)
    requires IsVector(a) && IsVector(b)
    ensures Dot(a, b) == Dot(b, a)
  {
  }

  lemma CrossAntiCommutative(a: Tuple, b: Tuple)
    requires IsVector(a) && IsVector(b)
    ensures Cross(b, a) == Neg(Cross(a, b))
  {
  }

  /** The cross product is perpendicular to both of its inputs. */
  lemma CrossPerpendicular(a: Tuple, b: Tuple)
    requires IsVector(a) && IsVector(b)
    ensures Dot(a, Cross(a, b)) == 0.0
    ensures Dot(b, Cross(a, b)) == 0.0
  {
  }

  lemma CrossSelfIsZero(a: Tuple)
    requires IsVector(a)
    ensures Cross(a, a) == Vector(0.0, 0.0, 0.0)
  {
  }

  /** The law of cosines without roots or angles: |a - b|² = |a|² + |b|² -
      2 a·b, so a·b = |a||b| cos θ where θ is the angle between a and b. */
  lemma DotLawOfCosines(a: Tuple, b: Tuple)
    requires IsVector(a) && IsVector(b)
    ensures MagnitudeSquared(Sub(a, b)) == MagnitudeSquared(a) + MagnitudeSquared(b) - 2.0 * Dot(a, b)
  {
  }

  /** Lagrange's identity: |a × b|² = |a|² |b|² - (a·b)², i.e. |a × b| =
      |a||b| sin θ. */
  lemma CrossLagrange(a: Tuple, b: Tuple)
    requires IsVector(a) && IsVector(b)
    ensures MagnitudeSquared(Cross(a, b)) == MagnitudeSquared(a) * MagnitudeSquared(b) - Dot(a, b) * Dot(a, b)
  {
  }

  /** Cauchy-Schwarz: (a·b)² ≤ |a|² |b|², so the cosine that the dot product
      is proportional to lies in [-1, 1]. */
  lemma DotCauchySchwarz(a: Tuple, b: Tuple)
    requires IsVector(a) && IsVector(b)
    ensures Dot(a, b) * Dot(a, b) <= MagnitudeSquared(a) * MagnitudeSquared(b)
  {
    CrossLagrange(a, b);
  }

  // ---- equality ----

  lemma EqualReflexive(a: Tuple)
    ensures Equal(a, a)
  {
  }

  lemma EqualSymmetric(a: Tuple, b: Tuple)
    ensures Equal(a, b) <==> Equal(b, a)
  {
  }

  /** The tuple tests on construction and arithmetic, which over reals hold
      exactly. */
  lemma ArithmeticExamples()
    ensures Point(4.0, -4.0, 3.0) == Tuple(4.0, -4.0, 3.0, 1.0)
    ensures Vector(4.0, -4.0, 3.0) == Tuple(4.0, -4.0, 3.0, 0.0)
    ensures Add(Tuple(3.0, -2.0, 5.0, 1.0), Tuple(-2.0, 3.0, 1.0, 0.0)) == Tuple(1.0, 1.0, 6.0, 1.0)
    ensures Sub(Point(3.0, 2.0, 1.0), Point(5.0, 6.0, 7.0)) == Vector(-2.0, -4.0, -6.0)
    ensures Sub(Point(3.0, 2.0, 1.0), Vector(5.0, 6.0, 7.0)) == Point(-2.0, -4.0, -6.0)
    ensures Neg(Tuple(1.0, -2.0, 3.0, -4.0)) == Tuple(-1.0, 2.0, -3.0, 4.0)
    ensures Scale(Tuple(1.0, -2.0, 3.0, -4.0), 3.5) == Tuple(3.5, -7.0, 10.5, -14.0)
    ensures Scale(Tuple(1.0, -2.0, 3.0, -4.0), 0.5) == Tuple(0.5, -1.0, 1.5, -2.0)
    ensures Div(Tuple(1.0, -2.0, 3.0, -4.0), 2.0) == Tuple(0.5, -1.0, 1.5, -2.0)
  {
  }

  /** The magnitude and normalisation tests. */
  lemma MagnitudeExamples()
    ensures IsMagnitude(Vector(1.0, 0.0, 0.0), 1.0)
    ensures IsMagnitude(Vector(0.0, 1.0, 0.0), 1.0)
    ensures IsMagnitude(Vector(0.0, 0.0, 1.0), 1.0)
    ensures MagnitudeSquared(Vector(1.0, 2.0, 3.0)) == 14.0
    ensures MagnitudeSquared(Vector(-1.0, -2.0, -3.0)) == 14.0
    ensures IsMagnitude(Vector(4.0, 0.0, 0.0), 4.0)
    ensures Normalize(Vector(4.0, 0.0, 0.0), 4.0) == Vector(1.0, 0.0, 0.0)
  {
  }

  /** A non-negative root of 14 lies strictly between 3.74165 and 3.74166. */
  lemma RootOfFourteen(m: real)
    requires m >= 0.0 && m * m == 14.0
    ensures 3.74165 < m < 3.74166
  {
    if m <= 3.74165 {
      SquareMonotone(m, 3.74165);
      assert false;
    }
    if m >= 3.74166 {
      SquareMonotone(3.74166, m);
      assert false;
    }
  }

  lemma SquareMonotone(a: real, b: real)
    requires 0.0 <= a <= b
    ensures a * a <= b * b
  {
    assert a * a <= a * b;
  }

  /** A quotient q = c / m with m strictly between lo and hi compares
      approximately equal to target when target's tolerance interval,
      scaled by those bounds, brackets c. */
  lemma QuotientWithin(c: real, m: real, q: real, lo: real, hi: real, target: real)
    requires 0.0 < lo < m < hi && q * m == c
    requires target - Epsilon > 0.0
    requires c <= (target + Epsilon) * lo && (target - Epsilon) * hi <= c
    ensures ApproxEq(q, target)
  {
    ApproxEqInterval(target, q);
    if q >= target + Epsilon {
      assert q * m >= (target + Epsilon) * m;
      assert (target + Epsilon) * m > (target + Epsilon) * lo;
    }
    if q <= target - Epsilon {
      assert q * m <= (target - Epsilon) * m;
      assert (target - Epsilon) * m < (target - Epsilon) * hi;
    }
  }

  /** The approximate normalisation test: (1, 2, 3) normalises to about
      (0.26726, 0.53452, 0.80178), within the comparison's tolerance. */
  lemma NormalizeExample(m: real)
    requires IsMagnitude(Vector(1.0, 2.0, 3.0), m)
    ensures m != 0.0
    ensures Equal(Normalize(Vector(1.0, 2.0, 3.0), m), Vector(0.26726, 0.53452, 0.80178))
  {
    var v := Vector(1.0, 2.0, 3.0);
    assert MagnitudeSquared(v) == 14.0;
    RootOfFourteen(m);
    var u := Normalize(v, m);
    QuotientWithin(1.0, m, u.x, 3.74165, 3.74166, 0.26726);
    QuotientWithin(2.0, m, u.y, 3.74165, 3.74166, 0.53452);
    QuotientWithin(3.0, m, u.z, 3.74165, 3.74166, 0.80178);
    assert u.w == 0.0;
  }

  /** The dot and cross product tests. */
  lemma ProductExamples()
    ensures Dot(Vector(1.0, 2.0, 3.0), Vector(2.0, 3.0, 4.0)) == 20.0
    ensures Cross(Vector(1.0, 2.0, 3.0), Vector(2.0, 3.0, 4.0)) == Vector(-1.0, 2.0, -1.0)
    ensures Cross(Vector(2.0, 3.0, 4.0), Vector(1.0, 2.0, 3.0)) == Vector(1.0, -2.0, 1.0)
  {
    var a, b := Vector(1.0, 2.0, 3.0), Vector(2.0, 3.0, 4.0);
    assert a == Tuple(1.0, 2.0, 3.0, 0.0) && b == Tuple(2.0, 3.0, 4.0, 0.0);
    assert Cross(a, b) == Vector(2.0 * 4.0 - 3.0 * 3.0, 3.0 * 2.0 - 1.0 * 4.0, 1.0 * 3.0 - 2.0 * 2.0);
    CrossAntiCommutative(a, b);
  }
}
