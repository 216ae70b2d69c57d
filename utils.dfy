/** Tolerance-based comparison of floating-point values, modelled over reals.
    Both value types of the tracer (Tuples.Tuple and Colors.Color) build their
    equality from ApproxEq, one component at a time. */
module Utils {

  /** The fixed absolute tolerance of the comparison. */
  const Epsilon: real := 0.00001

  function Abs(x: real): (r: real)
    ensures r >= 0.0
    ensures r == x || r == -x
  {
    if x < 0.0 then -x else x
  }

  /** `fp_approx_eq`: the two values differ by strictly less than Epsilon. */
  predicate ApproxEq(a: real, b: real)
  {
    Abs(a - b) < Epsilon
  }

  /** ApproxEq holds exactly when b lies in the open interval around a of
      radius Epsilon. */
  lemma ApproxEqInterval(a: real, b: real)
    ensures ApproxEq(a, b) <==> a - Epsilon < b < a + Epsilon
  {
  }

  /** The comparison is strict: a difference of exactly Epsilon is not equal. */
  lemma ApproxEqStrict(a: real)
    ensures !ApproxEq(a, a + Epsilon)
    ensures !ApproxEq(a + Epsilon, a)
  {
  }

  lemma ApproxEqReflexive(a: real)
    ensures ApproxEq(a, a)
  {
  }

  lemma ApproxEqSymmetric(a: real, b: real)
    ensures ApproxEq(a, b) <==> ApproxEq(b, a)
  {
  }

  /** ApproxEq is not transitive, so the `==` that the value types build
      from it is not an equivalence relation. */
  lemma ApproxEqNotTransitive()
    ensures ApproxEq(0.0, 0.000006) && ApproxEq(0.000006, 0.000012)
    ensures !ApproxEq(0.0, 0.000012)
  {
  }
}
