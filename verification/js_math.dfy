/** The part of JavaScript's `Math` object that the shadow calculation uses.
    Arithmetic is on mathematical reals (no IEEE rounding, no NaN). The
    transcendental functions are not defined here: they are a parameter
    record `Trig`, and `TrigAxioms` lists the only facts about them that the
    proofs use. */
module JsMath {

  /** `Math.PI` (the double closest to pi, written out in decimal). */
  const PI: real := 3.141592653589793

  /** `Math.abs`. */
  function Abs(x: real): (r: real)
    ensures r >= 0.0
    ensures r == x || r == -x
  {
    if x < 0.0 then -x else x
  }

  /** `Math.round`: the nearest integer, halves rounded towards +infinity
      (so `Math.round(-2.5) == -2`, `Math.round(2.5) == 3`). */
  function Round(x: real): (r: int)
    ensures x - 0.5 < r as real <= x + 0.5
  {
    (x + 0.5).Floor
  }

  /** `Math.sin`, `Math.cos`, `Math.tan`, `Math.asin`, on radians. */
  datatype Trig = Trig(sin: real -> real, cos: real -> real, tan: real -> real, asin: real -> real)

  /** The Pythagorean identity at `x`. */
  ghost predicate UnitCircleAt(t: Trig, x: real) {
    t.sin(x) * t.sin(x) + t.cos(x) * t.cos(x) == 1.0
  }

  /** The principal arcsine of a value in its domain lies in [-PI/2, PI/2]. */
  ghost predicate ArcsineRangeAt(t: Trig, y: real) {
    -1.0 <= y <= 1.0 ==> -PI / 2.0 <= t.asin(y) <= PI / 2.0
  }

  /** The tangent is positive on (0, PI/2]: the double `Math.PI / 2` lies just
      below the true pole, so `Math.tan` of it is a large positive number. */
  ghost predicate TangentPositiveAt(t: Trig, x: real) {
    0.0 < x <= PI / 2.0 ==> t.tan(x) > 0.0
  }

  /** What the model assumes of the host's trigonometry, at every point. */
  ghost predicate TrigAxioms(t: Trig) {
    && (forall x :: UnitCircleAt(t, x))
    && (forall y :: ArcsineRangeAt(t, y))
    && (forall x :: TangentPositiveAt(t, x))
  }

  /** A (degenerate) trigonometry meeting `TrigAxioms`: the axioms are consistent. */
  lemma TrigAxiomsSatisfiable()
    ensures TrigAxioms(Trig(x => 0.0, x => 1.0, x => 1.0, y => 0.0))
  {
  }

  /** A square of at most one bounds its root. */
  lemma {:induction false} UnitSquare(a: real)
    requires a * a <= 1.0
    ensures -1.0 <= a <= 1.0
  {
    assert (a - 1.0) * (a + 1.0) == a * a - 1.0;
  }

  /** Sine and cosine stay in [-1, 1]. */
  lemma SinCosBounded(t: Trig, x: real)
    requires TrigAxioms(t)
    ensures -1.0 <= t.sin(x) <= 1.0
    ensures -1.0 <= t.cos(x) <= 1.0
  {
    var s, c := t.sin(x), t.cos(x);
    assert UnitCircleAt(t, x);
    assert c * c >= 0.0;
    assert s * s >= 0.0;
    UnitSquare(s);
    UnitSquare(c);
  }
}
