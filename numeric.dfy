/** Real-number helpers shared by the simulation: JavaScript's Math.min and
    Math.max, and the transcendental functions the simulation calls. */
module Numeric {

  function Min(a: real, b: real): (r: real)
    ensures r <= a && r <= b && (r == a || r == b)
  {
    if a <= b then a else b
  }

  function Max(a: real, b: real): (r: real)
    ensures r >= a && r >= b && (r == a || r == b)
  {
    if a >= b then a else b
  }

  /** max(lo, min(hi, v)): the clamp the simulation writes out inline. */
  function Clamp(v: real, lo: real, hi: real): (r: real)
    requires lo <= hi
    ensures lo <= r <= hi
    ensures lo <= v <= hi ==> r == v
  {
    Max(lo, Min(hi, v))
  }

  lemma MulMonotone(x: real, y: real, z: real)
    requires x <= y && 0.0 <= z
    ensures x * z <= y * z
  {
    assert (y - x) * z >= 0.0;
  }

  lemma MulStrict(x: real, y: real, z: real)
    requires x < y && 0.0 < z
    ensures x * z < y * z
  {
    assert (y - x) * z > 0.0;
  }

  /** A non-negative amount scaled by a fraction in [0,1] stays between 0 and itself. */
  lemma ScaleByFraction(a: real, f: real)
    requires 0.0 <= a && 0.0 <= f <= 1.0
    ensures 0.0 <= a * f <= a
  {
    assert a * (1.0 - f) >= 0.0;
  }

  /** a / b for 0 <= a and 0 < b: non-negative, below 1 when a < b, at least 1 when a >= b. */
  lemma Ratio(a: real, b: real)
    requires 0.0 <= a && 0.0 < b
    ensures 0.0 <= a / b
    ensures a <= b ==> a / b <= 1.0
    ensures a < b ==> a / b < 1.0
    ensures a >= b ==> a / b >= 1.0
    ensures 0.0 < a ==> 0.0 < a / b
  {
    assert (a / b) * b == a;
  }

  /** Dividing by a positive number keeps a strict order. */
  lemma DivStrict(a: real, b: real, c: real)
    requires a < b && 0.0 < c
    ensures a / c < b / c
  {
    assert (b / c - a / c) * c == b - a;
  }

  /** Math.PI, as the double literal the browser uses. */
  const PI: real := 3.141592653589793

  /** Math.sqrt, Math.pow, Math.cos and Math.sin. Their values are not computed
      here: the simulation is parameterised by them, and only the facts that
      `Lawful` states are used about them. */
  datatype Ops = Ops(
    sqrt: real -> real,
    pow: (real, real) -> real,
    cos: real -> real,
    sin: real -> real)

  /** What any faithful implementation of the four functions satisfies:
      a square root is the non-negative root, a positive power of a number
      in [0,1] stays in [0,1], and cosine and sine lie in [-1,1]. */
  ghost predicate Lawful(m: Ops) {
    && (forall v :: 0.0 <= v ==> 0.0 <= m.sqrt(v) && m.sqrt(v) * m.sqrt(v) == v)
    && (forall b, e :: 0.0 <= b <= 1.0 && 0.0 < e ==> 0.0 <= m.pow(b, e) <= 1.0)
    && (forall a :: -1.0 <= m.cos(a) <= 1.0)
    && (forall a :: -1.0 <= m.sin(a) <= 1.0)
  }

  /** A draw of Math.random(). */
  predicate Unit(r: real) {
    0.0 <= r < 1.0
  }
}
