/** The easing curves and the uniform draw helper of js/particle.js. */
module Easing {
  import opened Numeric

  function Cube(u: real): real { u * u * u }

  lemma CubeOfUnit(u: real)
    requires 0.0 <= u <= 1.0
    ensures 0.0 <= Cube(u) <= u
  {
    MulMonotone(u, 1.0, u);
    assert u * u <= u;
    MulMonotone(0.0, u, u);
    MulMonotone(u * u, u, u);
    MulMonotone(0.0, u * u, u);
  }

  lemma CubeMonotone(a: real, b: real)
    requires 0.0 <= a <= b
    ensures Cube(a) <= Cube(b)
  {
    MulMonotone(a, b, a);
    MulMonotone(a, b, b);
    MulMonotone(a * a, b * b, a);
    MulMonotone(a, b, b * b);
  }

  lemma CubeStrict(a: real, b: real)
    requires 0.0 <= a < b
    ensures Cube(a) < Cube(b)
  {
    MulMonotone(a, b, a);
    MulStrict(a, b, b);
    MulMonotone(a * a, b * b, a);
    MulStrict(a, b, b * b);
  }

  /** _easeOutCubic: 1 - (1 - t)^3. */
  function EaseOutCubic(t: real): (r: real)
    ensures 0.0 <= t <= 1.0 ==> 0.0 <= r <= 1.0 && t <= r
    ensures t == 0.0 ==> r == 0.0
    ensures t == 1.0 ==> r == 1.0
  {
    if 0.0 <= t <= 1.0 then CubeOfUnit(1.0 - t); 1.0 - Cube(1.0 - t)
    else 1.0 - Cube(1.0 - t)
  }

  /** _easeInCubic: t^3. */
  function EaseInCubic(t: real): (r: real)
    ensures 0.0 <= t <= 1.0 ==> 0.0 <= r <= t
    ensures t == 0.0 ==> r == 0.0
    ensures t == 1.0 ==> r == 1.0
  {
    if 0.0 <= t <= 1.0 then CubeOfUnit(t); Cube(t) else Cube(t)
  }

  /** Both curves rise monotonically over [0,1]. */
  lemma EasingMonotone(s: real, t: real)
    requires 0.0 <= s <= t <= 1.0
    ensures EaseOutCubic(s) <= EaseOutCubic(t)
    ensures EaseInCubic(s) <= EaseInCubic(t)
  {
    CubeMonotone(1.0 - t, 1.0 - s);
    CubeMonotone(s, t);
  }

  lemma ScaledDraw(r: real, d: real) returns (p: real)
    requires Unit(r)
    ensures p == r * d
    ensures 0.0 <= d ==> 0.0 <= p <= d
    ensures 0.0 < d ==> p < d
    ensures d == 0.0 ==> p == 0.0
  {
    p := r * d;
    if 0.0 <= d {
      MulMonotone(0.0, r, d);
      MulMonotone(r, 1.0, d);
    }
    if 0.0 < d {
      MulStrict(r, 1.0, d);
    }
  }

  lemma RandBounds(min: real, max: real, r: real)
    requires Unit(r)
    ensures min <= max ==> min <= min + r * (max - min) <= max
    ensures min < max ==> min + r * (max - min) < max
    ensures min == max ==> min + r * (max - min) == min
  {
    var p := ScaledDraw(r, max - min);
  }

  /** rand(min, max): min + r * (max - min), where r is the Math.random() draw. */
  function Rand(min: real, max: real, r: real): (v: real)
    requires Unit(r)
    ensures min <= max ==> min <= v <= max
    ensures min < max ==> v < max
    ensures min == max ==> v == min
  {
    RandBounds(min, max, r);
    min + r * (max - min)
  }

  /** rand(min, max, true): the draw rounded with Math.round, i.e. floor(v + 0.5). */
  function RandInt(min: int, max: int, r: real): (n: int)
    requires Unit(r)
    ensures min <= max ==> min <= n <= max
  {
    (Rand(min as real, max as real, r) + 0.5).Floor
  }
}
