/** Linear interpolation and the ease-out curves the camera components use. */
module Easing {
  import opened Three

  function Min(a: real, b: real): (m: real)
    ensures m <= a && m <= b && (m == a || m == b)
  {
    if a <= b then a else b
  }

  /** `lerp(start, end, t)`, written as the scene's own helper writes it. */
  function Lerp(start: real, end: real, t: real): real {
    start * (1.0 - t) + end * t
  }

  /** `lerpVector3`: `Lerp` on each coordinate independently. */
  function LerpVector3(start: Vec3, end: Vec3, t: real): Vec3 {
    Vec3(Lerp(start.x, end.x, t), Lerp(start.y, end.y, t), Lerp(start.z, end.z, t))
  }

  /** `v` lies on the closed segment between `a` and `b`, in either order. */
  predicate Between(v: real, a: real, b: real) {
    (a <= v <= b) || (b <= v <= a)
  }

  /** Each coordinate of `v` lies between the matching coordinates of `a` and `b`. */
  predicate BetweenVec(v: Vec3, a: Vec3, b: Vec3) {
    Between(v.x, a.x, b.x) && Between(v.y, a.y, b.y) && Between(v.z, a.z, b.z)
  }

  /** Multiplying by a non-negative factor keeps an inequality. */
  lemma MulMonotone(a: real, b: real, c: real)
    requires a <= b && 0.0 <= c
    ensures a * c <= b * c
  {
    assert (b - a) * c >= 0.0;
  }

  /** `Lerp` starts at `start`, ends at `end`, and Three.js's in-place
      `Vector3.lerp` form `start + (end - start) * t` gives the same value. */
  lemma LerpEndpoints(start: real, end: real, t: real)
    ensures Lerp(start, end, 0.0) == start
    ensures Lerp(start, end, 1.0) == end
    ensures start + (end - start) * t == Lerp(start, end, t)
  {
  }

  /** A fraction `t` in [0,1] of a non-negative `w` lies between 0 and `w`. */
  lemma FractionBounds(w: real, t: real)
    requires 0.0 <= w && 0.0 <= t <= 1.0
    ensures 0.0 <= w * t <= w
  {
    MulMonotone(0.0, w, t);
    MulMonotone(t, 1.0, w);
  }

  /** For `t` in [0,1] the interpolant stays on the segment, and its distance
      to `end` is the old distance scaled by `1 - t`. */
  lemma LerpBetween(start: real, end: real, t: real)
    requires 0.0 <= t <= 1.0
    ensures Between(Lerp(start, end, t), start, end)
    ensures Lerp(start, end, t) - end == (1.0 - t) * (start - end)
  {
    var w := end - start;
    assert Lerp(start, end, t) == start + w * t;
    if start <= end {
      FractionBounds(w, t);
    } else {
      FractionBounds(start - end, t);
      assert (start - end) * t == -(w * t);
    }
    assert (1.0 - t) * (start - end) == -w + w * t;
  }

  /** On every coordinate, `p` is still the fraction `f` of the way from
      `start` away from `end`. */
  predicate Remaining(p: Vec3, start: Vec3, end: Vec3, f: real) {
    && p.x - end.x == f * (start.x - end.x)
    && p.y - end.y == f * (start.y - end.y)
    && p.z - end.z == f * (start.z - end.z)
  }

  lemma LerpVector3Between(start: Vec3, end: Vec3, t: real)
    requires 0.0 <= t <= 1.0
    ensures BetweenVec(LerpVector3(start, end, t), start, end)
    ensures Remaining(LerpVector3(start, end, t), start, end, 1.0 - t)
    ensures LerpVector3(start, end, 0.0) == start && LerpVector3(start, end, 1.0) == end
  {
    LerpBetween(start.x, end.x, t);
    LerpBetween(start.y, end.y, t);
    LerpBetween(start.z, end.z, t);
  }

  /** The quadratic ease-out `1 - (1 - x)^2`. */
  function EaseOutQuad(x: real): (t: real)
    ensures 0.0 <= x <= 1.0 ==> 0.0 <= t <= 1.0
    ensures x == 0.0 ==> t == 0.0
    ensures x == 1.0 ==> t == 1.0
  {
    var u := 1.0 - x;
    if 0.0 <= u <= 1.0 then
      MulMonotone(0.0, u, u);
      MulMonotone(u, 1.0, u);
      1.0 - u * u
    else
      1.0 - u * u
  }

  /** The cubic ease-out `1 - (1 - x)^3`. */
  function EaseOutCubic(x: real): (t: real)
    ensures 0.0 <= x <= 1.0 ==> 0.0 <= t <= 1.0
    ensures x == 0.0 ==> t == 0.0
    ensures x == 1.0 ==> t == 1.0
  {
    var u := 1.0 - x;
    if 0.0 <= u <= 1.0 then
      MulMonotone(0.0, u, u);
      MulMonotone(u, 1.0, u);
      MulMonotone(0.0, u, u * u);
      MulMonotone(u, 1.0, u * u);
      1.0 - u * u * u
    else
      1.0 - u * u * u
  }

  /** Both curves are monotone on [0,1]: more progress is never eased into less. */
  lemma EaseOutMonotone(x: real, y: real)
    requires 0.0 <= x <= y <= 1.0
    ensures EaseOutQuad(x) <= EaseOutQuad(y)
    ensures EaseOutCubic(x) <= EaseOutCubic(y)
  {
    var u, v := 1.0 - x, 1.0 - y;
    PowersMonotone(v, u);
    assert EaseOutQuad(x) == 1.0 - u * u && EaseOutQuad(y) == 1.0 - v * v;
    assert EaseOutCubic(x) == 1.0 - u * u * u && EaseOutCubic(y) == 1.0 - v * v * v;
  }

  /** Squares and cubes are monotone on non-negative reals. */
  lemma PowersMonotone(v: real, u: real)
    requires 0.0 <= v <= u
    ensures v * v <= u * u && v * v * v <= u * u * u
  {
    MulMonotone(v, u, v);
    MulMonotone(v, u, u);
    var vv, uu := v * v, u * u;
    assert vv <= uu;
    MulMonotone(vv, uu, v);
    assert uu * v == v * uu;
    MulMonotone(v, u, uu);
    assert vv * v <= uu * u;
  }
}
