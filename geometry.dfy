/** Plane geometry and the scalar helpers of the game: points, the
    abstract `Math` functions, rounding, easing and clamping. */
module Geometry {

  /** A point or a velocity: the `{ x, y }` objects of the game. */
  datatype Vec = Vec(x: real, y: real)

  /** `Math.PI`, as the decimal expansion of the double it stands for. */
  const PI: real := 3.141592653589793

  /** The transcendental functions the game calls (`Math.atan2`, `Math.sin`,
      `Math.cos`, `Math.sqrt`), supplied from outside the model. */
  datatype MathOps = MathOps(
    atan2: (real, real) -> real,
    sin: real -> real,
    cos: real -> real,
    sqrt: real -> real)

  /** The facts about those functions that some lemmas rely on: `atan2`
      lands in [-PI, PI], `sin` and `cos` in [-1, 1], and `sqrt` is the
      non-negative square root of a non-negative number. */
  ghost predicate Lawful(m: MathOps)
  {
    (forall y: real, x: real :: -PI <= m.atan2(y, x) <= PI) &&
    (forall a: real :: -1.0 <= m.sin(a) <= 1.0) &&
    (forall a: real :: -1.0 <= m.cos(a) <= 1.0) &&
    (forall s: real :: s >= 0.0 ==> m.sqrt(s) >= 0.0 && m.sqrt(s) * m.sqrt(s) == s)
  }

  /** The draws of `Math.random()`: every one lies in [0, 1). */
  ghost predicate UnitDraws(rand: nat -> real)
  {
    forall n: nat :: 0.0 <= rand(n) < 1.0
  }

  function Abs(v: real): real { if v < 0.0 then -v else v }
  function Min(a: real, b: real): real { if a <= b then a else b }
  function Max(a: real, b: real): real { if a >= b then a else b }
  function MinInt(a: int, b: int): int { if a <= b then a else b }
  function MaxInt(a: int, b: int): int { if a >= b then a else b }

  /** The square of the Euclidean distance from `p` to `q`. */
  function SquaredDistance(p: Vec, q: Vec): real
  {
    var dx := q.x - p.x;
    var dy := q.y - p.y;
    dx * dx + dy * dy
  }

  /** `Point.prototype.distanceTo`: the square root of the squared distance. */
  function DistanceTo(p: Vec, q: Vec, m: MathOps): real
  {
    m.sqrt(SquaredDistance(p, q))
  }

  /** With a lawful square root, every distance comparison the game makes
      against a non-negative bound is a comparison of squared distances, so
      the interaction rules are disc and ring tests in the plane. */
  lemma DistanceComparisons(p: Vec, q: Vec, m: MathOps, k: real)
    requires Lawful(m) && k >= 0.0
    ensures DistanceTo(p, q, m) >= 0.0
    ensures DistanceTo(p, q, m) < k <==> SquaredDistance(p, q) < k * k
    ensures DistanceTo(p, q, m) > k <==> SquaredDistance(p, q) > k * k
  {
    var s := SquaredDistance(p, q);
    var dx, dy := q.x - p.x, q.y - p.y;
    assert dx * dx >= 0.0 && dy * dy >= 0.0;
    assert s >= 0.0;
    var d := m.sqrt(s);
    assert d >= 0.0 && d * d == s;
    var a, b := d - k, d + k;
    assert d * d - k * k == a * b;
    if d < k {
      assert a < 0.0 && b > 0.0;
      ProductSign(-a, b);
    } else if d > k {
      assert a > 0.0 && b > 0.0;
      ProductSign(a, b);
    }
  }

  lemma ProductSign(a: real, b: real)
    requires a > 0.0 && b > 0.0
    ensures a * b > 0.0
  {
  }

  /** Squaring preserves the order of non-negative numbers. */
  lemma SquaresOrdered(x: real, y: real)
    requires 0.0 <= x <= y
    ensures x * x <= y * y
  {
    assert y * y - x * x == (y - x) * (y + x);
    if x < y { ProductSign(y - x, y + x); }
  }

  /** Distance does not depend on which end it is measured from. */
  lemma DistanceSymmetric(p: Vec, q: Vec, m: MathOps)
    ensures DistanceTo(p, q, m) == DistanceTo(q, p, m)
  {
    var dx, dy := q.x - p.x, q.y - p.y;
    assert (p.x - q.x) * (p.x - q.x) == dx * dx;
    assert (p.y - q.y) * (p.y - q.y) == dy * dy;
  }

  /** `Math.round`: the nearest integer, halves rounded up. */
  function Round(v: real): (r: int)
    ensures v - 0.5 < r as real <= v + 0.5
  {
    (v + 0.5).Floor
  }

  /** `cur += (target - cur) * k`: one easing step. The distance left to the
      target shrinks by the factor `1 - k`, and for `k` in [0, 1] the result
      lies between the start and the target. */
  function Ease(cur: real, target: real, k: real): (r: real)
    ensures target - r == (target - cur) * (1.0 - k)
    ensures 0.0 <= k <= 1.0 ==> Min(cur, target) <= r <= Max(cur, target)
  {
    cur + (target - cur) * k
  }

  /** `Math.max(Math.min(v, hi), lo)`. */
  function Clamp(v: real, lo: real, hi: real): (r: real)
    ensures lo <= hi ==> lo <= r <= hi
    ensures lo <= v <= hi ==> r == v
    ensures v > hi && lo <= hi ==> r == hi
    ensures v < lo ==> r == lo
  {
    Max(Min(v, hi), lo)
  }
}
