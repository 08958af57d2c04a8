/**
 * Vector arithmetic and the Mathf helpers the brush uses, over `real`.
 *
 * `Vector3.Distance(a, b)` is the square root of `DistSq(a, b)`; every
 * comparison of a distance with a bound is stated on squares, which is exact
 * for real numbers: `Distance(a, b) < d` iff `d > 0 && DistSq(a, b) < d * d`,
 * and `Distance(a, b) <= d` iff `d >= 0 && DistSq(a, b) <= d * d`.
 */
module Geometry {

  datatype Option<T> = None | Some(value: T) {
    function GetOr(default: T): T {
      match this
      case Some(v) => v
      case None => default
    }
  }

  datatype Vec3 = Vec3(x: real, y: real, z: real)

  const Zero: Vec3 := Vec3(0.0, 0.0, 0.0)

  /** Mathf.PI, the single-precision value of pi. */
  const MathfPi: real := 3.1415927410125732421875

  /** Mathf.Deg2Rad. */
  const Deg2Rad: real := MathfPi / 180.0

  function Add(a: Vec3, b: Vec3): Vec3 {
    Vec3(a.x + b.x, a.y + b.y, a.z + b.z)
  }

  function Sub(a: Vec3, b: Vec3): Vec3 {
    Vec3(a.x - b.x, a.y - b.y, a.z - b.z)
  }

  function Scale(a: Vec3, k: real): Vec3 {
    Vec3(a.x * k, a.y * k, a.z * k)
  }

  function Dot(a: Vec3, b: Vec3): real {
    a.x * b.x + a.y * b.y + a.z * b.z
  }

  /** Squared Euclidean distance. */
  function DistSq(a: Vec3, b: Vec3): real {
    (a.x - b.x) * (a.x - b.x) + (a.y - b.y) * (a.y - b.y) + (a.z - b.z) * (a.z - b.z)
  }

  /** Squared distance in the xy-plane (the z axis is ignored). */
  function XYDistSq(a: Vec3, b: Vec3): real {
    (a.x - b.x) * (a.x - b.x) + (a.y - b.y) * (a.y - b.y)
  }

  /** `Vector3.Distance(a, b) < d`. */
  predicate CloserThan(a: Vec3, b: Vec3, d: real) {
    d > 0.0 && DistSq(a, b) < d * d
  }

  /** `Vector3.Distance(a, b) <= d`. */
  predicate WithinDistance(a: Vec3, b: Vec3, d: real) {
    d >= 0.0 && DistSq(a, b) <= d * d
  }

  /** `Vector3.Distance(a, b) >= d`, for a non-negative `d`. */
  predicate Apart(a: Vec3, b: Vec3, d: real) {
    DistSq(a, b) >= d * d
  }

  /** Some position of `positions` is closer than `d` to `p`. */
  predicate AnyCloser(positions: seq<Vec3>, p: Vec3, d: real) {
    exists i :: 0 <= i < |positions| && CloserThan(positions[i], p, d)
  }

  function Abs(x: real): real {
    if x < 0.0 then -x else x
  }

  function Min(a: real, b: real): real {
    if a <= b then a else b
  }

  function Max(a: real, b: real): real {
    if a <= b then b else a
  }

  function IntMax(a: int, b: int): int {
    if a <= b then b else a
  }

  /** Mathf.Clamp01. */
  function Clamp01(t: real): (c: real)
    ensures 0.0 <= c <= 1.0
    ensures 0.0 <= t <= 1.0 ==> c == t
  {
    if t < 0.0 then 0.0 else if t > 1.0 then 1.0 else t
  }

  /** Mathf.Lerp: the interpolation parameter is clamped to [0, 1] first. */
  function Lerp(a: real, b: real, t: real): (r: real)
    ensures Min(a, b) <= r <= Max(a, b)
    ensures t <= 0.0 ==> r == a
    ensures t >= 1.0 ==> r == b
  {
    var c := Clamp01(t);
    Interpolate(a, b, c);
    a + (b - a) * c
  }

  /** `a + (b - a) * c` for `c` in [0, 1] lies between `a` and `b`. */
  lemma Interpolate(a: real, b: real, c: real)
    requires 0.0 <= c <= 1.0
    ensures Min(a, b) <= a + (b - a) * c <= Max(a, b)
  {
    if a <= b {
      var k := b - a;
      MulBetween(c, k);
      var kc := k * c;
      assert 0.0 <= kc;
      assert kc <= k;
      assert (b - a) * c == kc;
      assert Min(a, b) == a;
      assert Max(a, b) == b;
    } else {
      var k := a - b;
      MulBetween(c, k);
      var kc := k * c;
      assert 0.0 <= kc;
      assert kc <= k;
      MulNegate(k, c);
      assert (b - a) * c == -kc;
      assert Min(a, b) == b;
      assert Max(a, b) == a;
    }
  }

  lemma MulNonneg(x: real, y: real)
    requires 0.0 <= x && 0.0 <= y
    ensures 0.0 <= x * y
  {
  }

  lemma MulNegate(x: real, y: real)
    ensures (-x) * y == -(x * y)
  {
  }

  lemma MulPositive(p: real, q: real)
    requires p > 0.0 && q > 0.0
    ensures p * q > 0.0
  {
  }

  lemma MulBetween(c: real, k: real)
    requires 0.0 <= c <= 1.0 && 0.0 <= k
    ensures 0.0 <= c * k <= k
    ensures 0.0 <= k * c <= k
  {
    assert k - c * k == (1.0 - c) * k;
    assert c * k == k * c;
  }

  /**
   * Mathf.RoundToInt: round to the nearest integer, and to the even one of
   * the two when `x` lies exactly half-way (banker's rounding).
   */
  function RoundToInt(x: real): (n: int)
    ensures x - 0.5 <= n as real <= x + 0.5
    ensures (n as real - x == 0.5 || x - n as real == 0.5) ==> n % 2 == 0
  {
    var f := x.Floor;
    var frac := x - f as real;
    if frac < 0.5 then f
    else if frac > 0.5 then f + 1
    else if f % 2 == 0 then f
    else f + 1
  }

  /** Rounding never reverses the order of two numbers. */
  lemma RoundToIntMonotone(x: real, y: real)
    requires x <= y
    ensures RoundToInt(x) <= RoundToInt(y)
  {
    var fx, fy := x.Floor, y.Floor;
    assert fx <= fy;
    if fx < fy {
      assert RoundToInt(x) <= fx + 1 <= fy <= RoundToInt(y);
    }
  }

  /** `a * a <= b * b` for `0 <= a <= b`. */
  lemma SquareMonotone(a: real, b: real)
    requires 0.0 <= a <= b
    ensures a * a <= b * b
  {
    assert b * b - a * a == (b - a) * (b + a);
  }

  /** Not being closer than `d` to any position bounds the distance to each one. */
  lemma NotCloserAt(positions: seq<Vec3>, i: int, p: Vec3, d: real)
    requires 0 <= i < |positions| && d > 0.0
    requires !AnyCloser(positions, p, d)
    ensures Apart(positions[i], p, d)
  {
    assert !CloserThan(positions[i], p, d);
  }

  /**
   * Being at least `d` away from every position is kept when the bound is
   * lowered to any `e` between 0 and `d`.
   */
  lemma NotCloserWeaken(positions: seq<Vec3>, p: Vec3, d: real, e: real)
    requires 0.0 <= e <= d
    requires !AnyCloser(positions, p, d)
    ensures !AnyCloser(positions, p, e)
  {
    SquareMonotone(e, d);
  }
}
