/**
 * UnityEngine.Random as an injected source of draws, and the trigonometry
 * of the line brush as an injected function.
 *
 * Every float draw is given as a unit parameter `u` in [0, 1]:
 * `Random.Range(lo, hi)` is `lo + (hi - lo) * u`, which covers exactly the
 * closed range Unity documents. `Random.Range(0, n)` on ints is
 * `Floor(u * n)` with `u` in [0, 1). One attempt of a spawn loop consumes
 * one `AttemptDraw`; the loops index the stream by attempt number.
 */
module Draws {
  import opened Geometry

  /**
   * The draws of one placement attempt: `sphere` is Random.insideUnitSphere,
   * `u1` and `u2` are the two Random.Range draws of the square or the line
   * sampler, `tolerance` the spacing variation, `pick` the prefab index and
   * `flip` the Random.value of the mirror decision.
   */
  datatype AttemptDraw = AttemptDraw(sphere: Vec3, u1: real, u2: real, tolerance: real, pick: real, flip: real)

  predicate UnitInterval(u: real) {
    0.0 <= u <= 1.0
  }

  predicate InUnitBall(v: Vec3) {
    v.x * v.x + v.y * v.y + v.z * v.z <= 1.0
  }

  /** What Unity guarantees of the draws. */
  predicate InRange(d: AttemptDraw) {
    && InUnitBall(d.sphere)
    && UnitInterval(d.u1) && UnitInterval(d.u2)
    && UnitInterval(d.tolerance) && UnitInterval(d.flip)
    && 0.0 <= d.pick < 1.0
  }

  ghost predicate DrawsInRange(draw: nat -> AttemptDraw) {
    forall k: nat :: InRange(draw(k))
  }

  /** `Random.Range(lo, hi)` on floats: a value between the two bounds. */
  function RangeFloat(lo: real, hi: real, u: real): (r: real)
    requires UnitInterval(u)
    ensures Min(lo, hi) <= r <= Max(lo, hi)
    ensures u == 0.0 ==> r == lo
    ensures u == 1.0 ==> r == hi
  {
    Interpolate(lo, hi, u);
    lo + (hi - lo) * u
  }

  /** `Random.Range(0, n)` on ints: an index in [0, n). */
  function RangeInt(n: int, u: real): (i: int)
    requires n > 0 && 0.0 <= u < 1.0
    ensures 0 <= i < n
  {
    var x := u * n as real;
    assert 0.0 <= x < n as real by {
      MulBetween(u, n as real);
      assert n as real - x == (1.0 - u) * n as real;
      MulPositive(1.0 - u, n as real);
    }
    x.Floor
  }

  /** cos and sin of an angle, as the host computes them. */
  datatype Direction = Direction(cos: real, sin: real)

  predicate IsUnit(d: Direction) {
    d.cos * d.cos + d.sin * d.sin == 1.0
  }

  /** The host's trigonometry never leaves the unit circle. */
  ghost predicate TrigIsUnit(trig: real -> Direction) {
    forall a :: IsUnit(trig(a))
  }

  /** `new Vector3(Mathf.Cos(a), Mathf.Sin(a), 0)`. */
  function LineVector(d: Direction): Vec3 {
    Vec3(d.cos, d.sin, 0.0)
  }

  /** `new Vector3(-direction.y, direction.x, 0)`. */
  function PerpendicularVector(d: Direction): Vec3 {
    Vec3(-d.sin, d.cos, 0.0)
  }

  /**
   * `Random.insideUnitSphere * radius` with z set to 0, moved to `center`:
   * the circle sampler shared by both tools. The point lies within `radius`
   * of the centre in the xy-plane, at the centre's height.
   */
  function CirclePoint(center: Vec3, sphere: Vec3, radius: real): (p: Vec3)
    requires InUnitBall(sphere)
    ensures p.z == center.z
    ensures XYDistSq(p, center) <= radius * radius
  {
    var p := Add(Vec3(sphere.x * radius, sphere.y * radius, 0.0), center);
    assert XYDistSq(p, center) == (sphere.x * sphere.x + sphere.y * sphere.y) * (radius * radius);
    assert sphere.x * sphere.x + sphere.y * sphere.y <= 1.0 by {
      assert sphere.z * sphere.z >= 0.0;
    }
    MulBetween(sphere.x * sphere.x + sphere.y * sphere.y, radius * radius);
    p
  }
}
