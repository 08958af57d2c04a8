/**
 * PrefabSpawner: places instances of the configured prefabs around a
 * centre point. Shape 0 places one object at the centre; the area shapes
 * (1 circle, 2 square, 3 line) run a bounded rejection-sampling loop that
 * keeps every new object away from the objects already there and from the
 * ones placed before it.
 *
 * The loop is specified by `Run`, which performs it on a `LoopState`; the
 * method `SpawnMultipleObjects` is proved to compute the same thing, and the
 * lemmas below state what `Run` guarantees.
 */
module Spawner {
  import opened Geometry
  import opened Draws
  import opened Settings
  import opened Scenes

  /** CalculateArea. */
  function Area(shape: int, radius: real): (a: real)
    ensures (shape == 1 || shape == 2) ==> a >= 0.0
    ensures !(1 <= shape <= 3) ==> a == 0.0
  {
    assert MathfPi * radius * radius == MathfPi * (radius * radius);
    if shape == 1 then MathfPi * radius * radius
    else if shape == 2 then (radius * 2.0) * (radius * 2.0)
    else if shape == 3 then radius
    else 0.0
  }

  /**
   * The number of objects a stroke aims for,
   * `Mathf.RoundToInt(area * density * 10)`: within one half of the exact
   * product, and 0 for a shape that has no area formula.
   */
  function ObjectCount(s: BrushSettings): (n: int)
    ensures n as real - 0.5 <= Area(s.currentBrushShape, s.spawnRadius) * s.objectDensity * 10.0 <= n as real + 0.5
    ensures !(1 <= s.currentBrushShape <= 3) ==> n == 0
  {
    RoundToInt(Area(s.currentBrushShape, s.spawnRadius) * s.objectDensity * 10.0)
  }

  /**
   * The base spacing `Mathf.Lerp(5, 0.3, density)`: between 0.3 and 5, 5 for
   * a density of 0 or less and 0.3 for a density of 1 or more.
   */
  function MinDistance(density: real): (d: real)
    ensures 0.3 <= d <= 5.0
    ensures density <= 0.0 ==> d == 5.0
    ensures density >= 1.0 ==> d == 0.3
  {
    Lerp(5.0, 0.3, density)
  }

  /** A denser brush never asks for more spacing. */
  lemma MinDistanceAntitone(a: real, b: real)
    requires a <= b
    ensures MinDistance(b) <= MinDistance(a)
  {
    assert Clamp01(a) <= Clamp01(b);
  }

  /** The hard cap on attempts, `objectCount * 20`. */
  function MaxAttempts(objectCount: int): int {
    objectCount * 20
  }

  /** The direction of the line brush, `(cos, sin)` of `lineAngle` degrees. */
  function LineDirection(s: BrushSettings, trig: real -> Direction): Direction {
    trig(s.lineAngle * Deg2Rad)
  }

  /** `direction * along + perpendicular * across`. */
  function LineOffset(dir: Direction, along: real, across: real): Vec3 {
    Add(Scale(LineVector(dir), along), Scale(PerpendicularVector(dir), across))
  }

  /**
   * With a unit direction, `along` and `across` are recovered as the
   * projections of the offset on the direction and on its perpendicular.
   */
  lemma LineOffsetCoordinates(dir: Direction, along: real, across: real)
    requires IsUnit(dir)
    ensures Dot(LineOffset(dir, along, across), LineVector(dir)) == along
    ensures Dot(LineOffset(dir, along, across), PerpendicularVector(dir)) == across
    ensures LineOffset(dir, along, across).z == 0.0
  {
    var c, s := dir.cos, dir.sin;
    calc {
      Dot(LineOffset(dir, along, across), LineVector(dir));
      (c * along + -s * across) * c + (s * along + c * across) * s;
      along * (c * c + s * s);
      along;
    }
    calc {
      Dot(LineOffset(dir, along, across), PerpendicularVector(dir));
      (c * along + -s * across) * -s + (s * along + c * across) * c;
      across * (c * c + s * s);
      across;
    }
  }

  /**
   * GetRandomPosition: a candidate for the given shape. Circle: a point of
   * the unit ball scaled by the radius, flattened. Square: an offset drawn
   * on each axis from [-radius, radius]. Line: an offset along the line
   * direction from [-radius/2, radius/2] plus one across it from
   * [-minDistance/2, minDistance/2]. Any other shape: the centre.
   */
  function RandomPosition(s: BrushSettings, trig: real -> Direction, center: Vec3, minDistance: real, d: AttemptDraw): Vec3
    requires InRange(d)
  {
    var r := s.spawnRadius;
    match s.currentBrushShape
    case 1 => CirclePoint(center, d.sphere, r)
    case 2 => Add(Vec3(RangeFloat(-r, r, d.u1), RangeFloat(-r, r, d.u2), 0.0), center)
    case 3 =>
      var along := RangeFloat(-r / 2.0, r / 2.0, d.u1);
      var across := RangeFloat(-minDistance * 0.5, minDistance * 0.5, d.u2);
      Add(LineOffset(LineDirection(s, trig), along, across), center)
    case _ => Add(Zero, center)
  }

  /**
   * Where a candidate of the brush may lie: at the centre's height, within
   * the radius in the xy-plane (circle), within the radius on each axis
   * (square), within half the radius along the line and half the spacing
   * across it (line, for a unit direction), at the centre (other shapes).
   */
  ghost predicate InsideBrush(s: BrushSettings, trig: real -> Direction, center: Vec3, minDistance: real, p: Vec3) {
    && p.z == center.z
    && (s.currentBrushShape == 1 ==> XYDistSq(p, center) <= s.spawnRadius * s.spawnRadius)
    && (s.currentBrushShape == 2 ==>
          Abs(p.x - center.x) <= Abs(s.spawnRadius) && Abs(p.y - center.y) <= Abs(s.spawnRadius))
    && (s.currentBrushShape == 3 && IsUnit(LineDirection(s, trig)) ==>
          && Abs(Dot(Sub(p, center), LineVector(LineDirection(s, trig)))) <= Abs(s.spawnRadius) / 2.0
          && Abs(Dot(Sub(p, center), PerpendicularVector(LineDirection(s, trig)))) <= Abs(minDistance) / 2.0)
    && (!(1 <= s.currentBrushShape <= 3) ==> p == center)
  }

  /** Every candidate GetRandomPosition produces lies inside the brush. */
  lemma RandomPositionInBrush(s: BrushSettings, trig: real -> Direction, center: Vec3, minDistance: real, d: AttemptDraw)
    requires InRange(d)
    ensures InsideBrush(s, trig, center, minDistance, RandomPosition(s, trig, center, minDistance, d))
  {
    var r := s.spawnRadius;
    var p := RandomPosition(s, trig, center, minDistance, d);
    if s.currentBrushShape == 3 {
      var dir := LineDirection(s, trig);
      var along := RangeFloat(-r / 2.0, r / 2.0, d.u1);
      var across := RangeFloat(-minDistance * 0.5, minDistance * 0.5, d.u2);
      assert Sub(p, center) == LineOffset(dir, along, across);
      if IsUnit(dir) {
        LineOffsetCoordinates(dir, along, across);
      }
    }
  }

  /** The spacing of one attempt, `minDistance * Random.Range(0.7, 1.3)`. */
  function Tolerance(minDistance: real, d: AttemptDraw): real
    requires InRange(d)
  {
    minDistance * RangeFloat(0.7, 1.3, d.tolerance)
  }

  /** The spacing of an attempt lies between 0.7 and 1.3 times the base spacing. */
  lemma ToleranceBounds(minDistance: real, d: AttemptDraw)
    requires InRange(d) && minDistance >= 0.0
    ensures 0.7 * minDistance <= Tolerance(minDistance, d) <= 1.3 * minDistance
  {
    var f := RangeFloat(0.7, 1.3, d.tolerance);
    assert 0.7 <= f <= 1.3;
    MulNonneg(minDistance, f - 0.7);
    MulNonneg(minDistance, 1.3 - f);
    assert minDistance * (f - 0.7) == minDistance * f - 0.7 * minDistance;
    assert minDistance * (1.3 - f) == 1.3 * minDistance - minDistance * f;
    assert Tolerance(minDistance, d) == minDistance * f;
  }

  /**
   * ApplyRandomFlip: mirrors the x scale when flipping is enabled and the
   * draw exceeds 0.5; y and z never change.
   */
  function FlipX(scale: Vec3, randomFlipY: bool, u: real): (r: Vec3)
    ensures r.y == scale.y && r.z == scale.z
    ensures randomFlipY && u > 0.5 ==> r.x == -scale.x
    ensures !(randomFlipY && u > 0.5) ==> r == scale
  {
    if randomFlipY && u > 0.5 then Vec3(-scale.x, scale.y, scale.z) else scale
  }

  /** `validPrefabs[Random.Range(0, validPrefabs.Count)]`: always one of the valid prefabs. */
  function PickPrefab(valid: seq<Prefab>, d: AttemptDraw): (p: Prefab)
    requires |valid| > 0 && InRange(d)
    ensures p in valid
  {
    valid[RangeInt(|valid|, d.pick)]
  }

  /** The object placed at `position`: a random prefab, mirrored, sorted by height. */
  function MakePlacement(s: BrushSettings, valid: seq<Prefab>, position: Vec3, d: AttemptDraw): (pl: Placement)
    requires |valid| > 0 && InRange(d)
    ensures pl.prefab in valid && pl.position == position
    ensures pl.sortingOrder == SortingOrder(position)
  {
    var prefab := PickPrefab(valid, d);
    Placement(prefab, position, FlipX(prefab.scale, s.randomFlipY, d.flip), SortingOrder(position))
  }

  /** Everything one call of SpawnMultipleObjects depends on. */
  datatype SpawnEnv = SpawnEnv(
    settings: BrushSettings,
    valid: seq<Prefab>,
    trig: real -> Direction,
    center: Vec3,
    draw: nat -> AttemptDraw)

  ghost predicate EnvOk(env: SpawnEnv) {
    |env.valid| > 0 && DrawsInRange(env.draw)
  }

  function CandidateAt(env: SpawnEnv, a: nat): Vec3
    requires EnvOk(env)
  {
    RandomPosition(env.settings, env.trig, env.center, MinDistance(env.settings.objectDensity), env.draw(a))
  }

  function ToleranceAt(env: SpawnEnv, a: nat): real
    requires EnvOk(env)
  {
    Tolerance(MinDistance(env.settings.objectDensity), env.draw(a))
  }

  function PlacementAt(env: SpawnEnv, a: nat): Placement
    requires EnvOk(env)
  {
    MakePlacement(env.settings, env.valid, CandidateAt(env, a), env.draw(a))
  }

  function PlacedPositions(placed: seq<Placement>): (ps: seq<Vec3>)
    ensures |ps| == |placed|
    ensures forall i :: 0 <= i < |placed| ==> ps[i] == placed[i].position
  {
    seq(|placed|, i requires 0 <= i < |placed| => placed[i].position)
  }

  /**
   * The variables of the loop: the occupied positions, the placements so
   * far, and the attempt counter. `accepted` records which attempt produced
   * each placement; it exists only to state the spacing property.
   */
  datatype LoopState = LoopState(positions: seq<Vec3>, placed: seq<Placement>, accepted: seq<nat>, attempts: nat)

  function InitialState(existing: seq<Vec3>): LoopState {
    LoopState(existing, [], [], 0)
  }

  /** One iteration: draw a candidate and a tolerance, keep the candidate if nothing is closer. */
  function Step(env: SpawnEnv, st: LoopState): LoopState
    requires EnvOk(env)
  {
    var a := st.attempts;
    var p := CandidateAt(env, a);
    if !AnyCloser(st.positions, p, ToleranceAt(env, a)) then
      LoopState(st.positions + [p], st.placed + [PlacementAt(env, a)], st.accepted + [a], a + 1)
    else
      st.(attempts := a + 1)
  }

  /** `while (spawned < objectCount && attempts < maxAttempts)`, with `spawned` the number of placements. */
  function Run(env: SpawnEnv, st: LoopState): LoopState
    requires EnvOk(env)
    decreases MaxAttempts(ObjectCount(env.settings)) - st.attempts
  {
    var n := ObjectCount(env.settings);
    if |st.placed| < n && st.attempts < MaxAttempts(n) then Run(env, Step(env, st)) else st
  }

  /**
   * The loop stops within its budget: at most `objectCount` placements and
   * `20 * objectCount` attempts, at most one placement per attempt, and on
   * exit either the target or the cap has been reached.
   */
  lemma {:induction false} RunBounds(env: SpawnEnv, st: LoopState)
    requires EnvOk(env)
    requires |st.placed| <= IntMax(0, ObjectCount(env.settings))
    requires st.attempts <= IntMax(0, MaxAttempts(ObjectCount(env.settings)))
    ensures var r := Run(env, st); var n := ObjectCount(env.settings);
      && |r.placed| <= IntMax(0, n)
      && st.attempts <= r.attempts <= IntMax(0, MaxAttempts(n))
      && |r.placed| - |st.placed| <= r.attempts - st.attempts
      && !(|r.placed| < n && r.attempts < MaxAttempts(n))
      && (n <= 0 ==> r == st)
    decreases MaxAttempts(ObjectCount(env.settings)) - st.attempts
  {
    var n := ObjectCount(env.settings);
    if |st.placed| < n && st.attempts < MaxAttempts(n) {
      RunBounds(env, Step(env, st));
    }
  }

  /** The number of recorded attempts below `a`. */
  function AcceptedBefore(accepted: seq<nat>, a: nat): (k: nat)
    ensures k <= |accepted|
    ensures (forall i :: 0 <= i < |accepted| ==> accepted[i] < a) ==> k == |accepted|
  {
    if accepted == [] then 0
    else AcceptedBefore(accepted[..|accepted| - 1], a) + (if accepted[|accepted| - 1] < a then 1 else 0)
  }

  /** The positions occupied when the `k`-th placement was considered. */
  function OccupiedBefore(existing: seq<Vec3>, placed: seq<Placement>, k: nat): seq<Vec3>
    requires k <= |placed|
  {
    existing + PlacedPositions(placed[..k])
  }

  /** The occupied positions are the existing ones followed by the placed ones in order. */
  ghost predicate Occupied(existing: seq<Vec3>, st: LoopState) {
    st.positions == existing + PlacedPositions(st.placed)
  }

  /** One recorded attempt per placement, in increasing order, all already made. */
  ghost predicate AttemptOrder(st: LoopState) {
    && |st.accepted| == |st.placed|
    && (forall k :: 0 <= k < |st.accepted| ==> st.accepted[k] < st.attempts)
    && (forall k, l :: 0 <= k < l < |st.accepted| ==> st.accepted[k] < st.accepted[l])
  }

  /** Each placement is the one its attempt produces. */
  ghost predicate FromAttempts(env: SpawnEnv, st: LoopState)
    requires EnvOk(env)
  {
    |st.accepted| == |st.placed| &&
    forall k :: 0 <= k < |st.placed| ==> st.placed[k] == PlacementAt(env, st.accepted[k])
  }

  /** Each placement kept its attempt's tolerance from everything occupied before it. */
  ghost predicate Spaced(env: SpawnEnv, existing: seq<Vec3>, st: LoopState)
    requires EnvOk(env)
  {
    |st.accepted| == |st.placed| &&
    forall k :: 0 <= k < |st.placed| ==>
      !AnyCloser(OccupiedBefore(existing, st.placed, k), st.placed[k].position, ToleranceAt(env, st.accepted[k]))
  }

  /** Each attempt that placed nothing had a candidate too close to something occupied at the time. */
  ghost predicate RejectedTooClose(env: SpawnEnv, existing: seq<Vec3>, st: LoopState)
    requires EnvOk(env)
  {
    |st.accepted| == |st.placed| &&
    forall a :: 0 <= a < st.attempts && a !in st.accepted ==>
      AnyCloser(OccupiedBefore(existing, st.placed, AcceptedBefore(st.accepted, a)), CandidateAt(env, a), ToleranceAt(env, a))
  }

  /**
   * What the loop maintains: the occupied positions are the existing ones
   * followed by the placed ones in order; each placement comes from its own
   * attempt (in increasing order) and was at least that attempt's tolerance
   * away from every position occupied before it; and every attempt that
   * placed nothing had a candidate closer than its tolerance to a position
   * occupied at that time.
   */
  ghost predicate LoopInv(env: SpawnEnv, existing: seq<Vec3>, st: LoopState)
    requires EnvOk(env)
  {
    && Occupied(existing, st)
    && AttemptOrder(st)
    && FromAttempts(env, st)
    && Spaced(env, existing, st)
    && RejectedTooClose(env, existing, st)
  }

  lemma AcceptedBeforeAppend(accepted: seq<nat>, x: nat, a: nat)
    requires a <= x
    ensures AcceptedBefore(accepted + [x], a) == AcceptedBefore(accepted, a)
  {
    assert (accepted + [x])[..|accepted|] == accepted;
  }

  lemma OccupiedBeforeAppend(existing: seq<Vec3>, placed: seq<Placement>, x: Placement, k: nat)
    requires k <= |placed|
    ensures OccupiedBefore(existing, placed + [x], k) == OccupiedBefore(existing, placed, k)
  {
    assert (placed + [x])[..k] == placed[..k];
  }

  lemma OccupiedBeforeAll(existing: seq<Vec3>, placed: seq<Placement>)
    ensures OccupiedBefore(existing, placed, |placed|) == existing + PlacedPositions(placed)
  {
    assert placed[..|placed|] == placed;
  }

  /** The state after an accepted attempt. */
  function Accept(env: SpawnEnv, st: LoopState): LoopState
    requires EnvOk(env)
  {
    var a := st.attempts;
    LoopState(st.positions + [CandidateAt(env, a)], st.placed + [PlacementAt(env, a)], st.accepted + [a], a + 1)
  }

  lemma AcceptKeepsOccupied(env: SpawnEnv, existing: seq<Vec3>, st: LoopState)
    requires EnvOk(env) && Occupied(existing, st)
    ensures Occupied(existing, Accept(env, st))
  {
    var pl := PlacementAt(env, st.attempts);
    assert PlacedPositions(st.placed + [pl]) == PlacedPositions(st.placed) + [pl.position];
  }

  lemma AcceptKeepsSpaced(env: SpawnEnv, existing: seq<Vec3>, st: LoopState)
    requires EnvOk(env) && Occupied(existing, st) && Spaced(env, existing, st)
    requires !AnyCloser(st.positions, CandidateAt(env, st.attempts), ToleranceAt(env, st.attempts))
    ensures Spaced(env, existing, Accept(env, st))
  {
    var next := Accept(env, st);
    var pl := PlacementAt(env, st.attempts);
    forall k | 0 <= k < |next.placed|
      ensures !AnyCloser(OccupiedBefore(existing, next.placed, k), next.placed[k].position, ToleranceAt(env, next.accepted[k]))
    {
      OccupiedBeforeAppend(existing, st.placed, pl, k);
      if k == |st.placed| {
        OccupiedBeforeAll(existing, st.placed);
      }
    }
  }

  lemma AcceptKeepsRejected(env: SpawnEnv, existing: seq<Vec3>, st: LoopState)
    requires EnvOk(env) && AttemptOrder(st) && RejectedTooClose(env, existing, st)
    ensures RejectedTooClose(env, existing, Accept(env, st))
  {
    var next := Accept(env, st);
    var pl := PlacementAt(env, st.attempts);
    forall b | 0 <= b < next.attempts && b !in next.accepted
      ensures AnyCloser(OccupiedBefore(existing, next.placed, AcceptedBefore(next.accepted, b)), CandidateAt(env, b), ToleranceAt(env, b))
    {
      assert b !in st.accepted;
      AcceptedBeforeAppend(st.accepted, st.attempts, b);
      OccupiedBeforeAppend(existing, st.placed, pl, AcceptedBefore(st.accepted, b));
    }
  }

  lemma RejectKeepsRejected(env: SpawnEnv, existing: seq<Vec3>, st: LoopState)
    requires EnvOk(env) && Occupied(existing, st) && AttemptOrder(st) && RejectedTooClose(env, existing, st)
    requires AnyCloser(st.positions, CandidateAt(env, st.attempts), ToleranceAt(env, st.attempts))
    ensures RejectedTooClose(env, existing, st.(attempts := st.attempts + 1))
  {
    assert AcceptedBefore(st.accepted, st.attempts) == |st.accepted|;
    OccupiedBeforeAll(existing, st.placed);
  }

  lemma AcceptKeepsOrder(env: SpawnEnv, st: LoopState)
    requires EnvOk(env) && AttemptOrder(st) && FromAttempts(env, st)
    ensures AttemptOrder(Accept(env, st)) && FromAttempts(env, Accept(env, st))
  {
  }

  lemma RejectKeepsOthers(env: SpawnEnv, existing: seq<Vec3>, st: LoopState)
    requires EnvOk(env) && Occupied(existing, st) && AttemptOrder(st) && FromAttempts(env, st) && Spaced(env, existing, st)
    ensures var next := st.(attempts := st.attempts + 1);
      Occupied(existing, next) && AttemptOrder(next) && FromAttempts(env, next) && Spaced(env, existing, next)
  {
  }

  lemma StepKeepsInv(env: SpawnEnv, existing: seq<Vec3>, st: LoopState)
    requires EnvOk(env) && LoopInv(env, existing, st)
    ensures LoopInv(env, existing, Step(env, st))
  {
    if !AnyCloser(st.positions, CandidateAt(env, st.attempts), ToleranceAt(env, st.attempts)) {
      assert Step(env, st) == Accept(env, st);
      AcceptKeepsOccupied(env, existing, st);
      AcceptKeepsOrder(env, st);
      AcceptKeepsSpaced(env, existing, st);
      AcceptKeepsRejected(env, existing, st);
    } else {
      assert Step(env, st) == st.(attempts := st.attempts + 1);
      RejectKeepsOthers(env, existing, st);
      RejectKeepsRejected(env, existing, st);
    }
  }

  lemma {:induction false} RunKeepsInv(env: SpawnEnv, existing: seq<Vec3>, st: LoopState)
    requires EnvOk(env) && LoopInv(env, existing, st)
    ensures LoopInv(env, existing, Run(env, st))
    decreases MaxAttempts(ObjectCount(env.settings)) - st.attempts
  {
    var n := ObjectCount(env.settings);
    if |st.placed| < n && st.attempts < MaxAttempts(n) {
      StepKeepsInv(env, existing, st);
      RunKeepsInv(env, existing, Step(env, st));
    }
  }

  /**
   * From the existing positions, the loop places candidates that each keep
   * their own tolerance from everything occupied before them and rejects only
   * candidates that come too close; the occupied list grows by exactly the
   * accepted candidates, in order.
   */
  lemma SpawnLoopSpacing(env: SpawnEnv, existing: seq<Vec3>)
    requires EnvOk(env)
    ensures LoopInv(env, existing, Run(env, InitialState(existing)))
  {
    assert existing + PlacedPositions([]) == existing;
    RunKeepsInv(env, existing, InitialState(existing));
  }

  /**
   * Since every tolerance is at least `0.7 * minDistance`, placed objects
   * are pairwise at least that far apart and at least that far from every
   * existing position.
   */
  lemma SpawnLoopMinimumGap(env: SpawnEnv, existing: seq<Vec3>)
    requires EnvOk(env)
    ensures var r := Run(env, InitialState(existing));
      var gap := 0.7 * MinDistance(env.settings.objectDensity);
      && (forall j, k :: 0 <= j < k < |r.placed| ==> Apart(r.placed[j].position, r.placed[k].position, gap))
      && (forall e, k :: e in existing && 0 <= k < |r.placed| ==> Apart(e, r.placed[k].position, gap))
  {
    SpawnLoopSpacing(env, existing);
    SpacedGap(env, existing, Run(env, InitialState(existing)));
  }

  /** Every placement is at least `gap` away from everything occupied before it. */
  ghost predicate SpacedBy(existing: seq<Vec3>, placed: seq<Placement>, gap: real) {
    forall k :: 0 <= k < |placed| ==> !AnyCloser(OccupiedBefore(existing, placed, k), placed[k].position, gap)
  }

  lemma SpacedGap(env: SpawnEnv, existing: seq<Vec3>, st: LoopState)
    requires EnvOk(env) && Spaced(env, existing, st)
    ensures var gap := 0.7 * MinDistance(env.settings.objectDensity);
      && (forall j, k :: 0 <= j < k < |st.placed| ==> Apart(st.placed[j].position, st.placed[k].position, gap))
      && (forall e, k :: e in existing && 0 <= k < |st.placed| ==> Apart(e, st.placed[k].position, gap))
  {
    var gap := 0.7 * MinDistance(env.settings.objectDensity);
    SpacedAtBaseGap(env, existing, st);
    SpacedByPairwise(existing, st.placed, gap);
    SpacedByFromExisting(existing, st.placed, gap);
  }

  /** Every tolerance is at least `0.7 * minDistance`, so that much spacing holds throughout. */
  lemma SpacedAtBaseGap(env: SpawnEnv, existing: seq<Vec3>, st: LoopState)
    requires EnvOk(env) && Spaced(env, existing, st)
    ensures SpacedBy(existing, st.placed, 0.7 * MinDistance(env.settings.objectDensity))
  {
    var minDistance := MinDistance(env.settings.objectDensity);
    forall k | 0 <= k < |st.placed|
      ensures !AnyCloser(OccupiedBefore(existing, st.placed, k), st.placed[k].position, 0.7 * minDistance)
    {
      var tol := ToleranceAt(env, st.accepted[k]);
      assert !AnyCloser(OccupiedBefore(existing, st.placed, k), st.placed[k].position, tol);
      ToleranceBounds(minDistance, env.draw(st.accepted[k]));
      NotCloserWeaken(OccupiedBefore(existing, st.placed, k), st.placed[k].position, tol, 0.7 * minDistance);
    }
  }

  lemma SpacedByPairwise(existing: seq<Vec3>, placed: seq<Placement>, gap: real)
    requires gap > 0.0 && SpacedBy(existing, placed, gap)
    ensures forall j, k :: 0 <= j < k < |placed| ==> Apart(placed[j].position, placed[k].position, gap)
  {
    forall j, k | 0 <= j < k < |placed|
      ensures Apart(placed[j].position, placed[k].position, gap)
    {
      var before := OccupiedBefore(existing, placed, k);
      assert before[|existing| + j] == placed[j].position;
      NotCloserAt(before, |existing| + j, placed[k].position, gap);
    }
  }

  lemma SpacedByFromExisting(existing: seq<Vec3>, placed: seq<Placement>, gap: real)
    requires gap > 0.0 && SpacedBy(existing, placed, gap)
    ensures forall e, k :: e in existing && 0 <= k < |placed| ==> Apart(e, placed[k].position, gap)
  {
    forall e, k | e in existing && 0 <= k < |placed|
      ensures Apart(e, placed[k].position, gap)
    {
      var before := OccupiedBefore(existing, placed, k);
      var i :| 0 <= i < |existing| && existing[i] == e;
      assert before[i] == e;
      NotCloserAt(before, i, placed[k].position, gap);
    }
  }

  /** Every placed object is one of the valid prefabs, placed inside the brush. */
  lemma SpawnLoopInsideBrush(env: SpawnEnv, existing: seq<Vec3>)
    requires EnvOk(env)
    ensures var r := Run(env, InitialState(existing));
      forall k :: 0 <= k < |r.placed| ==>
        && r.placed[k].prefab in env.valid
        && InsideBrush(env.settings, env.trig, env.center, MinDistance(env.settings.objectDensity), r.placed[k].position)
  {
    var r := Run(env, InitialState(existing));
    SpawnLoopSpacing(env, existing);
    forall k | 0 <= k < |r.placed|
      ensures r.placed[k].prefab in env.valid
      ensures InsideBrush(env.settings, env.trig, env.center, MinDistance(env.settings.objectDensity), r.placed[k].position)
    {
      var a := r.accepted[k];
      assert r.placed[k] == PlacementAt(env, a);
      RandomPositionInBrush(env.settings, env.trig, env.center, MinDistance(env.settings.objectDensity), env.draw(a));
    }
  }

  /** SpawnPrefabs as a function of the scene it starts from. */
  function SpawnPlan(s: BrushSettings, trig: real -> Direction, center: Vec3, objects: seq<SceneObject>, draw: nat -> AttemptDraw): (placed: seq<Placement>)
    requires DrawsInRange(draw)
  {
    if !HasValidPrefabs(s.prefabsToSpawn) then []
    else
      var valid := ValidPrefabs(s.prefabsToSpawn);
      if s.currentBrushShape == 0 then [MakePlacement(s, valid, center, draw(0))]
      else
        var existing := ExistingPositions(objects, valid, center, s.spawnRadius);
        Run(SpawnEnv(s, valid, trig, center, draw), InitialState(existing)).placed
  }

  /** Without a non-null prefab nothing is placed. */
  lemma SpawnPlanWithoutPrefabs(s: BrushSettings, trig: real -> Direction, center: Vec3, objects: seq<SceneObject>, draw: nat -> AttemptDraw)
    requires DrawsInRange(draw)
    requires forall i :: 0 <= i < |s.prefabsToSpawn| ==> s.prefabsToSpawn[i].None?
    ensures SpawnPlan(s, trig, center, objects, draw) == []
  {
  }

  /** Shape 0 places exactly one object, exactly at the centre, from the valid prefabs. */
  lemma SpawnPlanSingle(s: BrushSettings, trig: real -> Direction, center: Vec3, objects: seq<SceneObject>, draw: nat -> AttemptDraw)
    requires DrawsInRange(draw)
    requires HasValidPrefabs(s.prefabsToSpawn) && s.currentBrushShape == 0
    ensures var placed := SpawnPlan(s, trig, center, objects, draw);
      && |placed| == 1
      && placed[0].position == center
      && Some(placed[0].prefab) in s.prefabsToSpawn
      && placed[0].sortingOrder == SortingOrder(center)
  {
  }

  /**
   * An area shape places at most `objectCount` objects (none when the count
   * rounds to 0 or below), pairwise at least `0.7 * minDistance` apart and
   * that far from every existing instance near the brush.
   */
  lemma SpawnPlanArea(s: BrushSettings, trig: real -> Direction, center: Vec3, objects: seq<SceneObject>, draw: nat -> AttemptDraw)
    requires DrawsInRange(draw)
    requires HasValidPrefabs(s.prefabsToSpawn) && s.currentBrushShape != 0
    ensures var placed := SpawnPlan(s, trig, center, objects, draw);
      var gap := 0.7 * MinDistance(s.objectDensity);
      var existing := ExistingPositions(objects, ValidPrefabs(s.prefabsToSpawn), center, s.spawnRadius);
      && |placed| <= IntMax(0, ObjectCount(s))
      && (ObjectCount(s) <= 0 ==> placed == [])
      && (forall j, k :: 0 <= j < k < |placed| ==> Apart(placed[j].position, placed[k].position, gap))
      && (forall e, k :: e in existing && 0 <= k < |placed| ==> Apart(e, placed[k].position, gap))
  {
    var valid := ValidPrefabs(s.prefabsToSpawn);
    var env := SpawnEnv(s, valid, trig, center, draw);
    var existing := ExistingPositions(objects, valid, center, s.spawnRadius);
    assert SpawnPlan(s, trig, center, objects, draw) == Run(env, InitialState(existing)).placed;
    RunBounds(env, InitialState(existing));
    SpawnLoopMinimumGap(env, existing);
  }

  /**
   * Over ground where no instance of the prefabs lies near the brush, an
   * area stroke whose count is positive places at least one object: its
   * first attempt finds nothing occupied, so it cannot be rejected.
   */
  lemma SpawnPlanAreaPlacesOne(s: BrushSettings, trig: real -> Direction, center: Vec3, objects: seq<SceneObject>, draw: nat -> AttemptDraw)
    requires DrawsInRange(draw)
    requires HasValidPrefabs(s.prefabsToSpawn) && s.currentBrushShape != 0 && ObjectCount(s) >= 1
    requires ExistingPositions(objects, ValidPrefabs(s.prefabsToSpawn), center, s.spawnRadius) == []
    ensures |SpawnPlan(s, trig, center, objects, draw)| >= 1
  {
    var env := SpawnEnv(s, ValidPrefabs(s.prefabsToSpawn), trig, center, draw);
    var r := Run(env, InitialState([]));
    assert SpawnPlan(s, trig, center, objects, draw) == r.placed;
    RunBounds(env, InitialState([]));
    SpawnLoopSpacing(env, []);
    FirstAttemptPlaces(env, r);
  }

  /** Starting from nothing occupied, a loop that has made an attempt has placed something. */
  lemma FirstAttemptPlaces(env: SpawnEnv, st: LoopState)
    requires EnvOk(env) && LoopInv(env, [], st) && st.attempts > 0
    ensures |st.placed| >= 1
  {
    AcceptedBeforeZero(st.accepted);
    assert OccupiedBefore([], st.placed, 0) == [];
    assert !AnyCloser([], CandidateAt(env, 0), ToleranceAt(env, 0));
    assert 0 in st.accepted;
  }

  /** No recorded attempt lies below attempt 0. */
  lemma {:induction false} AcceptedBeforeZero(accepted: seq<nat>)
    ensures AcceptedBefore(accepted, 0) == 0
  {
    if accepted != [] {
      AcceptedBeforeZero(accepted[..|accepted| - 1]);
    }
  }

  /**
   * A circle stroke of radius 2 at density 0.5 aims for a positive number
   * of objects, so over free ground it places at least one.
   */
  lemma CircleStrokeOverFreeGround(s: BrushSettings, trig: real -> Direction, center: Vec3, objects: seq<SceneObject>, draw: nat -> AttemptDraw)
    requires DrawsInRange(draw) && HasValidPrefabs(s.prefabsToSpawn)
    requires s.currentBrushShape == 1 && s.spawnRadius == 2.0 && s.objectDensity == 0.5
    requires ExistingPositions(objects, ValidPrefabs(s.prefabsToSpawn), center, s.spawnRadius) == []
    ensures |SpawnPlan(s, trig, center, objects, draw)| >= 1
  {
    assert Area(1, 2.0) == MathfPi * 4.0;
    SpawnPlanAreaPlacesOne(s, trig, center, objects, draw);
  }

  /** IsTooClose: whether some position is closer than `minDistance`. */
  method IsTooClose(position: Vec3, existingPositions: seq<Vec3>, minDistance: real) returns (tooClose: bool)
    ensures tooClose == AnyCloser(existingPositions, position, minDistance)
  {
    for i := 0 to |existingPositions|
      invariant !AnyCloser(existingPositions[..i], position, minDistance)
    {
      if CloserThan(existingPositions[i], position, minDistance) {
        return true;
      }
    }
    assert existingPositions[..|existingPositions|] == existingPositions;
    return false;
  }

  /**
   * GetExistingPrefabPositions: the position of every object whose name
   * matches a valid prefab and that lies within twice the radius; an object
   * is taken once, at the first prefab it matches.
   */
  method GetExistingPrefabPositions(s: BrushSettings, allObjects: seq<SceneObject>, center: Vec3, radius: real)
    returns (existingPositions: seq<Vec3>)
    ensures existingPositions == ExistingPositions(allObjects, ValidPrefabs(s.prefabsToSpawn), center, radius)
  {
    existingPositions := [];
    if !HasValidPrefabs(s.prefabsToSpawn) {
      NoExistingWithoutPrefabs(allObjects, center, radius);
      return;
    }
    var valid := ValidPrefabs(s.prefabsToSpawn);
    for i := 0 to |allObjects|
      invariant existingPositions == ExistingPositions(allObjects[..i], valid, center, radius)
    {
      var obj := allObjects[i];
      var add := MatchesNear(obj, valid, center, radius);
      if add {
        existingPositions := existingPositions + [obj.position];
      }
      ExistingPositionsSnoc(allObjects, i, valid, center, radius);
    }
    assert allObjects[..|allObjects|] == allObjects;
  }

  /**
   * The inner loop of GetExistingPrefabPositions: the prefabs are tried in
   * order, and the object is taken (once) at the first one whose name it
   * matches, provided it lies within twice the radius.
   */
  method MatchesNear(obj: SceneObject, valid: seq<Prefab>, center: Vec3, radius: real) returns (add: bool)
    ensures add == IsExisting(obj, valid, center, radius)
  {
    add := false;
    for j := 0 to |valid|
      invariant !(MatchesPrefab(obj.name, valid[..j]) && WithinDistance(obj.position, center, radius * 2.0))
    {
      MatchesPrefabSnoc(obj.name, valid, j);
      if NameMatches(obj.name, valid[j]) {
        if WithinDistance(obj.position, center, radius * 2.0) {
          add := true;
          assert valid[j] in valid;
          return;
        }
      }
    }
    assert valid[..|valid|] == valid;
  }

  lemma MatchesPrefabSnoc(name: string, valid: seq<Prefab>, j: int)
    requires 0 <= j < |valid|
    ensures MatchesPrefab(name, valid[..j + 1]) <==> MatchesPrefab(name, valid[..j]) || NameMatches(name, valid[j])
  {
    assert valid[..j + 1] == valid[..j] + [valid[j]];
  }

  lemma ExistingPositionsSnoc(objs: seq<SceneObject>, i: int, valid: seq<Prefab>, center: Vec3, radius: real)
    requires 0 <= i < |objs|
    ensures ExistingPositions(objs[..i + 1], valid, center, radius)
         == ExistingPositions(objs[..i], valid, center, radius)
          + (if IsExisting(objs[i], valid, center, radius) then [objs[i].position] else [])
  {
    assert objs[..i + 1] == objs[..i] + [objs[i]];
    ExistingPositionsAppend(objs[..i], [objs[i]], valid, center, radius);
  }

  /** SpawnSingleObject: one instance at the centre. */
  method SpawnSingleObject(s: BrushSettings, position: Vec3, valid: seq<Prefab>, scene: Scene, draw: nat -> AttemptDraw)
    returns (placement: Placement)
    requires |valid| > 0 && DrawsInRange(draw) && scene.Valid()
    modifies scene
    ensures scene.Valid()
    ensures placement == MakePlacement(s, valid, position, draw(0))
    ensures scene.objects == old(scene.objects) + Instances([placement], old(scene.nextHandle))
  {
    var randomPrefab := valid[RangeInt(|valid|, draw(0).pick)];
    placement := Placement(randomPrefab, position, FlipX(randomPrefab.scale, s.randomFlipY, draw(0).flip), SortingOrder(position));
    var h := scene.Instantiate(placement);
  }

  /** SpawnMultipleObjects: the rejection-sampling loop, instantiating each accepted candidate. */
  method SpawnMultipleObjects(s: BrushSettings, trig: real -> Direction, center: Vec3, valid: seq<Prefab>, scene: Scene, draw: nat -> AttemptDraw)
    returns (placed: seq<Placement>, attempts: nat)
    requires valid == ValidPrefabs(s.prefabsToSpawn) && |valid| > 0
    requires DrawsInRange(draw) && scene.Valid()
    modifies scene
    ensures scene.Valid()
    ensures var existing := ExistingPositions(old(scene.objects), valid, center, s.spawnRadius);
      var r := Run(SpawnEnv(s, valid, trig, center, draw), InitialState(existing));
      placed == r.placed && attempts == r.attempts
    ensures |placed| <= IntMax(0, ObjectCount(s)) && attempts <= IntMax(0, MaxAttempts(ObjectCount(s)))
    ensures scene.objects == old(scene.objects) + Instances(placed, old(scene.nextHandle))
  {
    var objectCount := ObjectCount(s);
    var minDistance := MinDistance(s.objectDensity);

    var existingPositions := GetExistingPrefabPositions(s, scene.objects, center, s.spawnRadius);
    var positions := existingPositions;

    var env := SpawnEnv(s, valid, trig, center, draw);
    ghost var init := InitialState(existingPositions);
    ghost var accepted: seq<nat> := [];
    ghost var h0 := scene.nextHandle;
    ghost var objects0 := scene.objects;
    RunBounds(env, init);

    var spawned := 0;
    attempts := 0;
    placed := [];
    var maxAttempts := MaxAttempts(objectCount);

    while spawned < objectCount && attempts < maxAttempts
      invariant spawned == |placed|
      invariant Run(env, LoopState(positions, placed, accepted, attempts)) == Run(env, init)
      invariant scene.Valid() && scene.nextHandle == h0 + |placed|
      invariant scene.objects == objects0 + Instances(placed, h0)
      decreases maxAttempts - attempts
    {
      ghost var cur := LoopState(positions, placed, accepted, attempts);
      RunUnfold(env, cur);
      var randomPosition := RandomPosition(s, trig, center, minDistance, draw(attempts));
      var randomizedMinDistance := Tolerance(minDistance, draw(attempts));
      var tooClose := IsTooClose(randomPosition, positions, randomizedMinDistance);
      if !tooClose {
        var placement := MakePlacement(s, valid, randomPosition, draw(attempts));
        ghost var before := scene.objects;
        var h := scene.Instantiate(placement);
        SceneGains(objects0, placed, placement, h0, before, scene.objects);
        positions := positions + [randomPosition];
        placed := placed + [placement];
        accepted := accepted + [attempts];
        spawned := spawned + 1;
      }
      attempts := attempts + 1;
      assert LoopState(positions, placed, accepted, attempts) == Step(env, cur);
    }
    RunDone(env, LoopState(positions, placed, accepted, attempts));
  }

  lemma RunUnfold(env: SpawnEnv, st: LoopState)
    requires EnvOk(env)
    requires |st.placed| < ObjectCount(env.settings) && st.attempts < MaxAttempts(ObjectCount(env.settings))
    ensures Run(env, st) == Run(env, Step(env, st))
  {
  }

  lemma RunDone(env: SpawnEnv, st: LoopState)
    requires EnvOk(env)
    requires !(|st.placed| < ObjectCount(env.settings) && st.attempts < MaxAttempts(ObjectCount(env.settings)))
    ensures Run(env, st) == st
  {
  }

  /**
   * SpawnPrefabs: nothing without a valid prefab, one object for shape 0,
   * the sampling loop otherwise. The scene gains exactly the planned objects.
   */
  method SpawnPrefabs(s: BrushSettings, trig: real -> Direction, center: Vec3, scene: Scene, draw: nat -> AttemptDraw)
    returns (placed: seq<Placement>)
    requires DrawsInRange(draw) && scene.Valid()
    modifies scene
    ensures scene.Valid()
    ensures placed == SpawnPlan(s, trig, center, old(scene.objects), draw)
    ensures scene.objects == old(scene.objects) + Instances(placed, old(scene.nextHandle))
  {
    if !HasValidPrefabs(s.prefabsToSpawn) {
      placed := [];
      assert Instances([], scene.nextHandle) == [];
      return;
    }
    var validPrefabs := ValidPrefabs(s.prefabsToSpawn);
    if s.currentBrushShape == 0 {
      var placement := SpawnSingleObject(s, center, validPrefabs, scene, draw);
      placed := [placement];
      return;
    }
    var attempts;
    placed, attempts := SpawnMultipleObjects(s, trig, center, validPrefabs, scene, draw);
  }
}
