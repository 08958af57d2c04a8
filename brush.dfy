/**
 * PrefabBrush, the older single-prefab editor window: a circle brush that
 * places instances of one prefab while the left button is dragged.
 *
 * Its placement loop differs from the spawner's: the spacing is the base
 * spacing itself (no per-attempt variation), the shape is always the circle,
 * objects are never mirrored, and it counts the rejected candidates whose
 * nearest-in-order blocker is an object that was already in the scene.
 *
 * Its OnSceneGUI has a second mouse-down block after the drag block; by then
 * the first mouse-down block has called `Event.Use()`, the event's type is
 * `Used`, and the second block never runs: a click alone places nothing, and
 * the first placement of a stroke happens on the first drag or move.
 */
module Brush {
  import opened Geometry
  import opened Draws
  import opened Settings
  import opened Scenes
  import opened Events
  import Spawner

  /**
   * `Mathf.RoundToInt(PI * r * r * density * 10)`: within one half of the
   * exact product, and never negative for a non-negative density.
   */
  function BrushCount(spawnRadius: real, objectDensity: real): (n: int)
    ensures n as real - 0.5 <= Spawner.Area(1, spawnRadius) * objectDensity * 10.0 <= n as real + 0.5
    ensures objectDensity >= 0.0 ==> n >= 0
  {
    var x := Spawner.Area(1, spawnRadius) * objectDensity * 10.0;
    assert objectDensity >= 0.0 ==> x >= 0.0;
    RoundToInt(x)
  }

  /** The index of the first position, from `k` on, closer than `d` to `p`. */
  function FirstCloserFrom(positions: seq<Vec3>, p: Vec3, d: real, k: nat): (i: Option<nat>)
    ensures i.Some? ==> k <= i.value < |positions| && CloserThan(positions[i.value], p, d)
    ensures i.Some? ==> forall j :: k <= j < i.value ==> !CloserThan(positions[j], p, d)
    ensures i.None? ==> forall j :: k <= j < |positions| ==> !CloserThan(positions[j], p, d)
    decreases |positions| - k
  {
    if k >= |positions| then None
    else if CloserThan(positions[k], p, d) then Some(k)
    else FirstCloserFrom(positions, p, d, k + 1)
  }

  /** The first position the `foreach` of the placement loop finds too close; none exactly when the candidate is free. */
  function FirstCloser(positions: seq<Vec3>, p: Vec3, d: real): (i: Option<nat>)
    ensures i.Some? <==> AnyCloser(positions, p, d)
    ensures i.Some? ==> i.value < |positions| && CloserThan(positions[i.value], p, d)
  {
    FirstCloserFrom(positions, p, d, 0)
  }

  /** The first position found too close is one of the pre-existing ones. */
  predicate BlockedByExisting(positions: seq<Vec3>, p: Vec3, d: real, existing: seq<Vec3>) {
    var first := FirstCloser(positions, p, d);
    first.Some? && positions[first.value] in existing
  }

  /** Everything one SpawnPrefabs call of the brush depends on. */
  datatype BrushEnv = BrushEnv(
    spawnRadius: real,
    objectDensity: real,
    prefab: Prefab,
    center: Vec3,
    existing: seq<Vec3>,
    draw: nat -> AttemptDraw)

  ghost predicate BrushEnvOk(env: BrushEnv) {
    DrawsInRange(env.draw)
  }

  /** `Random.insideUnitSphere * spawnRadius`, flattened to z = 0 and moved to the centre. */
  function CandidateAt(env: BrushEnv, a: nat): Vec3
    requires BrushEnvOk(env)
  {
    CirclePoint(env.center, env.draw(a).sphere, env.spawnRadius)
  }

  /** The new instance keeps the prefab's scale and is sorted by its height. */
  function BrushPlacement(prefab: Prefab, position: Vec3): Placement {
    Placement(prefab, position, prefab.scale, SortingOrder(position))
  }

  /** The loop's variables: occupied positions, placements, the skip counter, the attempt counter. */
  datatype BrushState = BrushState(positions: seq<Vec3>, placed: seq<Placement>, skipped: nat, attempts: nat)

  /** One iteration: place the candidate if it is free, else count a skip when its blocker pre-existed. */
  function BrushStep(env: BrushEnv, st: BrushState): BrushState
    requires BrushEnvOk(env)
  {
    var p := CandidateAt(env, st.attempts);
    var minD := Spawner.MinDistance(env.objectDensity);
    if FirstCloser(st.positions, p, minD).None? then
      BrushState(st.positions + [p], st.placed + [BrushPlacement(env.prefab, p)], st.skipped, st.attempts + 1)
    else
      var skip := if BlockedByExisting(st.positions, p, minD, env.existing) then 1 else 0;
      BrushState(st.positions, st.placed, st.skipped + skip, st.attempts + 1)
  }

  /**
   * Each iteration spends exactly one attempt; it places the candidate
   * exactly when nothing occupied is closer than the spacing, and counts a
   * skip (at most one) exactly when the first position found too close is
   * a pre-existing one.
   */
  lemma BrushStepCounts(env: BrushEnv, st: BrushState)
    requires BrushEnvOk(env)
    ensures var next := BrushStep(env, st);
      var p := CandidateAt(env, st.attempts);
      var minD := Spawner.MinDistance(env.objectDensity);
      && next.attempts == st.attempts + 1
      && (|next.placed| == |st.placed| + 1 <==> !AnyCloser(st.positions, p, minD))
      && (|next.placed| == |st.placed| <==> AnyCloser(st.positions, p, minD))
      && st.skipped <= next.skipped <= st.skipped + 1
      && (next.skipped == st.skipped + 1 <==> BlockedByExisting(st.positions, p, minD, env.existing))
  {
  }

  function BrushRun(env: BrushEnv, st: BrushState): BrushState
    requires BrushEnvOk(env)
    decreases Spawner.MaxAttempts(BrushCount(env.spawnRadius, env.objectDensity)) - st.attempts
  {
    var n := BrushCount(env.spawnRadius, env.objectDensity);
    if |st.placed| < n && st.attempts < Spawner.MaxAttempts(n) then BrushRun(env, BrushStep(env, st)) else st
  }

  /** A position inside the brush circle, at the centre's height. */
  predicate InCircle(center: Vec3, radius: real, p: Vec3) {
    p.z == center.z && XYDistSq(p, center) <= radius * radius
  }

  /** The occupied positions are the existing ones followed by the placed ones in order. */
  ghost predicate BrushOccupied(env: BrushEnv, st: BrushState) {
    st.positions == env.existing + Spawner.PlacedPositions(st.placed)
  }

  /** Each placement is an instance of the prefab inside the circle. */
  ghost predicate PlacedInCircle(env: BrushEnv, placed: seq<Placement>) {
    forall k :: 0 <= k < |placed| ==>
      placed[k] == BrushPlacement(env.prefab, placed[k].position) && InCircle(env.center, env.spawnRadius, placed[k].position)
  }

  /** Each attempt placed an object or counted at most one skip, and skips need a pre-existing object. */
  ghost predicate SkipsCounted(env: BrushEnv, st: BrushState) {
    && st.skipped + |st.placed| <= st.attempts
    && (env.existing == [] ==> st.skipped == 0)
  }

  /**
   * What the loop maintains: the occupied positions are the existing ones
   * and then the placed ones; each placement is an instance of the prefab
   * inside the circle, at least the spacing away from everything occupied
   * before it; each attempt placed an object or counted at most one skip,
   * and skips need a pre-existing object.
   */
  ghost predicate BrushInv(env: BrushEnv, st: BrushState) {
    && BrushOccupied(env, st)
    && Spawner.SpacedBy(env.existing, st.placed, Spawner.MinDistance(env.objectDensity))
    && PlacedInCircle(env, st.placed)
    && SkipsCounted(env, st)
  }

  /** The state after an accepted attempt. */
  function BrushAccept(env: BrushEnv, st: BrushState): BrushState
    requires BrushEnvOk(env)
  {
    var p := CandidateAt(env, st.attempts);
    BrushState(st.positions + [p], st.placed + [BrushPlacement(env.prefab, p)], st.skipped, st.attempts + 1)
  }

  lemma BrushAcceptKeepsOccupied(env: BrushEnv, st: BrushState)
    requires BrushEnvOk(env) && BrushOccupied(env, st)
    ensures BrushOccupied(env, BrushAccept(env, st))
  {
    var pl := BrushPlacement(env.prefab, CandidateAt(env, st.attempts));
    assert Spawner.PlacedPositions(st.placed + [pl]) == Spawner.PlacedPositions(st.placed) + [pl.position];
  }

  lemma BrushAcceptKeepsSpaced(env: BrushEnv, st: BrushState)
    requires BrushEnvOk(env) && BrushOccupied(env, st)
    requires Spawner.SpacedBy(env.existing, st.placed, Spawner.MinDistance(env.objectDensity))
    requires !AnyCloser(st.positions, CandidateAt(env, st.attempts), Spawner.MinDistance(env.objectDensity))
    ensures Spawner.SpacedBy(env.existing, BrushAccept(env, st).placed, Spawner.MinDistance(env.objectDensity))
  {
    var minD := Spawner.MinDistance(env.objectDensity);
    var next := BrushAccept(env, st);
    var pl := BrushPlacement(env.prefab, CandidateAt(env, st.attempts));
    forall k | 0 <= k < |next.placed|
      ensures !AnyCloser(Spawner.OccupiedBefore(env.existing, next.placed, k), next.placed[k].position, minD)
    {
      Spawner.OccupiedBeforeAppend(env.existing, st.placed, pl, k);
      if k == |st.placed| {
        Spawner.OccupiedBeforeAll(env.existing, st.placed);
      }
    }
  }

  lemma BrushAcceptKeepsInCircle(env: BrushEnv, st: BrushState)
    requires BrushEnvOk(env) && PlacedInCircle(env, st.placed)
    ensures PlacedInCircle(env, BrushAccept(env, st).placed)
  {
    var p := CandidateAt(env, st.attempts);
    assert InCircle(env.center, env.spawnRadius, p);
  }

  lemma BrushStepKeeps(env: BrushEnv, st: BrushState)
    requires BrushEnvOk(env) && BrushInv(env, st)
    ensures BrushInv(env, BrushStep(env, st))
  {
    var p := CandidateAt(env, st.attempts);
    var minD := Spawner.MinDistance(env.objectDensity);
    if FirstCloser(st.positions, p, minD).None? {
      assert BrushStep(env, st) == BrushAccept(env, st);
      BrushAcceptKeepsOccupied(env, st);
      BrushAcceptKeepsSpaced(env, st);
      BrushAcceptKeepsInCircle(env, st);
    }
  }

  lemma {:induction false} BrushRunKeeps(env: BrushEnv, st: BrushState)
    requires BrushEnvOk(env) && BrushInv(env, st)
    ensures BrushInv(env, BrushRun(env, st))
    decreases Spawner.MaxAttempts(BrushCount(env.spawnRadius, env.objectDensity)) - st.attempts
  {
    var n := BrushCount(env.spawnRadius, env.objectDensity);
    if |st.placed| < n && st.attempts < Spawner.MaxAttempts(n) {
      BrushStepKeeps(env, st);
      BrushRunKeeps(env, BrushStep(env, st));
    }
  }

  /**
   * The brush loop stops within its budget: at most `objectCount`
   * placements and `20 * objectCount` attempts, and on exit either the
   * target or the cap has been reached.
   */
  lemma {:induction false} BrushRunBounds(env: BrushEnv, st: BrushState)
    requires BrushEnvOk(env)
    requires |st.placed| <= IntMax(0, BrushCount(env.spawnRadius, env.objectDensity))
    requires st.attempts <= IntMax(0, Spawner.MaxAttempts(BrushCount(env.spawnRadius, env.objectDensity)))
    ensures var r := BrushRun(env, st); var n := BrushCount(env.spawnRadius, env.objectDensity);
      && |r.placed| <= IntMax(0, n)
      && st.attempts <= r.attempts <= IntMax(0, Spawner.MaxAttempts(n))
      && !(|r.placed| < n && r.attempts < Spawner.MaxAttempts(n))
    decreases Spawner.MaxAttempts(BrushCount(env.spawnRadius, env.objectDensity)) - st.attempts
  {
    var n := BrushCount(env.spawnRadius, env.objectDensity);
    if |st.placed| < n && st.attempts < Spawner.MaxAttempts(n) {
      BrushRunBounds(env, BrushStep(env, st));
    }
  }

  function InitialBrushState(existing: seq<Vec3>): BrushState {
    BrushState(existing, [], 0, 0)
  }

  /** The result of the brush's SpawnPrefabs on a scene: the placements and the skip count. */
  function BrushPlan(spawnRadius: real, objectDensity: real, prefab: Option<Prefab>, center: Vec3,
                     objects: seq<SceneObject>, draw: nat -> AttemptDraw): (seq<Placement>, nat)
    requires DrawsInRange(draw)
  {
    match prefab
    case None => ([], 0)
    case Some(p) =>
      var existing := ExistingPositions(objects, [p], center, spawnRadius);
      var r := BrushRun(BrushEnv(spawnRadius, objectDensity, p, center, existing, draw), InitialBrushState(existing));
      (r.placed, r.skipped)
  }

  /** Without a prefab to spawn the brush places nothing. */
  lemma BrushPlanWithoutPrefab(spawnRadius: real, objectDensity: real, center: Vec3, objects: seq<SceneObject>, draw: nat -> AttemptDraw)
    requires DrawsInRange(draw)
    ensures BrushPlan(spawnRadius, objectDensity, None, center, objects, draw) == ([], 0)
  {
  }

  /**
   * The brush loop from the existing positions places at most
   * `objectCount` instances of its prefab, all inside the circle, pairwise
   * at least the spacing apart and that far from every existing position;
   * each skip is a rejected attempt, and there are none when nothing existed.
   */
  lemma BrushLoopSound(env: BrushEnv)
    requires BrushEnvOk(env)
    ensures var r := BrushRun(env, InitialBrushState(env.existing));
      var n := BrushCount(env.spawnRadius, env.objectDensity);
      var gap := Spawner.MinDistance(env.objectDensity);
      && |r.placed| <= IntMax(0, n)
      && r.skipped + |r.placed| <= r.attempts <= IntMax(0, Spawner.MaxAttempts(n))
      && (env.existing == [] ==> r.skipped == 0)
      && PlacedInCircle(env, r.placed)
      && (forall j, k :: 0 <= j < k < |r.placed| ==> Apart(r.placed[j].position, r.placed[k].position, gap))
      && (forall e, k :: e in env.existing && 0 <= k < |r.placed| ==> Apart(e, r.placed[k].position, gap))
  {
    var init := InitialBrushState(env.existing);
    assert env.existing + Spawner.PlacedPositions([]) == env.existing;
    BrushRunKeeps(env, init);
    BrushRunBounds(env, init);
    var r := BrushRun(env, init);
    Spawner.SpacedByPairwise(env.existing, r.placed, Spawner.MinDistance(env.objectDensity));
    Spawner.SpacedByFromExisting(env.existing, r.placed, Spawner.MinDistance(env.objectDensity));
  }

  /**
   * A stroke of the brush with a prefab: the placements are instances of
   * that prefab inside the circle, at most `objectCount` of them, pairwise at
   * least the spacing apart and that far from every instance already near
   * the brush; there are no skips when no instance was near.
   */
  lemma BrushPlanSound(spawnRadius: real, objectDensity: real, prefab: Prefab, center: Vec3,
                       objects: seq<SceneObject>, draw: nat -> AttemptDraw)
    requires DrawsInRange(draw)
    ensures var plan := BrushPlan(spawnRadius, objectDensity, Some(prefab), center, objects, draw);
      var existing := ExistingPositions(objects, [prefab], center, spawnRadius);
      var gap := Spawner.MinDistance(objectDensity);
      && |plan.0| <= IntMax(0, BrushCount(spawnRadius, objectDensity))
      && (existing == [] ==> plan.1 == 0)
      && (forall k :: 0 <= k < |plan.0| ==> plan.0[k].prefab == prefab && InCircle(center, spawnRadius, plan.0[k].position))
      && (forall j, k :: 0 <= j < k < |plan.0| ==> Apart(plan.0[j].position, plan.0[k].position, gap))
      && (forall e, k :: e in existing && 0 <= k < |plan.0| ==> Apart(e, plan.0[k].position, gap))
  {
    var existing := ExistingPositions(objects, [prefab], center, spawnRadius);
    BrushLoopSound(BrushEnv(spawnRadius, objectDensity, prefab, center, existing, draw));
  }

  /** What the brush does with one event: the new stroke state, the centres it spawns at, the event afterwards. */
  datatype BrushReaction = BrushReaction(state: StrokeState, spawns: seq<Vec3>, event: InputEvent)

  /**
   * OnSceneGUI of the brush on one event, all four blocks: nothing unless
   * brush mode is on; the stroke blocks; on a firing drag a spawn at the ray
   * hit (the origin when the ray hits nothing); then the second mouse-down
   * block, which spawns again at the same point.
   */
  function BrushReact(brushMode: bool, st: StrokeState, e: InputEvent, now: real, spawnInterval: real, point: Option<Vec3>): BrushReaction {
    if !brushMode then BrushReaction(st, [], e)
    else
      var r := Stroke(st, e, now, spawnInterval);
      var spawnCenter := point.GetOr(Zero);
      var dragSpawn := if r.fired then [spawnCenter] else [];
      if IsLeftPress(r.event) then BrushReaction(r.state, dragSpawn + [spawnCenter], Use(r.event))
      else BrushReaction(r.state, dragSpawn, r.event)
  }

  /**
   * A click alone spawns nothing: the press block consumes the event before
   * the second mouse-down block looks at it. The stroke starts with the
   * timer at 0, so the first drag or move of the stroke spawns.
   */
  lemma ClickAloneSpawnsNothing(brushMode: bool, st: StrokeState, e: InputEvent, now: real, spawnInterval: real, point: Option<Vec3>)
    requires IsLeftPress(e)
    ensures BrushReact(brushMode, st, e, now, spawnInterval, point).spawns == []
    ensures brushMode ==> BrushReact(brushMode, st, e, now, spawnInterval, point).state == StrokeState(true, 0.0)
  {
  }

  /**
   * Every event spawns at most once, and exactly when the drag throttle
   * fires; a ray that hits nothing spawns at the origin.
   */
  lemma BrushSpawnsOnlyOnFiring(brushMode: bool, st: StrokeState, e: InputEvent, now: real, spawnInterval: real, point: Option<Vec3>)
    ensures var b := BrushReact(brushMode, st, e, now, spawnInterval, point);
      && |b.spawns| <= 1
      && (|b.spawns| == 1 <==> brushMode && Stroke(st, e, now, spawnInterval).fired)
      && (|b.spawns| == 1 ==> b.spawns[0] == if point.Some? then point.value else Zero)
  {
  }

  class PrefabBrush {
    var spawnRadius: real
    var objectDensity: real
    var prefabToSpawn: Option<Prefab>
    var brushMode: bool
    var isMouseDown: bool
    var lastSpawnTime: real
    var spawnInterval: real

    function StrokeOf(): StrokeState
      reads this
    {
      StrokeState(isMouseDown, lastSpawnTime)
    }

    /** A new window with the field initialisers. */
    constructor ()
      ensures spawnRadius == 1.0 && objectDensity == 0.5 && prefabToSpawn == None
      ensures !brushMode && StrokeOf() == Released && spawnInterval == 0.1
    {
      spawnRadius := 1.0;
      objectDensity := 0.5;
      prefabToSpawn := None;
      brushMode := false;
      isMouseDown := false;
      lastSpawnTime := 0.0;
      spawnInterval := 0.1;
    }

    /**
     * GetExistingPrefabPositions: the positions of the objects named like
     * the prefab (equal to, or starting with, its name) within twice the
     * radius of the centre; none without a prefab.
     */
    method GetExistingPrefabPositions(allObjects: seq<SceneObject>, center: Vec3, radius: real) returns (existingPositions: seq<Vec3>)
      ensures prefabToSpawn.None? ==> existingPositions == []
      ensures prefabToSpawn.Some? ==> existingPositions == ExistingPositions(allObjects, [prefabToSpawn.value], center, radius)
    {
      existingPositions := [];
      if prefabToSpawn.None? {
        return;
      }
      var prefabName := prefabToSpawn.value.name;
      for i := 0 to |allObjects|
        invariant existingPositions == ExistingPositions(allObjects[..i], [prefabToSpawn.value], center, radius)
      {
        var obj := allObjects[i];
        assert MatchesPrefab(obj.name, [prefabToSpawn.value]) <==> NameMatches(obj.name, prefabToSpawn.value);
        Spawner.ExistingPositionsSnoc(allObjects, i, [prefabToSpawn.value], center, radius);
        if obj.name == prefabName || prefabName <= obj.name {
          if WithinDistance(obj.position, center, radius * 2.0) {
            existingPositions := existingPositions + [obj.position];
          }
        }
      }
      assert allObjects[..|allObjects|] == allObjects;
    }

    /**
     * SpawnPrefabs: nothing without a prefab; otherwise the brush loop, each
     * accepted candidate instantiated in turn.
     */
    method SpawnPrefabs(center: Vec3, scene: Scene, draw: nat -> AttemptDraw) returns (placed: seq<Placement>, skippedDueToExisting: nat)
      requires DrawsInRange(draw) && scene.Valid()
      modifies scene
      ensures scene.Valid()
      ensures (placed, skippedDueToExisting) == BrushPlan(spawnRadius, objectDensity, prefabToSpawn, center, old(scene.objects), draw)
      ensures scene.objects == old(scene.objects) + Instances(placed, old(scene.nextHandle))
    {
      placed, skippedDueToExisting := [], 0;
      if prefabToSpawn.None? {
        assert Instances([], scene.nextHandle) == [];
        return;
      }
      var existingPositions := GetExistingPrefabPositions(scene.objects, center, spawnRadius);
      var env := BrushEnv(spawnRadius, objectDensity, prefabToSpawn.value, center, existingPositions, draw);
      placed, skippedDueToExisting := PlaceStroke(env, scene);
    }

    /**
     * OnSceneGUI on the event `e`: the stroke blocks, then one spawn when the
     * drag throttle fires. (The second mouse-down block is not written out:
     * BrushReact shows it never runs.) The new state, the consumed event and
     * the scene are those BrushReact describes.
     */
    method OnSceneGUI(e: InputEvent, now: real, point: Option<Vec3>, scene: Scene, draw: nat -> AttemptDraw)
      returns (handled: InputEvent)
      requires DrawsInRange(draw) && scene.Valid()
      modifies this, scene
      ensures spawnRadius == old(spawnRadius) && objectDensity == old(objectDensity) && prefabToSpawn == old(prefabToSpawn)
      ensures brushMode == old(brushMode) && spawnInterval == old(spawnInterval)
      ensures scene.Valid()
      ensures var b := BrushReact(old(brushMode), old(StrokeOf()), e, now, old(spawnInterval), point);
        && StrokeOf() == b.state
        && handled == b.event
        && scene.objects == old(scene.objects) + (
             if b.spawns == [] then []
             else Instances(BrushPlan(spawnRadius, objectDensity, prefabToSpawn, b.spawns[0], old(scene.objects), draw).0, old(scene.nextHandle)))
    {
      handled := e;
      if !brushMode {
        return;
      }
      if handled.kind == MouseDown && handled.button == 0 {
        isMouseDown := true;
        lastSpawnTime := 0.0;
        handled := Use(handled);
      }
      if handled.kind == MouseUp && handled.button == 0 {
        isMouseDown := false;
        handled := Use(handled);
      }
      if isMouseDown && (handled.kind == MouseDrag || handled.kind == MouseMove) {
        var currentTime := now;
        if currentTime - lastSpawnTime >= spawnInterval {
          var spawnCenter := Zero;
          if point.Some? {
            spawnCenter := point.value;
          }
          var placed, skipped := SpawnPrefabs(spawnCenter, scene, draw);
          lastSpawnTime := currentTime;
        }
        handled := Use(handled);
      }
    }
  }

  /**
   * The placement loop of the brush's SpawnPrefabs, from the positions of
   * the instances already near the brush: candidates are drawn until
   * `objectCount` are placed or `20 * objectCount` attempts are spent.
   */
  method PlaceStroke(env: BrushEnv, scene: Scene) returns (placed: seq<Placement>, skippedDueToExisting: nat)
    requires BrushEnvOk(env) && scene.Valid()
    modifies scene
    ensures scene.Valid()
    ensures var r := BrushRun(env, InitialBrushState(env.existing));
      placed == r.placed && skippedDueToExisting == r.skipped
    ensures scene.objects == old(scene.objects) + Instances(placed, old(scene.nextHandle))
  {
    var objectCount := BrushCount(env.spawnRadius, env.objectDensity);
    var minDistance := Spawner.MinDistance(env.objectDensity);
    var positions := env.existing;
    ghost var init := InitialBrushState(env.existing);
    ghost var h0 := scene.nextHandle;
    ghost var objects0 := scene.objects;

    placed, skippedDueToExisting := [], 0;
    var spawned := 0;
    var attempts := 0;
    var maxAttempts := Spawner.MaxAttempts(objectCount);

    while spawned < objectCount && attempts < maxAttempts
      invariant spawned == |placed|
      invariant BrushRun(env, BrushState(positions, placed, skippedDueToExisting, attempts)) == BrushRun(env, init)
      invariant scene.Valid() && scene.nextHandle == h0 + |placed|
      invariant scene.objects == objects0 + Instances(placed, h0)
      decreases maxAttempts - attempts
    {
      ghost var cur := BrushState(positions, placed, skippedDueToExisting, attempts);
      BrushRunUnfold(env, cur);
      var randomPosition := CandidateAt(env, attempts);

      var tooClose, blockedByExisting := CheckCandidate(positions, randomPosition, minDistance, env.existing);
      if blockedByExisting {
        skippedDueToExisting := skippedDueToExisting + 1;
      }
      if !tooClose {
        var placement := BrushPlacement(env.prefab, randomPosition);
        ghost var before := scene.objects;
        var h := scene.Instantiate(placement);
        SceneGains(objects0, placed, placement, h0, before, scene.objects);
        positions := positions + [randomPosition];
        placed := placed + [placement];
        spawned := spawned + 1;
      }
      attempts := attempts + 1;
      assert BrushState(positions, placed, skippedDueToExisting, attempts) == BrushStep(env, cur);
    }
    BrushRunDone(env, BrushState(positions, placed, skippedDueToExisting, attempts));
  }

  /**
   * The inner `foreach` of the brush loop: the candidate is too close when
   * some occupied position is closer than `minDistance`; the loop stops at
   * the first such position and reports whether it pre-existed.
   */
  method CheckCandidate(positions: seq<Vec3>, randomPosition: Vec3, minDistance: real, existingPositions: seq<Vec3>)
    returns (tooClose: bool, blockedByExisting: bool)
    ensures tooClose <==> FirstCloser(positions, randomPosition, minDistance).Some?
    ensures blockedByExisting == BlockedByExisting(positions, randomPosition, minDistance, existingPositions)
  {
    tooClose, blockedByExisting := false, false;
    var i := 0;
    while i < |positions|
      invariant 0 <= i <= |positions|
      invariant FirstCloserFrom(positions, randomPosition, minDistance, i) == FirstCloser(positions, randomPosition, minDistance)
    {
      if CloserThan(positions[i], randomPosition, minDistance) {
        tooClose := true;
        if positions[i] in existingPositions {
          blockedByExisting := true;
        }
        return;
      }
      i := i + 1;
    }
  }

  lemma BrushRunUnfold(env: BrushEnv, st: BrushState)
    requires BrushEnvOk(env)
    requires |st.placed| < BrushCount(env.spawnRadius, env.objectDensity)
    requires st.attempts < Spawner.MaxAttempts(BrushCount(env.spawnRadius, env.objectDensity))
    ensures BrushRun(env, st) == BrushRun(env, BrushStep(env, st))
  {
  }

  lemma BrushRunDone(env: BrushEnv, st: BrushState)
    requires BrushEnvOk(env)
    requires !(|st.placed| < BrushCount(env.spawnRadius, env.objectDensity)
               && st.attempts < Spawner.MaxAttempts(BrushCount(env.spawnRadius, env.objectDensity)))
    ensures BrushRun(env, st) == st
  {
  }
}
