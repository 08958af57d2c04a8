/**
 * PrefabEraser: removes instances of the configured prefabs from the scene.
 * An object is a candidate when its name matches a valid prefab and its
 * position lies in the brush area; the single shape removes the candidate
 * closest to the centre, every other shape removes all candidates.
 *
 * Distances are compared through their squares: `Vector3.Distance` is the
 * square root of `DistSq`, and the square root preserves order.
 */
module Eraser {
  import opened Geometry
  import opened Draws
  import opened Settings
  import opened Scenes
  import opened Spawner

  /** The half-width of the line eraser's band. */
  const LineHalfWidth: real := 0.3

  /** The radius within which the single eraser picks objects. */
  const SingleRadius: real := 0.5

  /** `center - direction * (spawnRadius / 2)`: where the line eraser starts. */
  function LineStart(s: BrushSettings, trig: real -> Direction, center: Vec3): Vec3 {
    Sub(center, Scale(LineVector(LineDirection(s, trig)), s.spawnRadius / 2.0))
  }

  /**
   * IsInLineArea: the projection of the point, measured from the line's
   * start, lies in [0, spawnRadius], and its distance across the line is at
   * most the half-width.
   */
  predicate InLineArea(s: BrushSettings, trig: real -> Direction, position: Vec3, center: Vec3) {
    var dir := LineDirection(s, trig);
    var toPoint := Sub(position, LineStart(s, trig, center));
    var projection := Dot(toPoint, LineVector(dir));
    0.0 <= projection <= s.spawnRadius && Abs(Dot(toPoint, PerpendicularVector(dir))) <= LineHalfWidth
  }

  /**
   * For a unit direction the line area is the band centred on the brush:
   * at most half the radius along the line from the centre and at most the
   * half-width across it.
   */
  lemma InLineAreaAroundCenter(s: BrushSettings, trig: real -> Direction, position: Vec3, center: Vec3)
    requires IsUnit(LineDirection(s, trig))
    ensures var dir := LineDirection(s, trig);
      var along := Dot(Sub(position, center), LineVector(dir));
      var across := Dot(Sub(position, center), PerpendicularVector(dir));
      InLineArea(s, trig, position, center) <==> Abs(along) <= s.spawnRadius / 2.0 && Abs(across) <= LineHalfWidth
  {
    var dir := LineDirection(s, trig);
    var c, sn, h := dir.cos, dir.sin, s.spawnRadius / 2.0;
    var v := Sub(position, center);
    var toPoint := Sub(position, LineStart(s, trig, center));
    assert toPoint == Vec3(v.x + c * h, v.y + sn * h, v.z);
    calc {
      Dot(toPoint, LineVector(dir));
      (v.x + c * h) * c + (v.y + sn * h) * sn;
      Dot(v, LineVector(dir)) + h * (c * c + sn * sn);
      Dot(v, LineVector(dir)) + h;
    }
    calc {
      Dot(toPoint, PerpendicularVector(dir));
      (v.x + c * h) * -sn + (v.y + sn * h) * c;
      Dot(v, PerpendicularVector(dir));
    }
  }

  /**
   * IsInArea: single, closer than 0.5 to the centre; circle, within the
   * radius; square, within the radius on the x and y axes; line, in the line
   * band; any other shape, nowhere.
   */
  predicate InArea(s: BrushSettings, trig: real -> Direction, position: Vec3, center: Vec3) {
    match s.currentBrushShape
    case 0 => CloserThan(position, center, SingleRadius)
    case 1 => WithinDistance(position, center, s.spawnRadius)
    case 2 =>
      var localPos := Sub(position, center);
      Abs(localPos.x) <= s.spawnRadius && Abs(localPos.y) <= s.spawnRadius
    case 3 => InLineArea(s, trig, position, center)
    case _ => false
  }

  /**
   * A line eraser of size 4 at angle 0, centred on the origin, selects a
   * point 0.2 off the line and 1.5 along it, but not one 0.5 off the line.
   */
  lemma LineEraserBand(s: BrushSettings, trig: real -> Direction)
    requires s.currentBrushShape == 3 && s.spawnRadius == 4.0 && s.lineAngle == 0.0
    requires trig(0.0) == Direction(1.0, 0.0)
    ensures InArea(s, trig, Vec3(1.5, 0.2, 0.0), Zero)
    ensures !InArea(s, trig, Vec3(1.5, 0.5, 0.0), Zero)
  {
    assert LineDirection(s, trig) == Direction(1.0, 0.0);
  }

  /** The circle eraser's area lies inside the square eraser's area of the same radius. */
  lemma CircleInsideSquare(s: BrushSettings, trig: real -> Direction, position: Vec3, center: Vec3)
    requires s.currentBrushShape == 1 && InArea(s, trig, position, center)
    ensures InArea(s.(currentBrushShape := 2), trig, position, center)
  {
    var d := Sub(position, center);
    var r := s.spawnRadius;
    assert d.x * d.x <= r * r && d.y * d.y <= r * r;
    AbsBySquare(d.x, r);
    AbsBySquare(d.y, r);
  }

  lemma AbsBySquare(x: real, r: real)
    requires r >= 0.0 && x * x <= r * r
    ensures Abs(x) <= r
  {
    var a := Abs(x);
    if a > r {
      assert a * a == x * x;
      assert a * a - r * r == (a - r) * (a + r);
      MulPositive(a - r, a + r);
    }
  }

  /** An object the eraser selects: it matches a valid prefab and lies in the area. */
  predicate IsCandidate(s: BrushSettings, trig: real -> Direction, o: SceneObject, center: Vec3) {
    MatchesPrefab(o.name, ValidPrefabs(s.prefabsToSpawn)) && InArea(s, trig, o.position, center)
  }

  /** FindObjectsInArea as a filter of the scene's objects, in their order. */
  function Candidates(s: BrushSettings, trig: real -> Direction, objs: seq<SceneObject>, center: Vec3): (cs: seq<SceneObject>)
    ensures |cs| <= |objs|
    ensures forall o :: o in cs <==> o in objs && IsCandidate(s, trig, o, center)
  {
    if objs == [] then []
    else
      var first := if IsCandidate(s, trig, objs[0], center) then [objs[0]] else [];
      first + Candidates(s, trig, objs[1..], center)
  }

  lemma {:induction false} CandidatesAppend(s: BrushSettings, trig: real -> Direction, a: seq<SceneObject>, b: seq<SceneObject>, center: Vec3)
    ensures Candidates(s, trig, a + b, center) == Candidates(s, trig, a, center) + Candidates(s, trig, b, center)
  {
    if a == [] {
      assert a + b == b;
    } else {
      assert (a + b)[1..] == a[1..] + b;
      CandidatesAppend(s, trig, a[1..], b, center);
    }
  }

  /**
   * FindClosestObject: the index of an object nearest to the centre; on a
   * tie the earliest one, since only a strictly smaller distance replaces
   * the current choice.
   */
  function ClosestIndex(objs: seq<SceneObject>, center: Vec3): (i: nat)
    requires |objs| > 0
    ensures i < |objs|
    ensures forall j :: 0 <= j < |objs| ==> DistSq(objs[i].position, center) <= DistSq(objs[j].position, center)
    ensures forall j :: 0 <= j < i ==> DistSq(objs[j].position, center) > DistSq(objs[i].position, center)
  {
    if |objs| == 1 then 0
    else
      var i := ClosestIndex(objs[..|objs| - 1], center);
      if DistSq(objs[|objs| - 1].position, center) < DistSq(objs[i].position, center) then |objs| - 1 else i
  }

  /** The objects EraseObjects destroys: the closest candidate in single mode, every candidate otherwise. */
  function ErasedObjects(s: BrushSettings, trig: real -> Direction, objs: seq<SceneObject>, center: Vec3): seq<SceneObject> {
    if !HasValidPrefabs(s.prefabsToSpawn) then []
    else
      var cs := Candidates(s, trig, objs, center);
      if s.currentBrushShape == 0 && |cs| > 0 then [cs[ClosestIndex(cs, center)]]
      else cs
  }

  /** The handles of the destroyed objects. */
  function ErasedHandles(s: BrushSettings, trig: real -> Direction, objs: seq<SceneObject>, center: Vec3): set<nat> {
    Handles(ErasedObjects(s, trig, objs, center))
  }

  /**
   * In a scene with distinct handles, removing the handles of some of its
   * objects removes exactly those objects.
   */
  lemma WithoutHandlesOf(objs: seq<SceneObject>, erased: seq<SceneObject>)
    requires DistinctHandles(objs) && forall e :: e in erased ==> e in objs
    ensures forall o :: o in Without(objs, Handles(erased)) <==> o in objs && o !in erased
  {
    forall o | o in objs && o.handle in Handles(erased)
      ensures o in erased
    {
      var e :| e in erased && e.handle == o.handle;
      SameHandleSameObject(objs, e, o);
    }
  }

  /** Without a valid prefab the eraser removes nothing. */
  lemma EraseWithoutPrefabs(s: BrushSettings, trig: real -> Direction, objs: seq<SceneObject>, center: Vec3)
    requires !HasValidPrefabs(s.prefabsToSpawn)
    ensures Without(objs, ErasedHandles(s, trig, objs, center)) == objs
  {
    assert ErasedHandles(s, trig, objs, center) == Handles([]) == {};
    WithoutAbsent(objs, {});
  }

  /**
   * The single eraser removes exactly one object, the candidate closest to
   * the centre (the earliest on a tie), which lies closer than 0.5 to it;
   * every other object stays. With no candidate the scene stays as it is.
   */
  lemma EraseSingle(s: BrushSettings, trig: real -> Direction, objs: seq<SceneObject>, center: Vec3)
    requires HasValidPrefabs(s.prefabsToSpawn) && s.currentBrushShape == 0 && DistinctHandles(objs)
    ensures var cs := Candidates(s, trig, objs, center);
      var rest := Without(objs, ErasedHandles(s, trig, objs, center));
      && (|cs| == 0 ==> rest == objs)
      && (|cs| > 0 ==>
            var victim := cs[ClosestIndex(cs, center)];
            && victim in objs
            && CloserThan(victim.position, center, SingleRadius)
            && (forall o :: o in cs ==> DistSq(victim.position, center) <= DistSq(o.position, center))
            && |rest| == |objs| - 1
            && (forall o :: o in rest <==> o in objs && o != victim))
  {
    var cs := Candidates(s, trig, objs, center);
    if |cs| == 0 {
      assert Handles(cs) == {};
      WithoutAbsent(objs, {});
    } else {
      var victim := cs[ClosestIndex(cs, center)];
      assert victim in cs;
      assert Handles([victim]) == {victim.handle} by {
        assert victim in [victim];
      }
      WithoutOne(objs, victim);
    }
  }

  /**
   * An area eraser removes every candidate and nothing else: an object
   * survives exactly when it is not a matching object inside the area.
   */
  lemma EraseArea(s: BrushSettings, trig: real -> Direction, objs: seq<SceneObject>, center: Vec3)
    requires HasValidPrefabs(s.prefabsToSpawn) && s.currentBrushShape != 0 && DistinctHandles(objs)
    ensures var rest := Without(objs, ErasedHandles(s, trig, objs, center));
      forall o :: o in rest <==> o in objs && !IsCandidate(s, trig, o, center)
  {
    WithoutHandlesOf(objs, Candidates(s, trig, objs, center));
  }

  /**
   * What a circle stroke of the spawner places, a circle stroke of the
   * eraser at the same centre and radius picks up again.
   */
  lemma CircleEraserCoversCircleBrush(s: BrushSettings, trig: real -> Direction, center: Vec3, d: AttemptDraw, pl: Placement, h: nat)
    requires s.currentBrushShape == 1 && s.spawnRadius >= 0.0 && InRange(d)
    requires pl.position == RandomPosition(s, trig, center, MinDistance(s.objectDensity), d)
    requires pl.prefab in ValidPrefabs(s.prefabsToSpawn)
    ensures IsCandidate(s, trig, Instance(pl, h), center)
  {
    RandomPositionInBrush(s, trig, center, MinDistance(s.objectDensity), d);
    assert DistSq(pl.position, center) == XYDistSq(pl.position, center);
  }

  /** Likewise for the square shape. */
  lemma SquareEraserCoversSquareBrush(s: BrushSettings, trig: real -> Direction, center: Vec3, d: AttemptDraw, pl: Placement, h: nat)
    requires s.currentBrushShape == 2 && s.spawnRadius >= 0.0 && InRange(d)
    requires pl.position == RandomPosition(s, trig, center, MinDistance(s.objectDensity), d)
    requires pl.prefab in ValidPrefabs(s.prefabsToSpawn)
    ensures IsCandidate(s, trig, Instance(pl, h), center)
  {
    RandomPositionInBrush(s, trig, center, MinDistance(s.objectDensity), d);
  }

  /**
   * The line brush scatters objects up to half the spacing off the line
   * while the line eraser's band is 0.3 wide on each side, so a line stroke
   * is picked up again only when the spacing is at most 0.6 (a density near
   * 1); the lengths of the two agree.
   */
  lemma LineEraserCoversLineBrush(s: BrushSettings, trig: real -> Direction, center: Vec3, d: AttemptDraw, pl: Placement, h: nat)
    requires s.currentBrushShape == 3 && s.spawnRadius >= 0.0 && InRange(d)
    requires IsUnit(LineDirection(s, trig)) && MinDistance(s.objectDensity) <= 2.0 * LineHalfWidth
    requires pl.position == RandomPosition(s, trig, center, MinDistance(s.objectDensity), d)
    requires pl.prefab in ValidPrefabs(s.prefabsToSpawn)
    ensures IsCandidate(s, trig, Instance(pl, h), center)
  {
    RandomPositionInBrush(s, trig, center, MinDistance(s.objectDensity), d);
    InLineAreaAroundCenter(s, trig, pl.position, center);
  }

  /** MatchesPrefab: a scan of the valid prefabs that stops at the first match. */
  method MatchesPrefabOf(obj: SceneObject, validPrefabs: seq<Prefab>) returns (matches: bool)
    ensures matches == MatchesPrefab(obj.name, validPrefabs)
  {
    for i := 0 to |validPrefabs|
      invariant !MatchesPrefab(obj.name, validPrefabs[..i])
    {
      MatchesPrefabSnoc(obj.name, validPrefabs, i);
      if obj.name == validPrefabs[i].name || validPrefabs[i].name <= obj.name {
        assert validPrefabs[i] in validPrefabs;
        return true;
      }
    }
    assert validPrefabs[..|validPrefabs|] == validPrefabs;
    return false;
  }

  /** FindObjectsInArea: the candidates among the scene's objects, in enumeration order. */
  method FindObjectsInArea(s: BrushSettings, trig: real -> Direction, allObjects: seq<SceneObject>, center: Vec3)
    returns (objectsToDelete: seq<SceneObject>)
    ensures objectsToDelete == Candidates(s, trig, allObjects, center)
  {
    objectsToDelete := [];
    var validPrefabs := ValidPrefabs(s.prefabsToSpawn);
    for i := 0 to |allObjects|
      invariant objectsToDelete == Candidates(s, trig, allObjects[..i], center)
    {
      var obj := allObjects[i];
      assert allObjects[..i + 1] == allObjects[..i] + [obj];
      CandidatesAppend(s, trig, allObjects[..i], [obj], center);
      var matches := MatchesPrefabOf(obj, validPrefabs);
      if !matches {
        continue;
      }
      if InArea(s, trig, obj.position, center) {
        objectsToDelete := objectsToDelete + [obj];
      }
    }
    assert allObjects[..|allObjects|] == allObjects;
  }

  /** FindClosestObject: starts from the first object and keeps the first strictly closer one. */
  method FindClosestObject(objects: seq<SceneObject>, center: Vec3) returns (closest: SceneObject)
    requires |objects| > 0
    ensures closest == objects[ClosestIndex(objects, center)]
  {
    var k := 0;
    closest := objects[0];
    var minDist := DistSq(closest.position, center);
    for i := 0 to |objects|
      invariant 0 <= k < |objects| && closest == objects[k] && minDist == DistSq(closest.position, center)
      invariant k == ClosestIndex(objects[..if i == 0 then 1 else i], center)
    {
      var dist := DistSq(objects[i].position, center);
      if i > 0 {
        assert objects[..i + 1][..i] == objects[..i];
      }
      if dist < minDist {
        minDist := dist;
        closest := objects[i];
        k := i;
      }
    }
    assert objects[..|objects|] == objects;
  }

  /**
   * EraseObjects: removes the closest candidate in single mode and every
   * candidate otherwise; with no valid prefab, nothing.
   */
  method EraseObjects(s: BrushSettings, trig: real -> Direction, center: Vec3, scene: Scene)
    requires scene.Valid()
    modifies scene
    ensures scene.Valid() && scene.nextHandle == old(scene.nextHandle)
    ensures scene.objects == Without(old(scene.objects), ErasedHandles(s, trig, old(scene.objects), center))
    ensures forall o :: o in scene.objects <==> o in old(scene.objects) && o !in ErasedObjects(s, trig, old(scene.objects), center)
  {
    ghost var before := scene.objects;
    ghost var erased := ErasedObjects(s, trig, before, center);
    assert forall e :: e in erased ==> e in before by {
      if HasValidPrefabs(s.prefabsToSpawn) {
        var cs := Candidates(s, trig, before, center);
        if s.currentBrushShape == 0 && |cs| > 0 {
          assert cs[ClosestIndex(cs, center)] in cs;
        }
      }
    }
    WithoutHandlesOf(before, erased);
    if !HasValidPrefabs(s.prefabsToSpawn) {
      EraseWithoutPrefabs(s, trig, scene.objects, center);
      return;
    }
    var objectsToDelete := FindObjectsInArea(s, trig, scene.objects, center);
    if s.currentBrushShape == 0 && |objectsToDelete| > 0 {
      var closest := FindClosestObject(objectsToDelete, center);
      assert Handles([closest]) == {closest.handle} by {
        assert closest in [closest];
      }
      scene.Destroy(closest.handle);
    } else {
      DestroyEach(scene, objectsToDelete);
    }
  }

  /** The `foreach` of EraseObjects: each listed object is destroyed in turn. */
  method DestroyEach(scene: Scene, objectsToDelete: seq<SceneObject>)
    requires scene.Valid()
    modifies scene
    ensures scene.Valid() && scene.nextHandle == old(scene.nextHandle)
    ensures scene.objects == Without(old(scene.objects), Handles(objectsToDelete))
  {
    ghost var objects0 := scene.objects;
    WithoutAbsent(objects0, {});
    assert Handles(objectsToDelete[..0]) == {};
    for i := 0 to |objectsToDelete|
      invariant scene.Valid() && scene.nextHandle == old(scene.nextHandle)
      invariant scene.objects == Without(objects0, Handles(objectsToDelete[..i]))
    {
      WithoutUnion(objects0, Handles(objectsToDelete[..i]), {objectsToDelete[i].handle});
      assert objectsToDelete[..i + 1] == objectsToDelete[..i] + [objectsToDelete[i]];
      HandlesSnoc(objectsToDelete[..i], objectsToDelete[i]);
      scene.Destroy(objectsToDelete[i].handle);
    }
    assert objectsToDelete[..|objectsToDelete|] == objectsToDelete;
  }
}
