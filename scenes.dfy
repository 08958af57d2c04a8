/**
 * The editor scene as the tools see it: the objects `FindObjectsByType`
 * enumerates (a handle, a name, a transform), instantiation of a prefab and
 * `Undo.DestroyObjectImmediate`; and the name rule by which scene objects
 * are recognised as instances of a prefab.
 */
module Scenes {
  import opened Geometry
  import opened Settings

  /** A GameObject of the scene: handle, name, position, local scale and sprite sorting order. */
  datatype SceneObject = SceneObject(handle: nat, name: string, position: Vec3, scale: Vec3, sortingOrder: int)

  /** One accepted placement: the prefab, where it goes, its scale after mirroring, its sorting order. */
  datatype Placement = Placement(prefab: Prefab, position: Vec3, scale: Vec3, sortingOrder: int)

  /**
   * SetupSortingOrder: `Mathf.RoundToInt(-position.y * 100)`, so that objects
   * lower on the map are drawn over the ones above them.
   */
  function SortingOrder(position: Vec3): int {
    RoundToInt(-position.y * 100.0)
  }

  /** Moving up the map never raises the sorting order. */
  lemma SortingOrderAntitone(a: Vec3, b: Vec3)
    requires a.y <= b.y
    ensures SortingOrder(b) <= SortingOrder(a)
  {
    RoundToIntMonotone(-b.y * 100.0, -a.y * 100.0);
  }

  /** The object the scene holds after a placement is instantiated under handle `h` (its name is the prefab's). */
  function Instance(p: Placement, h: nat): SceneObject {
    SceneObject(h, p.prefab.name, p.position, p.scale, p.sortingOrder)
  }

  /** The instances of a list of placements, under consecutive handles from `h0`. */
  function Instances(ps: seq<Placement>, h0: nat): (objs: seq<SceneObject>)
    ensures |objs| == |ps|
    ensures forall i :: 0 <= i < |ps| ==> objs[i] == Instance(ps[i], h0 + i)
  {
    seq(|ps|, i requires 0 <= i < |ps| => Instance(ps[i], h0 + i))
  }

  /**
   * A scene holding `objects0` and the instances of `placed` gains the
   * instance of `p` under the next handle: it then holds the instances of
   * `placed + [p]`.
   */
  lemma SceneGains(objects0: seq<SceneObject>, placed: seq<Placement>, p: Placement, h0: nat,
                    before: seq<SceneObject>, after: seq<SceneObject>)
    requires before == objects0 + Instances(placed, h0)
    requires after == before + [Instance(p, h0 + |placed|)]
    ensures after == objects0 + Instances(placed + [p], h0)
  {
    assert Instances(placed + [p], h0) == Instances(placed, h0) + [Instance(p, h0 + |placed|)];
  }

  function Handles(objs: seq<SceneObject>): set<nat> {
    set o | o in objs :: o.handle
  }

  /** No two objects of the scene share a handle. */
  predicate DistinctHandles(objs: seq<SceneObject>) {
    forall i, j :: 0 <= i < j < |objs| ==> objs[i].handle != objs[j].handle
  }

  /** In a scene with distinct handles, a handle names one object. */
  lemma SameHandleSameObject(objs: seq<SceneObject>, o: SceneObject, p: SceneObject)
    requires DistinctHandles(objs) && o in objs && p in objs && o.handle == p.handle
    ensures o == p
  {
    var i :| 0 <= i < |objs| && objs[i] == o;
    var j :| 0 <= j < |objs| && objs[j] == p;
    assert !(i < j) && !(j < i);
  }

  /**
   * A stroke's instances take the consecutive handles from `h0`, one each:
   * no two of them share a handle.
   */
  lemma InstancesHandles(ps: seq<Placement>, h0: nat)
    ensures DistinctHandles(Instances(ps, h0))
    ensures forall k :: k in Handles(Instances(ps, h0)) <==> h0 <= k < h0 + |ps|
  {
    var objs := Instances(ps, h0);
    forall k: nat | h0 <= k < h0 + |ps|
      ensures k in Handles(objs)
    {
      assert objs[k - h0] in objs;
    }
  }

  lemma HandlesSnoc(objs: seq<SceneObject>, o: SceneObject)
    ensures Handles(objs + [o]) == Handles(objs) + {o.handle}
  {
    forall h | h in Handles(objs + [o])
      ensures h in Handles(objs) + {o.handle}
    {
      var q :| q in objs + [o] && q.handle == h;
      if q != o {
        assert q in objs;
      }
    }
    forall h | h in Handles(objs)
      ensures h in Handles(objs + [o])
    {
      var q :| q in objs && q.handle == h;
      assert q in objs + [o];
    }
    assert o in objs + [o];
  }

  /** The objects whose handle is not in `hs`, in their order. */
  function Without(objs: seq<SceneObject>, hs: set<nat>): (rest: seq<SceneObject>)
    ensures |rest| <= |objs|
    ensures forall o :: o in rest <==> o in objs && o.handle !in hs
  {
    if objs == [] then []
    else (if objs[0].handle in hs then [] else [objs[0]]) + Without(objs[1..], hs)
  }

  /** Removing handles no object carries leaves the scene as it is. */
  lemma {:induction false} WithoutAbsent(objs: seq<SceneObject>, hs: set<nat>)
    requires forall o :: o in objs ==> o.handle !in hs
    ensures Without(objs, hs) == objs
  {
    if objs != [] {
      assert objs[0] in objs;
      WithoutAbsent(objs[1..], hs);
    }
  }

  /** Removing handles keeps the remaining handles distinct. */
  lemma {:induction false} WithoutDistinct(objs: seq<SceneObject>, hs: set<nat>)
    requires DistinctHandles(objs)
    ensures DistinctHandles(Without(objs, hs))
  {
    if objs != [] {
      var tail := objs[1..];
      assert DistinctHandles(tail) by {
        forall i, j | 0 <= i < j < |tail| ensures tail[i].handle != tail[j].handle {
          assert tail[i] == objs[i + 1] && tail[j] == objs[j + 1];
        }
      }
      WithoutDistinct(tail, hs);
      var rest := Without(tail, hs);
      forall k | 0 <= k < |rest|
        ensures rest[k].handle != objs[0].handle
      {
        assert rest[k] in rest;
        var m :| 0 <= m < |tail| && tail[m] == rest[k];
        assert tail[m] == objs[m + 1];
      }
    }
  }

  /**
   * Removing the handle of one object of a scene with distinct handles
   * removes exactly that object.
   */
  lemma {:induction false} WithoutOne(objs: seq<SceneObject>, o: SceneObject)
    requires DistinctHandles(objs) && o in objs
    ensures |Without(objs, {o.handle})| == |objs| - 1
    ensures forall q :: q in Without(objs, {o.handle}) <==> q in objs && q != o
  {
    forall q | q in objs && q.handle == o.handle
      ensures q == o
    {
      SameHandleSameObject(objs, q, o);
    }
    var tail := objs[1..];
    assert DistinctHandles(tail) by {
      forall i, j | 0 <= i < j < |tail| ensures tail[i].handle != tail[j].handle {
        assert tail[i] == objs[i + 1] && tail[j] == objs[j + 1];
      }
    }
    if objs[0] == o {
      forall q | q in tail
        ensures q.handle !in {o.handle}
      {
        var m :| 0 <= m < |tail| && tail[m] == q;
        assert tail[m] == objs[m + 1];
      }
      WithoutAbsent(tail, {o.handle});
    } else {
      assert objs[0] in objs;
      assert o in tail;
      WithoutOne(tail, o);
    }
  }

  /** Removing two sets of handles one after the other removes their union. */
  lemma {:induction false} WithoutUnion(objs: seq<SceneObject>, a: set<nat>, b: set<nat>)
    ensures Without(Without(objs, a), b) == Without(objs, a + b)
  {
    if objs != [] {
      WithoutUnion(objs[1..], a, b);
      if objs[0].handle in a {
        assert Without(objs, a) == Without(objs[1..], a);
      } else {
        assert Without(objs, a) == [objs[0]] + Without(objs[1..], a);
        assert Without(objs, a)[1..] == Without(objs[1..], a);
      }
    }
  }

  /** `obj.name == prefab.name || obj.name.StartsWith(prefab.name)`. */
  predicate NameMatches(name: string, p: Prefab) {
    name == p.name || p.name <= name
  }

  /**
   * MatchesPrefab: the name matches some prefab of the list. The equality
   * test is subsumed by the prefix test, so this is "some prefab name is a
   * prefix of the object's name".
   */
  function MatchesPrefab(name: string, valid: seq<Prefab>): (m: bool)
    ensures m <==> exists p :: p in valid && p.name <= name
  {
    if valid == [] then false
    else if NameMatches(name, valid[0]) then true
    else MatchesPrefab(name, valid[1..])
  }

  /** An object counts as an existing instance near the brush. */
  predicate IsExisting(o: SceneObject, valid: seq<Prefab>, center: Vec3, radius: real) {
    MatchesPrefab(o.name, valid) && WithinDistance(o.position, center, radius * 2.0)
  }

  /**
   * The positions of the objects that match a prefab and lie within twice
   * the radius of the centre, in enumeration order, one per object.
   */
  function ExistingPositions(objs: seq<SceneObject>, valid: seq<Prefab>, center: Vec3, radius: real): (ps: seq<Vec3>)
    ensures |ps| <= |objs|
    ensures forall o :: o in objs && IsExisting(o, valid, center, radius) ==> o.position in ps
    ensures forall p :: p in ps ==> exists o :: o in objs && o.position == p && IsExisting(o, valid, center, radius)
  {
    if objs == [] then []
    else
      var first := if IsExisting(objs[0], valid, center, radius) then [objs[0].position] else [];
      first + ExistingPositions(objs[1..], valid, center, radius)
  }

  lemma {:induction false} ExistingPositionsAppend(a: seq<SceneObject>, b: seq<SceneObject>, valid: seq<Prefab>, center: Vec3, radius: real)
    ensures ExistingPositions(a + b, valid, center, radius)
         == ExistingPositions(a, valid, center, radius) + ExistingPositions(b, valid, center, radius)
  {
    if a == [] {
      assert a + b == b;
    } else {
      assert (a + b)[1..] == a[1..] + b;
      ExistingPositionsAppend(a[1..], b, valid, center, radius);
    }
  }

  /** Without any prefab to match, nothing counts as existing. */
  lemma {:induction false} NoExistingWithoutPrefabs(objs: seq<SceneObject>, center: Vec3, radius: real)
    ensures ExistingPositions(objs, [], center, radius) == []
  {
    if objs != [] {
      NoExistingWithoutPrefabs(objs[1..], center, radius);
    }
  }

  /** The scene the editor holds; handles are never reused. */
  class Scene {
    var objects: seq<SceneObject>
    var nextHandle: nat

    /** Every handle was issued before `nextHandle`, and no two objects share one. */
    ghost predicate Valid()
      reads this
    {
      && (forall i :: 0 <= i < |objects| ==> objects[i].handle < nextHandle)
      && DistinctHandles(objects)
    }

    constructor ()
      ensures Valid() && objects == [] && nextHandle == 0
    {
      objects := [];
      nextHandle := 0;
    }

    /**
     * PrefabUtility.InstantiatePrefab followed by setting the position, the
     * name, the scale and the sorting order of the new object.
     */
    method Instantiate(p: Placement) returns (h: nat)
      requires Valid()
      modifies this
      ensures Valid()
      ensures h == old(nextHandle) && nextHandle == h + 1
      ensures h !in Handles(old(objects))
      ensures objects == old(objects) + [Instance(p, h)]
    {
      h := nextHandle;
      objects := objects + [Instance(p, h)];
      nextHandle := nextHandle + 1;
    }

    /**
     * Undo.DestroyObjectImmediate: the object with handle `h` leaves the
     * scene and every other object stays; a handle no object carries
     * changes nothing.
     */
    method Destroy(h: nat)
      requires Valid()
      modifies this
      ensures Valid() && nextHandle == old(nextHandle)
      ensures objects == Without(old(objects), {h})
      ensures forall o :: o in old(objects) && o.handle == h ==>
        && |objects| == |old(objects)| - 1
        && (forall q :: q in objects <==> q in old(objects) && q != o)
      ensures (forall o :: o in old(objects) ==> o.handle != h) ==> objects == old(objects)
    {
      ghost var before := objects;
      objects := Without(objects, {h});
      WithoutDistinct(before, {h});
      forall o | o in before && o.handle == h
        ensures |objects| == |before| - 1
        ensures forall q :: q in objects <==> q in before && q != o
      {
        WithoutOne(before, o);
      }
      if forall o :: o in before ==> o.handle != h {
        WithoutAbsent(before, {h});
      }
    }
  }
}
