/**
 * BrushSettings: the brush configuration shared by the spawner, the eraser
 * and the editor window, and its filter of non-null prefabs.
 */
module Settings {
  import opened Geometry

  /** A prefab asset: identity, the name its instances get, its local scale. */
  datatype Prefab = Prefab(id: nat, name: string, scale: Vec3)

  /**
   * The public fields of BrushSettings. A slot of `prefabsToSpawn` may be
   * empty (a null reference left in the list by the UI).
   * `currentBrushShape`: 0 = Single, 1 = Circle, 2 = Square, 3 = Line.
   */
  datatype BrushSettings = BrushSettings(
    spawnRadius: real,
    objectDensity: real,
    prefabsToSpawn: seq<Option<Prefab>>,
    brushMode: bool,
    eraserMode: bool,
    spawnInterval: real,
    lineAngle: real,
    randomFlipY: bool,
    currentBrushShape: int)

  /** The field initialisers of a new BrushSettings. */
  function Defaults(): (s: BrushSettings)
    ensures s.spawnRadius == 1.0 && s.objectDensity == 0.5 && s.spawnInterval == 0.1
    ensures s.lineAngle == 0.0 && s.currentBrushShape == 1
    ensures s.prefabsToSpawn == []
    ensures !s.brushMode && !s.eraserMode && !s.randomFlipY
  {
    BrushSettings(1.0, 0.5, [], false, false, 0.1, 0.0, false, 1)
  }

  /**
   * GetValidPrefabs: `prefabsToSpawn.FindAll(p => p != null)`.
   * The result holds exactly the prefabs of the non-empty slots.
   */
  function ValidPrefabs(slots: seq<Option<Prefab>>): (valid: seq<Prefab>)
    ensures |valid| <= |slots|
    ensures forall p :: p in valid <==> Some(p) in slots
  {
    if slots == [] then []
    else (if slots[0].Some? then [slots[0].value] else []) + ValidPrefabs(slots[1..])
  }

  /** HasValidPrefabs: `GetValidPrefabs().Count > 0`. */
  function HasValidPrefabs(slots: seq<Option<Prefab>>): (has: bool)
    ensures has <==> exists i :: 0 <= i < |slots| && slots[i].Some?
  {
    var valid := ValidPrefabs(slots);
    assert forall i :: 0 <= i < |slots| && slots[i].Some? ==> slots[i].value in valid;
    assert |valid| > 0 ==> Some(valid[0]) in slots;
    |valid| > 0
  }

  /** A list of prefabs seen as a list of (all non-empty) slots. */
  function AsSlots(prefabs: seq<Prefab>): (slots: seq<Option<Prefab>>)
    ensures |slots| == |prefabs|
  {
    if prefabs == [] then [] else [Some(prefabs[0])] + AsSlots(prefabs[1..])
  }

  /**
   * The filter keeps order: filtering a concatenation concatenates the
   * filtered parts, so the valid prefabs come out in list order.
   */
  lemma {:induction false} ValidPrefabsAppend(a: seq<Option<Prefab>>, b: seq<Option<Prefab>>)
    ensures ValidPrefabs(a + b) == ValidPrefabs(a) + ValidPrefabs(b)
  {
    if a == [] {
      assert a + b == b;
    } else {
      assert (a + b)[1..] == a[1..] + b;
      ValidPrefabsAppend(a[1..], b);
    }
  }

  /** A list without empty slots is returned as it is. */
  lemma {:induction false} ValidPrefabsOfFullList(prefabs: seq<Prefab>)
    ensures ValidPrefabs(AsSlots(prefabs)) == prefabs
  {
    if prefabs != [] {
      assert AsSlots(prefabs)[1..] == AsSlots(prefabs[1..]);
      ValidPrefabsOfFullList(prefabs[1..]);
    }
  }

  /** Filtering an already filtered list changes nothing. */
  lemma ValidPrefabsIdempotent(slots: seq<Option<Prefab>>)
    ensures ValidPrefabs(AsSlots(ValidPrefabs(slots))) == ValidPrefabs(slots)
  {
    ValidPrefabsOfFullList(ValidPrefabs(slots));
  }

  /** A new BrushSettings has no prefab, so neither tool will act with it. */
  lemma DefaultsHaveNoValidPrefabs()
    ensures !HasValidPrefabs(Defaults().prefabsToSpawn)
    ensures ValidPrefabs(Defaults().prefabsToSpawn) == []
  {
  }
}
