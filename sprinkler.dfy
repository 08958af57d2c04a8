/**
 * PrefabSprinkler, the editor window: holds the brush settings and the
 * stroke state, and on every scene-view event either places prefabs
 * (brush mode) or removes them (eraser mode) at the point under the mouse.
 *
 * The ray cast under the mouse (`GetScenePoint`: a collider hit, else the
 * z = 0 plane, else nothing) is given as the parameter `point`; the editor
 * clock as `now`; Unity's random numbers as `draw`; the trigonometry of the
 * line shape as `trig`.
 */
module Sprinkler {
  import opened Geometry
  import opened Draws
  import opened Settings
  import opened Scenes
  import opened Events
  import Spawner
  import Eraser

  /** The tool acts at all: `brushMode || eraserMode`. */
  predicate Active(s: BrushSettings) {
    s.brushMode || s.eraserMode
  }

  /** What one handled event amounts to: the new stroke state, where the brush acts (if anywhere), the event afterwards. */
  datatype Reaction = Reaction(state: StrokeState, action: Option<Vec3>, event: InputEvent)

  /**
   * OnSceneGUI on one event: nothing at all while neither mode is on;
   * otherwise the stroke blocks, acting at the point under the mouse on a
   * left press and whenever the drag throttle fires.
   */
  function React(s: BrushSettings, st: StrokeState, e: InputEvent, now: real, point: Option<Vec3>): Reaction {
    if !Active(s) then Reaction(st, None, e)
    else
      var r := Stroke(st, e, now, s.spawnInterval);
      Reaction(r.state, if r.pressed || r.fired then point else None, r.event)
  }

  /** With neither mode on, an event changes nothing and is left for the editor. */
  lemma InactiveIgnoresEvents(s: BrushSettings, st: StrokeState, e: InputEvent, now: real, point: Option<Vec3>)
    requires !s.brushMode && !s.eraserMode
    ensures React(s, st, e, now, point) == Reaction(st, None, e)
  {
  }

  /**
   * With a mode on, a left press starts a stroke, resets the timer, acts at
   * once at the point under the mouse (if the ray hit anything) and consumes
   * the event.
   */
  lemma PressActsImmediately(s: BrushSettings, st: StrokeState, e: InputEvent, now: real, point: Option<Vec3>)
    requires Active(s) && IsLeftPress(e)
    ensures var r := React(s, st, e, now, point);
      r.state == StrokeState(true, 0.0) && r.action == point && r.event.kind == Used
  {
    StrokePress(st, e, now, s.spawnInterval);
  }

  /** A left release ends the stroke without acting. */
  lemma ReleaseEndsStroke(s: BrushSettings, st: StrokeState, e: InputEvent, now: real, point: Option<Vec3>)
    requires Active(s) && IsLeftRelease(e)
    ensures var r := React(s, st, e, now, point);
      !r.state.isMouseDown && r.state.lastSpawnTime == st.lastSpawnTime && r.action.None?
  {
    StrokeRelease(st, e, now, s.spawnInterval);
  }

  /**
   * A drag or move with the button held acts (where the ray hit) exactly
   * when `spawnInterval` has passed since the last action; the timer moves
   * to `now` when the interval has passed, even if the ray hit nothing.
   */
  lemma DragIsThrottled(s: BrushSettings, st: StrokeState, e: InputEvent, now: real, point: Option<Vec3>)
    requires Active(s) && st.isMouseDown && IsDragOrMove(e)
    ensures var r := React(s, st, e, now, point); var elapsed := now - st.lastSpawnTime >= s.spawnInterval;
      && (r.action == if elapsed then point else None)
      && r.state == StrokeState(true, if elapsed then now else st.lastSpawnTime)
  {
    StrokeDrag(st, e, now, s.spawnInterval);
  }

  /** The window acts only on a left press or on a throttled drag of a held button. */
  lemma ActsOnlyOnPressOrDrag(s: BrushSettings, st: StrokeState, e: InputEvent, now: real, point: Option<Vec3>)
    ensures React(s, st, e, now, point).action.Some? ==>
      && Active(s) && point.Some?
      && (IsLeftPress(e) || (st.isMouseDown && IsDragOrMove(e) && now - st.lastSpawnTime >= s.spawnInterval))
  {
    StrokeActsOnlyWhenAsked(st, e, now, s.spawnInterval);
  }

  /**
   * ProcessBrushAction at `center`: the eraser when eraser mode is on,
   * otherwise the spawner. The scene objects afterwards.
   */
  function BrushOutcome(s: BrushSettings, trig: real -> Direction, draw: nat -> AttemptDraw, center: Vec3,
                        objects: seq<SceneObject>, nextHandle: nat): seq<SceneObject>
    requires DrawsInRange(draw)
  {
    if s.eraserMode then Without(objects, Eraser.ErasedHandles(s, trig, objects, center))
    else objects + Instances(Spawner.SpawnPlan(s, trig, center, objects, draw), nextHandle)
  }

  /**
   * Eraser mode wins over brush mode: with both on the window only removes
   * objects; it never adds one.
   */
  lemma EraserModeOnlyRemoves(s: BrushSettings, trig: real -> Direction, draw: nat -> AttemptDraw, center: Vec3,
                              objects: seq<SceneObject>, nextHandle: nat)
    requires DrawsInRange(draw) && s.eraserMode
    ensures forall o :: o in BrushOutcome(s, trig, draw, center, objects, nextHandle) ==> o in objects
  {
  }

  /** In brush mode the scene keeps every object and gains the planned placements after them. */
  lemma BrushModeOnlyAdds(s: BrushSettings, trig: real -> Direction, draw: nat -> AttemptDraw, center: Vec3,
                          objects: seq<SceneObject>, nextHandle: nat)
    requires DrawsInRange(draw) && !s.eraserMode
    ensures var out := BrushOutcome(s, trig, draw, center, objects, nextHandle);
      && |out| == |objects| + |Spawner.SpawnPlan(s, trig, center, objects, draw)|
      && out[..|objects|] == objects
  {
  }

  class PrefabSprinkler {
    var settings: BrushSettings
    var isMouseDown: bool
    var lastSpawnTime: real

    function StrokeOf(): StrokeState
      reads this
    {
      StrokeState(isMouseDown, lastSpawnTime)
    }

    /** A new window: default settings, button up, timer at 0. */
    constructor ()
      ensures settings == Defaults() && StrokeOf() == Released
    {
      settings := Defaults();
      isMouseDown := false;
      lastSpawnTime := 0.0;
    }

    /** ProcessBrushAction: erase or spawn at `center`. */
    method ProcessBrushAction(center: Vec3, trig: real -> Direction, scene: Scene, draw: nat -> AttemptDraw)
      requires DrawsInRange(draw) && scene.Valid()
      modifies scene
      ensures scene.Valid()
      ensures scene.objects == BrushOutcome(settings, trig, draw, center, old(scene.objects), old(scene.nextHandle))
    {
      if settings.eraserMode {
        Eraser.EraseObjects(settings, trig, center, scene);
      } else {
        var placed := Spawner.SpawnPrefabs(settings, trig, center, scene, draw);
      }
    }

    /**
     * OnSceneGUI on the event `e`: the new stroke state, the consumed event
     * and the scene after the brush acted (at most once) are those React
     * describes.
     */
    method OnSceneGUI(e: InputEvent, now: real, point: Option<Vec3>, trig: real -> Direction, scene: Scene, draw: nat -> AttemptDraw)
      returns (handled: InputEvent)
      requires DrawsInRange(draw) && scene.Valid()
      modifies this, scene
      ensures settings == old(settings) && scene.Valid()
      ensures var r := React(old(settings), old(StrokeOf()), e, now, point);
        && StrokeOf() == r.state
        && handled == r.event
        && scene.objects == match r.action
             case None => old(scene.objects)
             case Some(c) => BrushOutcome(settings, trig, draw, c, old(scene.objects), old(scene.nextHandle))
    {
      handled := e;
      if !settings.brushMode && !settings.eraserMode {
        return;
      }
      if handled.kind == MouseDown && handled.button == 0 {
        isMouseDown := true;
        lastSpawnTime := 0.0;
        if point.Some? {
          ProcessBrushAction(point.value, trig, scene, draw);
        }
        handled := Use(handled);
      }
      if handled.kind == MouseUp && handled.button == 0 {
        isMouseDown := false;
        handled := Use(handled);
      }
      if isMouseDown && (handled.kind == MouseDrag || handled.kind == MouseMove) {
        var currentTime := now;
        if currentTime - lastSpawnTime >= settings.spawnInterval {
          if point.Some? {
            ProcessBrushAction(point.value, trig, scene, draw);
          }
          lastSpawnTime := currentTime;
        }
        handled := Use(handled);
      }
    }
  }

  /**
   * A click in brush mode with the single-object shape and a prefab places
   * exactly one instance of a configured prefab, at the point under the
   * mouse, under the scene's next handle.
   */
  lemma ClickWithSingleBrushPlacesOne(s: BrushSettings, trig: real -> Direction, draw: nat -> AttemptDraw,
                                      st: StrokeState, e: InputEvent, now: real, p: Vec3,
                                      objects: seq<SceneObject>, nextHandle: nat)
    requires DrawsInRange(draw) && IsLeftPress(e)
    requires s.brushMode && !s.eraserMode && s.currentBrushShape == 0 && HasValidPrefabs(s.prefabsToSpawn)
    ensures React(s, st, e, now, Some(p)).action == Some(p)
    ensures var out := BrushOutcome(s, trig, draw, p, objects, nextHandle);
      && |out| == |objects| + 1
      && out[|objects|].position == p && out[|objects|].handle == nextHandle
      && Some(Spawner.SpawnPlan(s, trig, p, objects, draw)[0].prefab) in s.prefabsToSpawn
  {
    PressActsImmediately(s, st, e, now, Some(p));
    Spawner.SpawnPlanSingle(s, trig, p, objects, draw);
  }
}
