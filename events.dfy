/**
 * Scene-view input as both editor windows see it, and the stroke state they
 * keep across events: whether the left button is held and when the brush
 * last fired during the drag.
 *
 * Both OnSceneGUI handlers run the same three blocks in order on the current
 * event: a left press starts a stroke (and resets the timer), a left release
 * ends it, and a drag or move while the button is held fires the brush when
 * at least `spawnInterval` seconds have passed since it last fired. Each
 * block that handles the event calls `Event.Use()`, which turns the event's
 * type into `Used`, so the later blocks no longer see it.
 */
module Events {

  datatype EventKind = Repaint | Layout | MouseDown | MouseUp | MouseDrag | MouseMove | Used | Other

  datatype InputEvent = InputEvent(kind: EventKind, button: int)

  /** `Event.Use()`: the event is marked as consumed. */
  function Use(e: InputEvent): (u: InputEvent)
    ensures u.kind == Used && u.button == e.button
  {
    e.(kind := Used)
  }

  predicate IsLeftPress(e: InputEvent) {
    e.kind == MouseDown && e.button == 0
  }

  predicate IsLeftRelease(e: InputEvent) {
    e.kind == MouseUp && e.button == 0
  }

  predicate IsDragOrMove(e: InputEvent) {
    e.kind == MouseDrag || e.kind == MouseMove
  }

  /** The fields `isMouseDown` and `lastSpawnTime`. */
  datatype StrokeState = StrokeState(isMouseDown: bool, lastSpawnTime: real)

  /** The field initialisers: button up, timer at 0. */
  const Released: StrokeState := StrokeState(false, 0.0)

  /**
   * The outcome of the three blocks on one event: the new stroke state, the
   * event as later code sees it, whether the press block ran and whether the
   * drag block fired the brush.
   */
  datatype StrokeStep = StrokeStep(state: StrokeState, event: InputEvent, pressed: bool, fired: bool)

  /** The press, release and drag blocks, run in order on the event at time `now`. */
  function Stroke(st: StrokeState, e: InputEvent, now: real, spawnInterval: real): StrokeStep {
    var down := IsLeftPress(e);
    var st1 := if down then StrokeState(true, 0.0) else st;
    var e1 := if down then Use(e) else e;
    var up := IsLeftRelease(e1);
    var st2 := if up then st1.(isMouseDown := false) else st1;
    var e2 := if up then Use(e1) else e1;
    if st2.isMouseDown && IsDragOrMove(e2) then
      var fire := now - st2.lastSpawnTime >= spawnInterval;
      StrokeStep(if fire then st2.(lastSpawnTime := now) else st2, Use(e2), down, fire)
    else
      StrokeStep(st2, e2, down, false)
  }

  /** A left press starts a stroke with the timer at 0, consumes the event and does not fire. */
  lemma StrokePress(st: StrokeState, e: InputEvent, now: real, spawnInterval: real)
    requires IsLeftPress(e)
    ensures var r := Stroke(st, e, now, spawnInterval);
      r.state == StrokeState(true, 0.0) && r.pressed && !r.fired && r.event.kind == Used
  {
  }

  /** A left release ends the stroke, keeps the timer and never fires. */
  lemma StrokeRelease(st: StrokeState, e: InputEvent, now: real, spawnInterval: real)
    requires IsLeftRelease(e)
    ensures var r := Stroke(st, e, now, spawnInterval);
      r.state == st.(isMouseDown := false) && !r.pressed && !r.fired && r.event.kind == Used
  {
  }

  /**
   * A drag or move with the button held fires exactly when the interval has
   * elapsed since the last firing; firing restarts the timer at `now`.
   */
  lemma StrokeDrag(st: StrokeState, e: InputEvent, now: real, spawnInterval: real)
    requires st.isMouseDown && IsDragOrMove(e)
    ensures var r := Stroke(st, e, now, spawnInterval);
      && (r.fired <==> now - st.lastSpawnTime >= spawnInterval)
      && r.state.isMouseDown
      && r.state.lastSpawnTime == (if r.fired then now else st.lastSpawnTime)
      && r.event.kind == Used
  {
  }

  /** Without the button held, only a left press changes the state, and nothing fires. */
  lemma StrokeIdle(st: StrokeState, e: InputEvent, now: real, spawnInterval: real)
    requires !st.isMouseDown && !IsLeftPress(e)
    ensures var r := Stroke(st, e, now, spawnInterval);
      r.state == st && !r.pressed && !r.fired
  {
  }

  /** The brush fires, or a press starts a stroke, only on the event kinds that ask for it. */
  lemma StrokeActsOnlyWhenAsked(st: StrokeState, e: InputEvent, now: real, spawnInterval: real)
    ensures var r := Stroke(st, e, now, spawnInterval);
      && (r.pressed <==> IsLeftPress(e))
      && (r.fired <==> st.isMouseDown && IsDragOrMove(e) && now - st.lastSpawnTime >= spawnInterval)
  {
  }

  /** One event of the editor's stream: the event, the clock reading and the ray hit under the mouse. */
  datatype Tick<P> = Tick(event: InputEvent, now: real, point: P)

  /** The stroke state after the given events. */
  function Replay<P>(st: StrokeState, ticks: seq<Tick<P>>, spawnInterval: real): StrokeState {
    if ticks == [] then st
    else
      var last := ticks[|ticks| - 1];
      Stroke(Replay(st, ticks[..|ticks| - 1], spawnInterval), last.event, last.now, spawnInterval).state
  }

  /** Whether the brush fires on the `k`-th event of the stream. */
  predicate FiresAt<P>(st: StrokeState, ticks: seq<Tick<P>>, spawnInterval: real, k: nat)
    requires k < |ticks|
  {
    Stroke(Replay(st, ticks[..k], spawnInterval), ticks[k].event, ticks[k].now, spawnInterval).fired
  }

  lemma ReplaySnoc<P>(st: StrokeState, ticks: seq<Tick<P>>, spawnInterval: real, k: nat)
    requires k < |ticks|
    ensures Replay(st, ticks[..k + 1], spawnInterval)
         == Stroke(Replay(st, ticks[..k], spawnInterval), ticks[k].event, ticks[k].now, spawnInterval).state
  {
    assert ticks[..k + 1][..k] == ticks[..k];
  }

  /**
   * Between a firing at event `i` and any later event `k` with no press and
   * no firing in between, the timer still holds the time of event `i`.
   */
  lemma {:induction false} TimerHeld<P>(st: StrokeState, ticks: seq<Tick<P>>, spawnInterval: real, i: nat, k: nat)
    requires i < k <= |ticks|
    requires FiresAt(st, ticks, spawnInterval, i)
    requires forall m :: i < m < k ==> !IsLeftPress(ticks[m].event) && !FiresAt(st, ticks, spawnInterval, m)
    ensures Replay(st, ticks[..k], spawnInterval).lastSpawnTime == ticks[i].now
    decreases k
  {
    ReplaySnoc(st, ticks, spawnInterval, k - 1);
    if k - 1 > i {
      TimerHeld(st, ticks, spawnInterval, i, k - 1);
    }
  }

  /**
   * The throttle: two consecutive firings of one stroke (no press in
   * between) are at least `spawnInterval` apart on the clock.
   */
  lemma ThrottleSpacing<P>(st: StrokeState, ticks: seq<Tick<P>>, spawnInterval: real, i: nat, j: nat)
    requires i < j < |ticks|
    requires FiresAt(st, ticks, spawnInterval, i) && FiresAt(st, ticks, spawnInterval, j)
    requires forall m :: i < m < j ==> !IsLeftPress(ticks[m].event) && !FiresAt(st, ticks, spawnInterval, m)
    ensures ticks[j].now - ticks[i].now >= spawnInterval
  {
    TimerHeld(st, ticks, spawnInterval, i, j);
    StrokeActsOnlyWhenAsked(Replay(st, ticks[..j], spawnInterval), ticks[j].event, ticks[j].now, spawnInterval);
  }

  /** From a released button, a stream without a left press never fires and never holds the button. */
  lemma {:induction false} NoPressNoFire<P>(st: StrokeState, ticks: seq<Tick<P>>, spawnInterval: real)
    requires !st.isMouseDown
    requires forall m :: 0 <= m < |ticks| ==> !IsLeftPress(ticks[m].event)
    ensures Replay(st, ticks, spawnInterval) == st
    ensures forall k :: 0 <= k < |ticks| ==> !FiresAt(st, ticks, spawnInterval, k)
  {
    forall k | 0 <= k <= |ticks|
      ensures Replay(st, ticks[..k], spawnInterval) == st
    {
      NoPressPrefix(st, ticks, spawnInterval, k);
    }
    assert ticks[..|ticks|] == ticks;
  }

  lemma {:induction false} NoPressPrefix<P>(st: StrokeState, ticks: seq<Tick<P>>, spawnInterval: real, k: nat)
    requires !st.isMouseDown && k <= |ticks|
    requires forall m :: 0 <= m < |ticks| ==> !IsLeftPress(ticks[m].event)
    ensures Replay(st, ticks[..k], spawnInterval) == st
  {
    if k > 0 {
      NoPressPrefix(st, ticks, spawnInterval, k - 1);
      ReplaySnoc(st, ticks, spawnInterval, k - 1);
    }
  }
}
