# PrefabSprinkler and PrefabBrush placement engine, in Dafny

This project models the placement and removal engine of two Unity editor
tools that scatter prefab instances over a scene with a mouse brush:

- **PrefabSprinkler**, the newer window. It keeps a list of prefabs and a
  brush shape: single object, circle, square or line.
  - In brush mode, the **spawner** (`PrefabSpawner`) places one object at
    the cursor for the single shape. For an area shape it runs a bounded
    rejection-sampling loop. Each candidate must keep a randomised spacing
    from every instance already near the brush and from every object placed
    before it.
  - In eraser mode, the **eraser** (`PrefabEraser`) removes the matching
    objects in the brush area. For the single shape it removes only the
    closest one.
  - Both modes act on a left click and on a drag that is throttled by a
    time interval.
- **PrefabBrush**, the older window. It is a circle brush for one prefab
  with a fixed spacing. It counts the candidates that were rejected
  because of an instance already in the scene.

## Modules

| file | module | contents |
|---|---|---|
| `geometry.dfy` | `Geometry` | vectors, distances compared through their squares, `Mathf.Lerp`, `Mathf.RoundToInt` |
| `draws.dfy` | `Draws` | the random draws of one attempt and their ranges; `Random.Range`; `Random.insideUnitSphere` flattened onto the brush plane |
| `settings.dfy` | `Settings` | `BrushSettings`, its defaults, `GetValidPrefabs`, `HasValidPrefabs` |
| `scenes.dfy` | `Scenes` | the scene as a class holding a sequence of objects; instantiation; destruction; the name rule that recognises prefab instances; the sorting order |
| `spawner.dfy` | `Spawner` | `PrefabSpawner`: the loop specified as a function `Run` on a `LoopState`, the methods proved equal to it, and the lemmas about it |
| `eraser.dfy` | `Eraser` | `PrefabEraser`: the area predicates, candidate selection, the closest object, erasing |
| `events.dfy` | `Events` | the press, release and drag-throttle blocks that both windows share, and the stroke across a stream of events |
| `sprinkler.dfy` | `Sprinkler` | the `PrefabSprinkler` window: `OnSceneGUI` and `ProcessBrushAction` |
| `brush.dfy` | `Brush` | the `PrefabBrush` window: its placement loop, its existing-instance filter, `OnSceneGUI` |

## How the host is modelled

- **Scene-point oracle.** The ray cast under the mouse becomes the parameter
  `point: Option<Vec3>`. The ray hits a collider, or else the z = 0 plane,
  or else nothing.
- **Clock.** The editor clock becomes the parameter `now`.
- **Random numbers.** `Random.*` becomes `draw: nat -> AttemptDraw`, one
  bundle of draws per attempt of the loop. Each bundle is constrained to
  the documented ranges.
- **Trigonometry.** `Mathf.Cos` and `Mathf.Sin` become
  `trig: real -> Direction`. Lemmas that need a unit direction require one.
- **Scene.** The scene is the class `Scenes.Scene`. Each object is a handle,
  a name, a position, a scale and a sorting order.
  - No two objects share a handle (`Scene.Valid`).
  - Instantiating appends an object under a fresh handle.
  - `Undo.DestroyObjectImmediate` removes the object with a given handle.

### The second mouse-down block of PrefabBrush

`PrefabBrush.OnSceneGUI` has a second left-mouse-down block at
`PrefabBrush.cs:199-220`, which would spawn on a click. The first
mouse-down block has already called `Event.Use()`, and that sets the
event's type to `Used`, so the second block never runs.

- `Brush.BrushReact` models all four blocks, including this one.
- `Brush.ClickAloneSpawnsNothing` proves that a click never spawns.
- `Brush.BrushSpawnsOnlyOnFiring` proves that an event spawns at most once,
  and only when the drag throttle fires.
- The method `Brush.PrefabBrush.OnSceneGUI` therefore leaves the dead block
  out. Its postcondition ties it to `BrushReact`, which does include the
  block.

## Model

| member | source | states |
|---|---|---|
| Geometry.Lerp | Assets/PrefabSprinkler/Editor/PrefabSpawner.cs:52 | `Mathf.Lerp` clamps its parameter: the result lies between the two ends, is the first end for a parameter ≤ 0 and the second for one ≥ 1 |
| Geometry.RoundToInt | Assets/PrefabSprinkler/Editor/PrefabSpawner.cs:51 | `Mathf.RoundToInt` is within one half of its argument and rounds a half-way value to the even integer |
| Geometry.RoundToIntMonotone | Assets/PrefabSprinkler/Editor/PrefabSpawner.cs:164 | rounding to the nearest integer never reverses the order of two values |
| Draws.RangeFloat | Assets/PrefabSprinkler/Editor/PrefabSpawner.cs:108-111 | `Random.Range(lo, hi)` on floats lies between the two bounds and hits each bound at the ends of the unit draw |
| Draws.RangeInt | Assets/PrefabSprinkler/Editor/PrefabSpawner.cs:37 | `Random.Range(0, n)` on ints is a valid index in [0, n) |
| Draws.CirclePoint | Assets/PrefabSprinkler/Editor/PrefabSpawner.cs:103-104 | a flattened point of the unit ball scaled by the radius and moved to the centre keeps the centre's height and lies within the radius in the xy-plane |
| Settings.Defaults | Assets/PrefabSprinkler/Editor/BrushSettings.cs:7-15 | the field initialisers: radius 1, density 0.5, interval 0.1, angle 0, circle shape, empty prefab list, every mode off |
| Settings.ValidPrefabs | Assets/PrefabSprinkler/Editor/BrushSettings.cs:17-20 | `GetValidPrefabs` keeps exactly the non-null slots and is no longer than the list |
| Settings.ValidPrefabsAppend | Assets/PrefabSprinkler/Editor/BrushSettings.cs:17-20 | filtering distributes over concatenation, so the filter keeps the slots' order |
| Settings.ValidPrefabsOfFullList | Assets/PrefabSprinkler/Editor/BrushSettings.cs:19 | a list without null slots passes the filter unchanged |
| Settings.ValidPrefabsIdempotent | Assets/PrefabSprinkler/Editor/BrushSettings.cs:19 | filtering an already filtered list gives it back unchanged |
| Settings.HasValidPrefabs | Assets/PrefabSprinkler/Editor/BrushSettings.cs:22-25 | `HasValidPrefabs` holds exactly when some slot is non-null |
| Settings.DefaultsHaveNoValidPrefabs | Assets/PrefabSprinkler/Editor/BrushSettings.cs:9 | a fresh settings object has no valid prefab |
| Scenes.SortingOrderAntitone | Assets/PrefabSprinkler/Editor/PrefabSpawner.cs:164 | `RoundToInt(-y * 100)` does not increase as y grows, so objects lower on the map are drawn on top |
| Scenes.MatchesPrefab | Assets/PrefabBrush/Editor/PrefabEraser.cs:61-69 | an object matches exactly when some prefab's name is a prefix of its name; the `==` test is subsumed |
| Scenes.ExistingPositions | Assets/PrefabSprinkler/Editor/PrefabSpawner.cs:190-204 | a position is listed exactly when some matching object within twice the radius lies there, and the list is never longer than the scene (order is stated by `ExistingPositionsAppend`) |
| Scenes.ExistingPositionsAppend | Assets/PrefabSprinkler/Editor/PrefabSpawner.cs:190-204 | the existing-position filter runs over the objects in enumeration order |
| Scenes.NoExistingWithoutPrefabs | Assets/PrefabSprinkler/Editor/PrefabSpawner.cs:185-186 | with no prefab to match, no position counts as existing |
| Scenes.InstancesHandles | Assets/PrefabSprinkler/Editor/PrefabSpawner.cs:68-74 | a stroke's new instances take exactly the consecutive handles from the next free one, no two sharing a handle |
| Scenes.Scene.Instantiate | Assets/PrefabSprinkler/Editor/PrefabSpawner.cs:69-71 | the new instance is appended under a handle no object had before, and nothing else changes |
| Scenes.Scene.Destroy | Assets/PrefabBrush/Editor/PrefabEraser.cs:28 | the scene keeps distinct handles; the object with the given handle leaves it, every other object stays, and the scene shrinks by one; an unknown handle changes nothing |
| Scenes.WithoutOne | Assets/PrefabBrush/Editor/PrefabEraser.cs:28 | in a scene with distinct handles, destroying one object's handle removes that object and no other |
| Scenes.Without | Assets/PrefabBrush/Editor/PrefabEraser.cs:32-35 | removing a set of handles keeps exactly the objects whose handle is not in the set, and never lengthens the scene |
| Scenes.WithoutDistinct | Assets/PrefabBrush/Editor/PrefabEraser.cs:30-36 | destroying objects keeps the remaining handles distinct |
| Scenes.WithoutUnion | Assets/PrefabBrush/Editor/PrefabEraser.cs:32-35 | destroying two sets of objects one after the other destroys their union |
| Scenes.SceneGains | Assets/PrefabSprinkler/Editor/PrefabSpawner.cs:69-76 | instantiating one more placement extends the scene's new objects by that placement's instance |
| Spawner.Area | Assets/PrefabSprinkler/Editor/PrefabSpawner.cs:84-93 | `CalculateArea` is non-negative for the circle and the square, and 0 for a shape without an area formula |
| Spawner.ObjectCount | Assets/PrefabSprinkler/Editor/PrefabSpawner.cs:51 | the target count is within one half of area × density × 10, and 0 for a shape without an area formula |
| Spawner.MinDistance | Assets/PrefabSprinkler/Editor/PrefabSpawner.cs:52 | the base spacing lies in [0.3, 5]: 5 for density ≤ 0 and 0.3 for density ≥ 1 |
| Spawner.MinDistanceAntitone | Assets/PrefabSprinkler/Editor/PrefabSpawner.cs:52 | a denser brush never asks for more spacing |
| Spawner.LineOffsetCoordinates | Assets/PrefabSprinkler/Editor/PrefabSpawner.cs:116-123 | for a unit direction, a line offset projects back onto its along and across coordinates and stays in the plane |
| Spawner.RandomPositionInBrush | Assets/PrefabSprinkler/Editor/PrefabSpawner.cs:96-132 | every candidate keeps the centre's height and lies in its shape: within the radius (circle), within the radius on each axis (square), within r/2 along and minDistance/2 across (line), at the centre (other shapes) |
| Spawner.ToleranceBounds | Assets/PrefabSprinkler/Editor/PrefabSpawner.cs:64 | an attempt's spacing lies between 0.7 and 1.3 times the base spacing |
| Spawner.FlipX | Assets/PrefabSprinkler/Editor/PrefabSpawner.cs:146-154 | only the x scale can change: it is negated exactly when flipping is on and the draw exceeds 0.5 |
| Spawner.PickPrefab | Assets/PrefabSprinkler/Editor/PrefabSpawner.cs:68 | the randomly chosen prefab is always one of the valid prefabs |
| Spawner.MakePlacement | Assets/PrefabSprinkler/Editor/PrefabSpawner.cs:68-74 | a placement uses a valid prefab, the candidate position and the sorting order of that position |
| Spawner.RunBounds | Assets/PrefabSprinkler/Editor/PrefabSpawner.cs:57-80 | the loop stops with at most `objectCount` placements and `20 * objectCount` attempts, at most one placement per attempt, and on exit the target or the cap is reached; a count ≤ 0 places nothing |
| Spawner.SpawnLoopSpacing | Assets/PrefabSprinkler/Editor/PrefabSpawner.cs:61-80 | every placement kept its own attempt's spacing from everything occupied before it; every rejected attempt had an occupied position too close; the occupied list grows by exactly the placements, in order |
| Spawner.StepKeepsInv | Assets/PrefabSprinkler/Editor/PrefabSpawner.cs:63-79 | one iteration preserves the loop invariant |
| Spawner.RunKeepsInv | Assets/PrefabSprinkler/Editor/PrefabSpawner.cs:57-80 | the loop invariant holds when the whole loop ends |
| Spawner.SpawnLoopMinimumGap | Assets/PrefabSprinkler/Editor/PrefabSpawner.cs:63-78 | placed objects are pairwise at least `0.7 * minDistance` apart and that far from every existing instance |
| Spawner.SpawnLoopInsideBrush | Assets/PrefabSprinkler/Editor/PrefabSpawner.cs:63-71 | every placement is a valid prefab at a candidate position inside the brush |
| Spawner.SpacedByPairwise | Assets/PrefabSprinkler/Editor/PrefabSpawner.cs:76 | a spacing kept from everything occupied before holds between every two placements |
| Spawner.SpacedByFromExisting | Assets/PrefabSprinkler/Editor/PrefabSpawner.cs:55 | a spacing kept from everything occupied before holds from every existing position |
| Spawner.SpawnPlanWithoutPrefabs | Assets/PrefabSprinkler/Editor/PrefabSpawner.cs:17-21 | with every prefab slot empty nothing is placed |
| Spawner.SpawnPlanSingle | Assets/PrefabSprinkler/Editor/PrefabSpawner.cs:25-29 | shape 0 places exactly one object, exactly at the centre, from the configured prefabs, sorted by its height |
| Spawner.SpawnPlanArea | Assets/PrefabSprinkler/Editor/PrefabSpawner.cs:48-81 | an area shape places at most `objectCount` objects, pairwise at least `0.7 * minDistance` apart and that far from the existing instances |
| Spawner.SpawnPlanAreaPlacesOne | Assets/PrefabSprinkler/Tests/PrefabSpawnerTests.cs:76-91 | an area stroke with a positive target count over ground with no matching instance nearby places at least one object |
| Spawner.FirstAttemptPlaces | Assets/PrefabSprinkler/Editor/PrefabSpawner.cs:57-80 | starting with nothing occupied, once the loop has made an attempt it has placed an object |
| Spawner.CircleStrokeOverFreeGround | Assets/PrefabSprinkler/Tests/PrefabSpawnerTests.cs:76-91 | the test's circle stroke, radius 2 at density 0.5, places at least one object over free ground |
| Spawner.IsTooClose | Assets/PrefabSprinkler/Editor/PrefabSpawner.cs:135-143 | the scan answers true exactly when some position is closer than the spacing |
| Spawner.GetExistingPrefabPositions | Assets/PrefabSprinkler/Editor/PrefabSpawner.cs:181-207 | the nested scan returns exactly the existing positions, in enumeration order |
| Spawner.MatchesNear | Assets/PrefabSprinkler/Editor/PrefabSpawner.cs:192-203 | the inner scan adds an object exactly when it matches some valid prefab and lies within twice the radius |
| Spawner.SpawnSingleObject | Assets/PrefabSprinkler/Editor/PrefabSpawner.cs:35-45 | one instance is added at the position, with the placement `MakePlacement` describes |
| Spawner.SpawnMultipleObjects | Assets/PrefabSprinkler/Editor/PrefabSpawner.cs:48-81 | the while loop computes `Run` from the existing positions, stays within its bounds, and instantiates exactly its placements |
| Spawner.SpawnPrefabs | Assets/PrefabSprinkler/Editor/PrefabSpawner.cs:15-32 | the scene gains exactly the instances of `SpawnPlan`, under consecutive fresh handles |
| Eraser.InLineAreaAroundCenter | Assets/PrefabBrush/Editor/PrefabEraser.cs:96-113 | for a unit direction the line area is the band at most r/2 along the line from the centre and at most 0.3 across it |
| Eraser.LineEraserBand | Assets/PrefabBrush/Editor/PrefabEraser.cs:106-109 | a size-4 line at angle 0 through the origin selects (1.5, 0.2, 0) and not (1.5, 0.5, 0) |
| Eraser.CircleInsideSquare | Assets/PrefabBrush/Editor/PrefabEraser.cs:79-85 | a point the circle eraser selects is also selected by the square eraser of the same radius |
| Eraser.Candidates | Assets/PrefabBrush/Editor/PrefabEraser.cs:40-58 | the candidates are exactly the scene objects that match a valid prefab and lie in the area |
| Eraser.CandidatesAppend | Assets/PrefabBrush/Editor/PrefabEraser.cs:46-55 | the candidates keep the scene's enumeration order |
| Eraser.ClosestIndex | Assets/PrefabBrush/Editor/PrefabEraser.cs:116-132 | the chosen object is at minimum distance from the centre, and is the earliest such object on a tie |
| Eraser.EraseWithoutPrefabs | Assets/PrefabBrush/Editor/PrefabEraser.cs:17-21 | without a valid prefab nothing is removed |
| Eraser.EraseSingle | Assets/PrefabBrush/Editor/PrefabEraser.cs:25-29 | the single eraser removes exactly one object, the closest candidate, which is closer than 0.5; every other object stays; with no candidate nothing changes |
| Eraser.EraseArea | Assets/PrefabBrush/Editor/PrefabEraser.cs:30-36 | after an area erase, an object remains exactly when it was in the scene and is not a matching object inside the area |
| Eraser.WithoutHandlesOf | Assets/PrefabBrush/Editor/PrefabEraser.cs:30-36 | destroying the handles of some objects of a scene with distinct handles removes exactly those objects |
| Eraser.CircleEraserCoversCircleBrush | Assets/PrefabBrush/Editor/PrefabEraser.cs:79-80 | an object the circle spawner places is picked up by the circle eraser at the same centre and radius |
| Eraser.SquareEraserCoversSquareBrush | Assets/PrefabBrush/Editor/PrefabEraser.cs:82-85 | an object the square spawner places is picked up by the square eraser at the same centre and radius |
| Eraser.LineEraserCoversLineBrush | Assets/PrefabBrush/Editor/PrefabEraser.cs:96-113 | an object the line spawner places is picked up by the line eraser when the spacing is at most twice the band's half-width |
| Eraser.MatchesPrefabOf | Assets/PrefabBrush/Editor/PrefabEraser.cs:61-69 | the scan that stops at the first matching prefab answers `MatchesPrefab` |
| Eraser.FindObjectsInArea | Assets/PrefabBrush/Editor/PrefabEraser.cs:40-58 | the loop collects exactly the candidates, in order |
| Eraser.FindClosestObject | Assets/PrefabBrush/Editor/PrefabEraser.cs:116-132 | the loop returns the object at `ClosestIndex` |
| Eraser.EraseObjects | Assets/PrefabBrush/Editor/PrefabEraser.cs:15-37 | the scene loses exactly the erased objects, the closest candidate or every candidate, and keeps every other object; handles stay distinct and are never reused |
| Eraser.DestroyEach | Assets/PrefabBrush/Editor/PrefabEraser.cs:32-35 | destroying each listed object removes exactly their handles |
| Events.Use | Assets/PrefabSprinkler/Editor/PrefabSprinkler.cs:39 | `Event.Use()` marks the event as used and keeps its button |
| Events.StrokePress | Assets/PrefabSprinkler/Editor/PrefabSprinkler.cs:39 | a left press starts a stroke with the timer at 0, is consumed, and does not fire the drag block |
| Events.StrokeRelease | Assets/PrefabSprinkler/Editor/PrefabSprinkler.cs:40 | a left release ends the stroke, keeps the timer and never fires |
| Events.StrokeDrag | Assets/PrefabSprinkler/Editor/PrefabSprinkler.cs:41-46 | a drag or move with the button held fires exactly when the interval has elapsed, and firing moves the timer to now |
| Events.StrokeIdle | Assets/PrefabSprinkler/Editor/PrefabSprinkler.cs:41 | without the button held, only a press changes the state, and nothing fires |
| Events.StrokeActsOnlyWhenAsked | Assets/PrefabSprinkler/Editor/PrefabSprinkler.cs:39-46 | the press block runs exactly on a left press, and the drag block fires exactly on a throttled drag or move of a held button |
| Events.TimerHeld | Assets/PrefabSprinkler/Editor/PrefabSprinkler.cs:44 | after a firing, the timer keeps that firing's time until the next press or firing |
| Events.ThrottleSpacing | Assets/PrefabSprinkler/Editor/PrefabSprinkler.cs:44 | two consecutive firings of one stroke are at least `spawnInterval` apart on the clock |
| Events.NoPressNoFire | Assets/PrefabSprinkler/Editor/PrefabSprinkler.cs:41 | from a released button, a stream without a left press never fires and never holds the button |
| Sprinkler.InactiveIgnoresEvents | Assets/PrefabSprinkler/Editor/PrefabSprinkler.cs:36 | with neither mode on, an event changes nothing and is not consumed |
| Sprinkler.PressActsImmediately | Assets/PrefabSprinkler/Editor/PrefabSprinkler.cs:39 | a left press starts the stroke, resets the timer, acts at once at the scene point (if any) and is consumed |
| Sprinkler.ReleaseEndsStroke | Assets/PrefabSprinkler/Editor/PrefabSprinkler.cs:40 | a left release ends the stroke without acting |
| Sprinkler.DragIsThrottled | Assets/PrefabSprinkler/Editor/PrefabSprinkler.cs:41-46 | a held drag acts exactly when the interval has passed, and moves the timer even when the ray hit nothing |
| Sprinkler.ActsOnlyOnPressOrDrag | Assets/PrefabSprinkler/Editor/PrefabSprinkler.cs:36-46 | the window acts only with a mode on, a scene point, and a press or a throttled held drag |
| Sprinkler.EraserModeOnlyRemoves | Assets/PrefabSprinkler/Editor/PrefabSprinkler.cs:63 | with eraser mode on, even together with brush mode, an action only removes objects |
| Sprinkler.BrushModeOnlyAdds | Assets/PrefabSprinkler/Editor/PrefabSprinkler.cs:64 | in brush mode the scene keeps every object and gains the planned ones after them |
| Sprinkler.PrefabSprinkler.constructor | Assets/PrefabSprinkler/Editor/PrefabSprinkler.cs:6-12 | a new window has default settings, the button up and the timer at 0 |
| Sprinkler.PrefabSprinkler.ProcessBrushAction | Assets/PrefabSprinkler/Editor/PrefabSprinkler.cs:61-65 | the eraser runs exactly when eraser mode is on, otherwise the spawner |
| Sprinkler.PrefabSprinkler.OnSceneGUI | Assets/PrefabSprinkler/Editor/PrefabSprinkler.cs:34-49 | the new stroke state, the consumed event and the scene after at most one action are those `React` and `BrushOutcome` describe |
| Sprinkler.ClickWithSingleBrushPlacesOne | Assets/PrefabSprinkler/Tests/PrefabSpawnerTests.cs:62-74 | a click with the single shape and a prefab places exactly one instance of a configured prefab at the click point |
| Brush.BrushCount | Assets/PrefabBrush/Editor/PrefabBrush.cs:296-297 | the brush's target count is within one half of π r² × density × 10, and is never negative for a non-negative density |
| Brush.FirstCloser | Assets/PrefabBrush/Editor/PrefabBrush.cs:318-329 | the `foreach` stops at a position closer than the spacing, and finds one exactly when one exists |
| Brush.BrushStepCounts | Assets/PrefabBrush/Editor/PrefabBrush.cs:313-344 | each iteration spends one attempt, places the candidate exactly when it is free, and counts at most one skip, exactly when the first blocker pre-existed |
| Brush.BrushStepKeeps | Assets/PrefabBrush/Editor/PrefabBrush.cs:313-344 | one iteration preserves the brush loop's invariant |
| Brush.BrushRunKeeps | Assets/PrefabBrush/Editor/PrefabBrush.cs:311-345 | the brush loop invariant holds when the whole loop ends |
| Brush.BrushRunBounds | Assets/PrefabBrush/Editor/PrefabBrush.cs:306-311 | the brush loop stops with at most `objectCount` placements and `20 * objectCount` attempts, having reached the target or the cap |
| Brush.BrushLoopSound | Assets/PrefabBrush/Editor/PrefabBrush.cs:301-345 | the brush places prefab instances inside the circle, pairwise at least the spacing apart and that far from the existing positions; skips never exceed the rejected attempts, and there are none without existing instances |
| Brush.BrushPlanWithoutPrefab | Assets/PrefabBrush/Editor/PrefabBrush.cs:288-292 | without a prefab the brush places nothing and counts no skip |
| Brush.BrushPlanSound | Assets/PrefabBrush/Editor/PrefabBrush.cs:286-345 | a brush stroke over a scene places at most `objectCount` instances of the prefab, inside the circle and spaced from each other and from the instances near the brush |
| Brush.ClickAloneSpawnsNothing | Assets/PrefabBrush/Editor/PrefabBrush.cs:152-220 | a left click spawns nothing, because the press block consumes the event before the second mouse-down block; it starts a stroke with the timer at 0 |
| Brush.BrushSpawnsOnlyOnFiring | Assets/PrefabBrush/Editor/PrefabBrush.cs:167-196 | an event spawns at most once, exactly when the drag throttle fires, at the ray hit or at the origin when the ray hits nothing |
| Brush.PrefabBrush.constructor | Assets/PrefabBrush/Editor/PrefabBrush.cs:7-13 | the field initialisers: radius 1, density 0.5, no prefab, brush mode off, button up, timer 0, interval 0.1 |
| Brush.PrefabBrush.GetExistingPrefabPositions | Assets/PrefabBrush/Editor/PrefabBrush.cs:227-253 | none without a prefab; otherwise exactly the positions of objects named like the prefab within twice the radius, in order |
| Brush.PrefabBrush.SpawnPrefabs | Assets/PrefabBrush/Editor/PrefabBrush.cs:286-345 | the scene gains exactly the instances of `BrushPlan`, and the skip count is the plan's |
| Brush.PlaceStroke | Assets/PrefabBrush/Editor/PrefabBrush.cs:304-345 | the while loop computes `BrushRun` from the existing positions and instantiates exactly its placements |
| Brush.CheckCandidate | Assets/PrefabBrush/Editor/PrefabBrush.cs:317-330 | the inner scan reports a candidate as too close exactly when some position is closer than the spacing, and reports a pre-existing blocker exactly when the first one found is pre-existing |
| Brush.PrefabBrush.OnSceneGUI | Assets/PrefabBrush/Editor/PrefabBrush.cs:119-225 | the new stroke state, the consumed event and the scene are those `BrushReact` describes: one brush stroke at the spawn point when the throttle fires, nothing otherwise |

## Left out

- Drawing and layout are not modelled: `SprinklerUI`, `BrushVisualizer`, the repaint blocks of both `OnSceneGUI` handlers, `OnGUI`, `LoadIcons`, `HandleUtility.AddDefaultControl` and `SceneView.RepaintAll`. They change no state of the engine.
- The PrefabBrush window's buttons are left out: the "Spawn Prefabs" button, the brush and cursor toggles, and Ctrl+Z. The user interface also writes the settings; the model takes the settings as given.
- Ray casting (`GetScenePoint` and the ray and plane code in PrefabBrush) is the parameter `point`.
- `EditorApplication.timeSinceStartup` is the parameter `now`.
- `Undo.RegisterCreatedObjectUndo` and the undo history are not modelled. Destruction is modelled; undoing it is not.
- `SetupSortingOrder` walks the renderers of the new object. The model keeps one sorting order per object. It leaves out the material-property fallback for objects without a sprite renderer.
- `Debug.Log` and `Debug.LogWarning` messages are left out. This includes PrefabBrush's summary at the end of `SpawnPrefabs`, which is printed only while the button is up.
- The model uses exact real arithmetic, not 32-bit floats:
  - the constants 0.3, 0.5, 0.7, 1.3 and 0.1 are exact decimals;
  - `Mathf.PI` is the float value of π;
  - `Vector3.Distance` is compared through squared distances, which is exact for real square roots.
- Integer overflow is not modelled: `RoundToInt` of a huge area and `objectCount * 20` are unbounded integers here.
- `string.StartsWith` is modelled as an ordinal prefix test. Culture-sensitive comparison is not modelled.
- `FindObjectsByType` and `FindObjectsOfType` are both the scene's object sequence, in one fixed enumeration order.
- The scene is flat: the hierarchy of GameObjects is not modelled. Two consequences follow.
  - In Unity, `FindObjectsByType` also lists child objects, and a child whose name starts with a prefab's name is a candidate too. In the model every object is a top-level one.
  - `Undo.DestroyObjectImmediate` on a parent also destroys its children. In area mode a matched child can then come up for destruction after its parent is gone. In the model a destroy removes exactly one object.
- Random draws are one bundle per attempt, indexed by the attempt number. The model does not keep the exact order in which Unity consumes its random stream. It makes no claim about the distribution of the draws.
- The validity filter that `SprinklerUI` calls (`GetInvalid2DPrefabs`) is not defined in `BrushSettings` and is not part of this model.
- Spawner.RandomPositionInBrush: the line case is stated only for a unit direction, because the host's sine and cosine are parameters.
- Eraser.LineEraserCoversLineBrush: stated only when the spacing is at most 0.6. For larger spacings the line spawner scatters objects outside the eraser's 0.3 band.
