# Camera and annotation navigation of a 3D slide show

This project models the camera navigation of a React-Three-Fiber product
showcase. The showcase lays out three slides side by side, and each slide
shows a car model with clickable hotspots.

- **Per slide** (`src/components/Scene.jsx`), a controller holds the target
  camera pose, the active annotation id, an `isTransitioning` flag and its
  own camera. It also shares one camera intent record
  `{position, lookAt, needsReset}` with every other slide. A hotspot click
  sends the camera towards the hotspot. A reset first clears the annotation
  and then, at the next animation frame, snaps the camera back to
  `[3,5,20]` looking at the origin. Each render frame moves the camera a
  tenth of the way to its target.
- **Across slides** (`src/components/Experience.jsx`), the camera handler
  reacts when the selected slide changes. It issues three `setLookAt` legs:
  pull back from the old slide, cross over past the new one, then settle in
  front of it. A guard on `lastSlide` ignores repeated notifications. After
  a viewport change, a 200 ms debounce re-homes the camera to the current
  slide's resting pose. The gallery puts slide `i` at
  `x = i * (width + gap)` and marks only `index === slide` as active.

Coordinates are `real`, so every lerp step and distance is exact.

Files:
- `geometry.dfy`: vectors, poses, three.js-style `lerp` and squared distance.
- `wrappers.dfy`: `Option`.
- `scene.dfy`: the hotspot registry and the per-slide state machine. The
  state machine is written as pure transition functions on a `Snapshot`
  (the slide's state plus the shared intent), plus their properties. The
  classes `CameraIntent` and `SceneController` hold the same state in
  fields, and their methods are proved equal to the transition functions.
- `convergence.dfy`: what repeated frames do. The squared distance shrinks
  by exactly 0.81 per frame, and every transition ends.
- `experience.dfy`: the leg poses, the guard, the layout, the debounce as
  a trace function, and the class `CameraHandler`.

The model keeps these behaviours of the code, which a reader may not
expect:
- The reset snaps the pose instead of easing it.
- A slide change arriving mid-sequence is not cancelled or restarted:
  `moveToSlide()` is fired without being awaited, and nothing tracks the
  sequence.
- Clicks are looked up in the hard-coded five-sphere list, not in the
  slide's own `spheres` data. So an id such as `model-t-glass` is unknown,
  and clicking it changes nothing (`Scene.SceneDataIdIsUnknown`).
- An active annotation id does not imply that no reset is pending. A
  click between the two reset phases leaves its annotation set, and
  visible, after the camera has snapped back to rest (`Scene.ClickBetweenResetPhases`).
- A viewport reset carries the pose computed when its timer was set. If
  the slide changes within the 200 ms window, the timer's call still
  carries the old slide's resting pose, because the closure captured the
  old `slide` (`Experience.StaleViewportReset`).

## Model

| member | source | states |
|---|---|---|
| Geometry.Lerp | src/components/Scene.jsx:152 | after a lerp by `alpha`, the offset to the target is `(1 - alpha)` times the old offset, per coordinate |
| Geometry.DistSq | src/components/Scene.jsx:155 | the squared distance compared against 0.1² is never negative |
| Scene.Mount | src/components/Scene.jsx:30-36 | mounting puts the camera at rest, copies the intent into the targets, starts idle with no annotation, and schedules a reset iff one is requested; the initial values are stated by `InitialState` |
| Scene.Click | src/components/Scene.jsx:115-127 | a click never moves the camera or touches `needsReset`, and changes anything only for a registered id, which it makes active and transitioning; stated in full by `ClickRegistered`, `ClickUnknown` and `ClickIdempotent` |
| Scene.Commit | src/components/Scene.jsx:130-132 | the reset effect moves no pose, keeps the transition flag and does not write the intent. It records the flag it saw. On a rising `needsReset` it clears the annotation and schedules phase 2 (see also `ResetPhaseOne`). On a falling flag it changes nothing else, and on an unchanged flag it changes nothing at all |
| Scene.ResetFrame | src/components/Scene.jsx:133-146 | phase 2 keeps the annotation and clears the schedule. When scheduled, it leaves `needsReset` false with the camera on its target (the full scheduled case is `ResetPhaseTwo`). When nothing is scheduled, it changes nothing |
| Scene.Step | src/components/Scene.jsx:150-159 | a frame keeps the target and annotation, never starts a transition, and looks at the target while transitioning; the 0.81 law and convergence are in `Convergence.StepContracts`, `IterateState` and `Converges` |
| Scene.Visible | src/components/Scene.jsx:200-213 | anything rendered needs an active slide, a set id and no pending reset, and is a registered hotspot with that id; the converse is `VisibleIff` |
| Scene.Shown | src/components/Scene.jsx:200 | nothing is rendered on an inactive slide, without an id, or while a reset is pending |
| Scene.FilterById | src/components/Scene.jsx:201-202 | the filter keeps only registry hotspots with the id; with unique ids it is `find` (`FilterIsFind`) |
| Scene.Find | src/components/Scene.jsx:116 | finds a hotspot exactly when the id is registered, and then returns the first hotspot with that id |
| Scene.RegistryIdsUnique | src/components/Scene.jsx:42-113 | the five hard-coded sphere ids are pairwise distinct |
| Scene.FilterIsFind | src/components/Scene.jsx:200-203 | with unique ids, filtering by id yields exactly the one hotspot `find` returns, or nothing |
| Scene.InitialState | src/components/Scene.jsx:20-36 | a slide mounted on the atom's initial value targets [3,5,20] looking at [0,0,0], has no annotation, is not transitioning, and has no reset pending |
| Scene.ClickRegistered | src/components/Scene.jsx:115-127 | a registered id sets the target to the hotspot's camera position and sphere position, makes that id active, and starts the transition; the intent gets the pose with `needsReset` kept; the camera is untouched |
| Scene.ClickUnknown | src/components/Scene.jsx:115-117 | an id not in the registry changes neither the slide nor the intent |
| Scene.SceneDataIdIsUnknown | src/components/Scene.jsx:115-117 | the scene data's `model-t-glass` hotspot is not registered, so clicking it is a no-op |
| Scene.ClickIdempotent | src/components/Scene.jsx:115-127 | clicking the same id twice in a row leaves the state of one click |
| Scene.ClickPreservesConsistent | src/components/Scene.jsx:115-127 | after a click, the active annotation is still none or a registered id |
| Scene.ResetPhaseOne | src/components/Scene.jsx:130-133 | when `needsReset` rises, the annotation clears at once and phase 2 is scheduled; camera, targets, flag and intent are unchanged, and no annotation is rendered |
| Scene.NothingShownWhileResetPending | src/components/Scene.jsx:200 | while `needsReset` is set, no annotation is rendered on any slide |
| Scene.ResetPhaseTwo | src/components/Scene.jsx:133-146 | at the next frame, the camera and the targets snap to [3,5,20]/[0,0,0], the transition stops, and the intent returns to its initial value with `needsReset` false; the annotation is not touched |
| Scene.CommitAndResetPreserveConsistent | src/components/Scene.jsx:130-148 | both reset phases keep the active annotation none or registered |
| Scene.ClickBetweenResetPhases | src/components/Scene.jsx:130-146 | a click between phase 1 and phase 2 stays active, so its annotation is rendered with the camera at rest |
| Scene.RegisteredIdsNonEmpty | src/components/Scene.jsx:200 | every registered id is a non-empty, hence truthy, string |
| Scene.VisibleIff | src/components/Scene.jsx:200-213 | an annotation is rendered iff the slide is active, an id is active and no reset is pending; then it is exactly the hotspot with that id |
| Scene.StepKeepsTargetAndAnnotation | src/components/Scene.jsx:150-159 | a frame keeps the target, the annotation and the reset bookkeeping |
| Scene.CameraIntent.constructor | src/components/Scene.jsx:20-24 | the shared atom starts at [3,5,20], [0,0,0], `needsReset` false |
| Scene.CameraIntent.RequestReset | src/components/Scene.jsx:130-131 | raises the `needsReset` flag that the reset effect reacts to, and nothing else |
| Scene.SceneController.constructor | src/components/Scene.jsx:26-36 | mounting copies the intent into the targets, places the camera at [3,5,20], and runs the reset effect once |
| Scene.SceneController.HandleSphereClick | src/components/Scene.jsx:115-128 | the fields and the shared intent change as `Click` says, and the registry invariant is kept |
| Scene.SceneController.ResetEffect | src/components/Scene.jsx:130-148 | runs only when `needsReset` changed, with the effect of `Commit` (phase 1) |
| Scene.SceneController.AnimationFrame | src/components/Scene.jsx:133-146 | a scheduled phase 2 has the effect of `ResetFrame` on the fields and on the shared intent |
| Scene.SceneController.Frame | src/components/Scene.jsx:150-159 | the frame callback has the effect of `Step`, and leaves the intent unchanged |
| Convergence.StepContracts | src/components/Scene.jsx:150-159 | a transitioning frame multiplies the squared distance by 0.81, keeps every coordinate between its old value and the target, looks at the target, and ends the transition iff the new distance is below 0.1 |
| Convergence.StepStrictlyCloser | src/components/Scene.jsx:152 | a frame that does not start on the target strictly reduces the distance to it |
| Convergence.StepIdle | src/components/Scene.jsx:151 | a frame while not transitioning changes nothing |
| Convergence.IterateState | src/components/Scene.jsx:150-159 | after k frames, the squared distance is 0.81^k of the initial one while transitioning; once stopped, the camera is within 0.1 of the target and looks at it |
| Convergence.Converges | src/components/Scene.jsx:150-159 | from any pose, some finite number of frames ends the transition |
| Convergence.ClickThenSettle | src/components/Scene.jsx:115-159 | after a click on a registered hotspot, some number of frames stops the camera within 0.1 of its camera position, looking at it; its annotation is then the one rendered on an active slide unless a reset is pending |
| Experience.RestingPose | src/components/Experience.jsx:278-285 | the viewport reset pose stands at the slide's x, 5 units in front of the point it looks at on the slide line |
| Experience.PullBackLeg | src/components/Experience.jsx:245-253 | leg 1 looks at the old slide's point and stands above it at the dolly distance |
| Experience.CrossLeg | src/components/Experience.jsx:254-262 | leg 2 looks at the new slide's point from the next slide's x at the dolly distance |
| Experience.SettleLeg | src/components/Experience.jsx:264-272 | leg 3 looks at the new slide's point from 5 units in front of it; equal to the reset pose by `SettleIsResting` |
| Experience.MoveLegs | src/components/Experience.jsx:244-273 | three legs, the first looking at the old slide, the last two at the new one; coordinates against the layout in `MoveLegsShape` |
| Experience.OnSlide | src/components/Experience.jsx:290-296 | the guard always leaves `lastSlide` equal to the slide and issues three legs or none; stated in full by `OnSlideGuard` and `OnSlideRepeat` |
| Experience.RunTimer | src/components/Experience.jsx:275-288 | the timers issue at most one reset per event; characterised by `RunTimerSettled` |
| Experience.Settled | src/components/Experience.jsx:275-288 | reference definition: every reset it lists is the pose of a change in the trace, at most one per event |
| Experience.Layout | src/components/Experience.jsx:382-386 | one plane per scene entry |
| Experience.LayoutPlanes | src/components/Experience.jsx:382-390 | plane i is active iff i is the selected slide, and it sits at the resting camera's x and look-at point for slide i |
| Experience.LayoutOneActive | src/components/Experience.jsx:382-390 | exactly one plane is active when the slide index is in range, and none otherwise |
| Experience.MoveLegsShape | src/components/Experience.jsx:244-272 | leg 1 uses the old slide: it stands at height 3 and dolly distance in front of the old plane, looking at it; leg 2 looks at the new plane from one slide pitch to its right, at height 1 and dolly distance; leg 3 looks at the new plane from 5 units in front |
| Experience.SettleIsResting | src/components/Experience.jsx:264-285 | the last leg equals the pose the debounced viewport reset sets |
| Experience.OnSlideGuard | src/components/Experience.jsx:290-296 | a notification equal to `lastSlide` issues no legs; any other one issues the three legs; either way `lastSlide` ends equal to the slide |
| Experience.OnSlideRepeat | src/components/Experience.jsx:290-293 | a repeated notification is a no-op |
| Experience.Fire | src/components/Experience.jsx:277-286 | a firing timer issues exactly the pose it was set with, if one is set |
| Experience.RunTimerSettled | src/components/Experience.jsx:275-288 | over any trace of viewport changes and quiet stretches, the timers issue the poses of exactly the changes followed by a quiet stretch; a timer already pending fires only if the trace opens quiet |
| Experience.DebounceOnlyQuietChanges | src/components/Experience.jsx:275-288 | from a state with no timer pending, only a change not followed by another within 200 ms resets the camera |
| Experience.CameraHandler.constructor | src/components/Experience.jsx:234-296 | mounting starts `lastSlide` at 0, sets the viewport timer, then runs the slide effect |
| Experience.CameraHandler.SlideEffect | src/components/Experience.jsx:290-296 | updates `lastSlide` and issues the legs as `OnSlide` says, all animated, and leaves the timer alone |
| Experience.CameraHandler.ViewportEffect | src/components/Experience.jsx:275-288 | discards any pending timer and sets one for the resting pose of the slide current at that moment |
| Experience.CameraHandler.ResetTimer | src/components/Experience.jsx:277-286 | issues the pending pose as an immediate (non-animated) `setLookAt`, and clears the timer |
| Experience.ViewportBurst | src/components/Experience.jsx:275-288 | on the handler object, two viewport changes followed by the timer issue only the second change's reset, exactly what `RunTimer` gives for that trace |
| Experience.StaleViewportReset | src/components/Experience.jsx:275-296 | on the handler object, after a slide change inside the 200 ms window, the timer's call carries the old slide's resting pose, not the new one's |

## Left out

- Rendering and the scene graph: lights, shadows, environment, grid, text, `Html` cards, render textures and meshes. They are markup with no behaviour.
- GLTF loading and the `useGLTF.preload` calls. They go to a foreign asset loader.
- The internal easing of `CameraControls.setLookAt(..., true)`, a third-party library. Each leg is modelled only as its target pose and an "animated" mark.
- `OrbitControls` and user orbiting: external input. Its `endabled` prop is misspelt, so the controls are never disabled, and they keep a 75° polar limit and a 6..20 distance range. All five hotspot camera positions lie beyond 75° from the vertical, and the resting position is about 20.8 from the origin. So in the running program the controls can pull the camera away from the poses that `Converges`, `ClickThenSettle` and `ResetPhaseTwo` reach. The model says nothing about that clamping.
- Real time. `requestAnimationFrame` and the 200 ms `setTimeout` become discrete events: `AnimationFrame`, `ResetTimer`, and a `Quiet` trace event.
- Overlap between concurrent `moveToSlide` calls. The code has no policy for it. The three legs are recorded in issue order at the moment of the notification.
- Experience.StaleViewportReset: the order of the issued calls assumes each leg is issued as soon as the notification arrives. In the code, legs 2 and 3 wait for the eased leg before them, so a timer firing within 200 ms normally lands between leg 1 and leg 2, and the camera then ends on the new slide. The model states only the pose the timer's call carries, not where it falls among the legs.
- `ratioScale`. It reads the window width and only scales the display.
- The static scene data, apart from the entry count and the unwired `model-t-glass` id. The slide atom lives in a file that is not part of this model. No code in these files raises `needsReset`; `RequestReset` stands for whatever does.
- The `leva` widgets. `slideDistance` and `dollyDistance` are parameters, with no enforced bounds.
- React scheduling. The setters of one handler are applied together at once. A frame callback that runs again with a stale `isTransitioning`, before the re-render, is not modelled.
- The camera ref is taken to be attached (`camera.current` non-null) for every event. Before the first frame is rendered, its look-at point is taken to be the origin, where `OrbitControls` aims by default.
- Geometry.DistSq: does not state that a zero distance means equal points. The strict-decrease lemma assumes a positive distance instead.
- `src/components/Card.tsx` and `tailwind.config.js` are presentational, with no logic.
