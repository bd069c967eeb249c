/** The slide gallery and its camera handler (src/components/Experience.jsx).

    Slides are laid out side by side along x, one viewport width plus a gap
    apart. When the selected slide changes, the handler issues three
    `setLookAt` legs: pull back in front of the old slide, cross over to a
    point beyond the new one, and settle in front of it. A viewport change
    re-homes the camera to the resting pose of the slide after a 200 ms
    debounce. Widths, gaps and dolly distances are parameters. */
module Experience {
  import opened Wrappers
  import opened Geometry

  /** Number of entries in the scene data, one plane per entry. */
  const SceneCount := 3

  /** x of slide `i`: `i * (viewport.width + slideDistance)`. */
  function SlideX(i: int, width: real, gap: real): real
  {
    i as real * (width + gap)
  }

  /** The pose the debounced viewport reset sets for `slide`. */
  function RestingPose(slide: int, width: real, gap: real): (r: Pose)
    ensures r.position.x == r.lookAt.x == SlideX(slide, width, gap)
    ensures r.position.z - r.lookAt.z == 5.0 && r.position.y == r.lookAt.y == 0.0
  {
    var x := SlideX(slide, width, gap);
    Pose(Vec3(x, 0.0, 5.0), Vec3(x, 0.0, 0.0))
  }

  /** Leg 1, evaluated before `lastSlide` is updated: up and back, in front
      of the slide being left. */
  function PullBackLeg(last: int, width: real, gap: real, dolly: real): (r: Pose)
    ensures r.lookAt == Vec3(SlideX(last, width, gap), 0.0, 0.0)
    ensures r.position.x == r.lookAt.x && r.position.z == dolly
  {
    var x := last as real * (width + gap);
    Pose(Vec3(x, 3.0, dolly), Vec3(x, 0.0, 0.0))
  }

  /** Leg 2: from a point one slide further right, look at the new slide. */
  function CrossLeg(slide: int, width: real, gap: real, dolly: real): (r: Pose)
    ensures r.lookAt == Vec3(SlideX(slide, width, gap), 0.0, 0.0)
    ensures r.position.x == SlideX(slide + 1, width, gap) && r.position.z == dolly
  {
    Pose(Vec3((slide + 1) as real * (width + gap), 1.0, dolly), Vec3(slide as real * (width + gap), 0.0, 0.0))
  }

  /** Leg 3: close in on the new slide. */
  function SettleLeg(slide: int, width: real, gap: real): (r: Pose)
    ensures r.lookAt == Vec3(SlideX(slide, width, gap), 0.0, 0.0)
    ensures r.position.x == r.lookAt.x && r.position.z == 5.0
  {
    var x := slide as real * (width + gap);
    Pose(Vec3(x, 0.0, 5.0), Vec3(x, 0.0, 0.0))
  }

  /** `moveToSlide`: the three legs in the order they are awaited. */
  function MoveLegs(last: int, slide: int, width: real, gap: real, dolly: real): (legs: seq<Pose>)
    ensures |legs| == 3
    ensures legs[0].lookAt.x == SlideX(last, width, gap)
    ensures legs[1].lookAt == legs[2].lookAt == Vec3(SlideX(slide, width, gap), 0.0, 0.0)
  {
    [PullBackLeg(last, width, gap, dolly), CrossLeg(slide, width, gap, dolly), SettleLeg(slide, width, gap)]
  }

  /** The slide effect's outcome: the new `lastSlide` and the legs issued. */
  datatype SlideOutcome = SlideOutcome(lastSlide: int, legs: seq<Pose>)

  /** The slide effect: a notification for the slide already processed is
      ignored; any other one issues the legs and records the slide. */
  function OnSlide(last: int, slide: int, width: real, gap: real, dolly: real): (o: SlideOutcome)
    ensures o.lastSlide == slide
    ensures |o.legs| == if last == slide then 0 else 3
  {
    if last == slide then SlideOutcome(last, [])
    else SlideOutcome(slide, MoveLegs(last, slide, width, gap, dolly))
  }

  /** One plane of the gallery. */
  datatype SlidePlane = SlidePlane(center: Vec3, isActive: bool)

  /** The gallery: plane `index` at `index * (width + gap)`, flagged active
      when `index === slide`. */
  function Layout(count: nat, slide: int, width: real, gap: real): (planes: seq<SlidePlane>)
    ensures |planes| == count
  {
    seq(count, index => SlidePlane(Vec3(index as real * (width + gap), 0.0, 0.0), index == slide))
  }

  function ActiveCount(planes: seq<SlidePlane>): nat
  {
    if planes == [] then 0
    else (if planes[|planes| - 1].isActive then 1 else 0) + ActiveCount(planes[..|planes| - 1])
  }

  // ---------------------------------------------------------------------
  // The debounced viewport reset, as a trace of events

  /** A viewport change, carrying the resting pose computed when its timer
      was set, or a 200 ms stretch with no further change. */
  datatype ViewportEvent = Resized(pose: Pose) | Quiet

  /** What a firing timer issues: the pose it was set with, if one is set. */
  function Fire(pending: Option<Pose>): (out: seq<Pose>)
    ensures |out| <= 1
    ensures out != [] <==> pending.Some?
    ensures out != [] ==> out[0] == pending.value
  {
    if pending.Some? then [pending.value] else []
  }

  /** Runs the timer over a trace: each change clears the pending timer and
      sets a new one; a quiet stretch fires the pending one. */
  function RunTimer(pending: Option<Pose>, events: seq<ViewportEvent>): (resets: seq<Pose>)
    ensures |resets| <= |events|
    decreases |events|
  {
    if events == [] then []
    else match events[0]
      case Resized(p) => RunTimer(Some(p), events[1..])
      case Quiet => Fire(pending) + RunTimer(None, events[1..])
  }

  /** Reference definition: the poses of exactly those changes that are
      followed by a quiet stretch. */
  function Settled(events: seq<ViewportEvent>): (resets: seq<Pose>)
    ensures |resets| <= |events|
    ensures forall p :: p in resets ==> Resized(p) in events
  {
    if |events| < 2 then []
    else (if events[0].Resized? && events[1].Quiet? then [events[0].pose] else []) + Settled(events[1..])
  }

  // ---------------------------------------------------------------------
  // Properties

  /** The legs are issued in order; leg 1 frames the old slide, legs 2 and 3
      look at the new slide's plane, leg 2 stands one slide pitch to its
      right, and leg 3 stands 5 units in front of it. */
  lemma MoveLegsShape(last: int, slide: int, width: real, gap: real, dolly: real)
    requires 0 <= last < SceneCount && 0 <= slide < SceneCount
    ensures var legs, planes := MoveLegs(last, slide, width, gap, dolly), Layout(SceneCount, slide, width, gap);
      && |legs| == 3
      && legs[0].lookAt == planes[last].center
      && legs[0].position == Vec3(planes[last].center.x, 3.0, dolly)
      && legs[1].lookAt == planes[slide].center && planes[slide].isActive
      && legs[1].position == Vec3(planes[slide].center.x + (width + gap), 1.0, dolly)
      && legs[2].lookAt == planes[slide].center
      && legs[2].position == Vec3(planes[slide].center.x, 0.0, 5.0)
  {
    assert (slide + 1) as real * (width + gap) == slide as real * (width + gap) + (width + gap);
  }

  /** The last leg is the pose the debounced viewport reset sets. */
  lemma SettleIsResting(slide: int, width: real, gap: real, last: int, dolly: real)
    ensures MoveLegs(last, slide, width, gap, dolly)[2] == RestingPose(slide, width, gap)
  {
  }

  /** A notification for the slide already processed issues nothing; any
      other one issues the three legs; afterwards `lastSlide` is the slide. */
  lemma OnSlideGuard(last: int, slide: int, width: real, gap: real, dolly: real)
    ensures OnSlide(last, slide, width, gap, dolly).lastSlide == slide
    ensures OnSlide(last, slide, width, gap, dolly).legs == [] <==> last == slide
    ensures last != slide ==> OnSlide(last, slide, width, gap, dolly).legs == MoveLegs(last, slide, width, gap, dolly)
  {
  }

  /** A repeated notification is a no-op. */
  lemma OnSlideRepeat(last: int, slide: int, width: real, gap: real, dolly: real)
    ensures var o := OnSlide(last, slide, width, gap, dolly);
      OnSlide(o.lastSlide, slide, width, gap, dolly) == SlideOutcome(slide, [])
  {
  }

  /** Plane `i` is active exactly when `i` is the selected slide, and it sits
      where the resting camera for slide `i` stands. */
  lemma LayoutPlanes(count: nat, slide: int, width: real, gap: real, i: nat)
    requires i < count
    ensures Layout(count, slide, width, gap)[i].isActive <==> i == slide
    ensures Layout(count, slide, width, gap)[i].center.x == RestingPose(i, width, gap).position.x
    ensures Layout(count, slide, width, gap)[i].center == RestingPose(i, width, gap).lookAt
  {
  }

  /** Exactly one plane is active when the slide index is in range, none
      otherwise. */
  lemma {:induction false} LayoutOneActive(count: nat, slide: int, width: real, gap: real)
    ensures ActiveCount(Layout(count, slide, width, gap)) == if 0 <= slide < count then 1 else 0
  {
    if count > 0 {
      var planes := Layout(count, slide, width, gap);
      assert planes[..count - 1] == Layout(count - 1, slide, width, gap);
      LayoutOneActive(count - 1, slide, width, gap);
    }
  }

  /** The timer issues exactly the resets of the changes followed by a quiet
      stretch, preceded by the one already pending if the trace opens quiet. */
  lemma {:induction false} RunTimerSettled(pending: Option<Pose>, events: seq<ViewportEvent>)
    ensures RunTimer(pending, events) ==
      (if events != [] && events[0].Quiet? then Fire(pending) else []) + Settled(events)
    decreases |events|
  {
    if events != [] {
      var rest := events[1..];
      RunTimerSettled(if events[0].Resized? then Some(events[0].pose) else None, rest);
      if |events| >= 2 {
        assert rest[0] == events[1];
      }
    }
  }

  /** From a state with no timer pending, a change resets the camera
      exactly when no other change follows it within the window. */
  lemma DebounceOnlyQuietChanges(events: seq<ViewportEvent>)
    ensures RunTimer(None, events) == Settled(events)
  {
    RunTimerSettled(None, events);
  }

  // ---------------------------------------------------------------------
  // The mutable form

  /** A `setLookAt` call: animated (the legs) or immediate (the reset). */
  datatype LookAtCall = LookAtCall(pose: Pose, animated: bool)

  function Animated(poses: seq<Pose>): (calls: seq<LookAtCall>)
    ensures |calls| == |poses|
    ensures forall i :: 0 <= i < |poses| ==> calls[i] == LookAtCall(poses[i], true)
  {
    if poses == [] then [] else [LookAtCall(poses[0], true)] + Animated(poses[1..])
  }

  function Immediate(poses: seq<Pose>): (calls: seq<LookAtCall>)
    ensures |calls| == |poses|
    ensures forall i :: 0 <= i < |poses| ==> calls[i] == LookAtCall(poses[i], false)
  {
    if poses == [] then [] else [LookAtCall(poses[0], false)] + Immediate(poses[1..])
  }

  /** `CameraHandler`: `lastSlide` is its ref, `pendingReset` the debounce
      timer, `issued` every `setLookAt` call made on the camera controls. */
  class CameraHandler {
    var lastSlide: int
    var pendingReset: Option<Pose>
    var issued: seq<LookAtCall>

    /** Mounting: `lastSlide` starts at 0, then both effects run once, the
        viewport effect first. */
    constructor (slide: int, width: real, gap: real, dolly: real)
      ensures pendingReset == Some(RestingPose(slide, width, gap))
      ensures lastSlide == slide
      ensures issued == Animated(OnSlide(0, slide, width, gap, dolly).legs)
    {
      lastSlide := 0;
      issued := [];
      pendingReset := Some(RestingPose(slide, width, gap));
      if slide != 0 {
        issued := Animated(MoveLegs(0, slide, width, gap, dolly));
        lastSlide := slide;
      }
    }

    method SlideEffect(slide: int, width: real, gap: real, dolly: real) returns (legs: seq<Pose>)
      modifies this
      ensures var o := OnSlide(old(lastSlide), slide, width, gap, dolly);
        lastSlide == o.lastSlide && legs == o.legs
      ensures issued == old(issued) + Animated(legs)
      ensures pendingReset == old(pendingReset)
    {
      if lastSlide == slide {
        return [];
      }
      legs := MoveLegs(lastSlide, slide, width, gap, dolly);
      issued := issued + Animated(legs);
      lastSlide := slide;
    }

    /** A viewport change: clear the pending timer and set one for the
        resting pose of the slide as it is now. */
    method ViewportEffect(slide: int, width: real, gap: real)
      modifies this
      ensures pendingReset == Some(RestingPose(slide, width, gap))
      ensures lastSlide == old(lastSlide) && issued == old(issued)
    {
      pendingReset := Some(RestingPose(slide, width, gap));
    }

    /** The 200 ms timer fires. */
    method ResetTimer()
      modifies this
      ensures issued == old(issued) + Immediate(Fire(old(pendingReset)))
      ensures pendingReset == None && lastSlide == old(lastSlide)
    {
      if pendingReset.Some? {
        issued := issued + [LookAtCall(pendingReset.value, false)];
      }
      pendingReset := None;
    }
  }

  // ---------------------------------------------------------------------
  // Clients of the mutable form

  /** A burst of viewport changes from mount: only the last one's timer
      fires, as the trace function says. */
  method ViewportBurst(width1: real, width2: real, gap: real, dolly: real) returns (resets: seq<LookAtCall>)
    ensures resets == Immediate(RunTimer(None,
      [Resized(RestingPose(0, width1, gap)), Resized(RestingPose(0, width2, gap)), Quiet, Quiet]))
    ensures resets == [LookAtCall(RestingPose(0, width2, gap), false)]
  {
    var h := new CameraHandler(0, width1, gap, dolly);
    h.ViewportEffect(0, width2, gap);
    h.ResetTimer();
    h.ResetTimer();
    resets := h.issued;
    var p1, p2 := RestingPose(0, width1, gap), RestingPose(0, width2, gap);
    var trace := [Resized(p1), Resized(p2), Quiet, Quiet];
    assert trace[1..] == [Resized(p2), Quiet, Quiet];
    assert trace[1..][1..] == [Quiet, Quiet];
    assert trace[1..][1..][1..] == [Quiet];
    assert RunTimer(None, [Quiet]) == [];
    assert RunTimer(Some(p2), [Quiet, Quiet]) == [p2];
    assert RunTimer(Some(p1), [Resized(p2), Quiet, Quiet]) == [p2];
    assert RunTimer(None, trace) == [p2];
  }

  /** A slide change inside the debounce window: the call the timer set
      before it issues carries the old slide's resting pose, captured when
      the timer was set, not the new slide's. */
  method StaleViewportReset(width: real, gap: real, dolly: real) returns (timerCall: LookAtCall)
    ensures timerCall == LookAtCall(RestingPose(0, width, gap), false)
    ensures width + gap != 0.0 ==> timerCall.pose != RestingPose(2, width, gap)
  {
    var h := new CameraHandler(0, width, gap, dolly);
    h.ViewportEffect(0, width, gap);
    var legs := h.SlideEffect(2, width, gap, dolly);
    h.ResetTimer();
    timerCall := h.issued[|h.issued| - 1];
  }
}
