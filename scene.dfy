/** One slide's camera and annotation navigation (src/components/Scene.jsx).

    Each slide mounts its own controller; all of them share one camera
    intent record (a jotai atom). The slide's own state and the intent are
    gathered in a `Snapshot`, and every event is a function from snapshot
    to snapshot. The classes at the end hold the same state in mutable
    fields and are proved against these functions. */
module Scene {
  import opened Wrappers
  import opened Geometry

  /** An invisible click target on the car model. */
  datatype Hotspot = Hotspot(
    id: string,
    position: Vec3,        // where the sphere sits; also the look-at target
    cameraPos: Vec3,       // where the camera is sent
    annotationPos: Vec3,   // where the annotation card is anchored
    title: string,
    body: string)

  /** The shared camera intent: `{position, lookAt, needsReset}`. */
  datatype Intent = Intent(position: Vec3, lookAt: Vec3, needsReset: bool)

  /** A slide's own navigation state.
      `seenNeedsReset` is the value of `needsReset` the reset effect last ran
      for (the effect runs only when that value changes);
      `resetScheduled` records a pending animation-frame callback of the
      reset. Several pending callbacks all write the same constants, so one
      flag stands for any number of them. */
  datatype Nav = Nav(
    camera: Pose,
    target: Pose,
    active: Option<string>,
    transitioning: bool,
    seenNeedsReset: bool,
    resetScheduled: bool)

  datatype Snapshot = Snapshot(nav: Nav, intent: Intent)

  const RestPosition := Vec3(3.0, 5.0, 20.0)
  const RestPose := Pose(RestPosition, Origin)

  /** The atom's initial value. */
  const InitialIntent := Intent(RestPosition, Origin, false)

  /** Fraction of the remaining way covered by one frame, and the squared
      convergence distance (a distance below 0.1). */
  const Damping := 0.1
  const ToleranceSq := 0.01

  /** The registry actually consulted on a click: the hard-coded list of
      five spheres, not the per-slide `spheres` of the scene data. */
  const SpherePositions: seq<Hotspot> := [
    Hotspot("sphere1", Vec3(4.5, 0.8, -2.3), Vec3(6.0, 1.0, 0.0), Vec3(8.0, 2.0, 0.0),
            "Engine Compartment", "Advanced powertrain system"),
    Hotspot("sphere2", Vec3(4.2, 0.9, 3.0), Vec3(2.0, 1.0, 6.0), Vec3(4.0, 2.0, 6.0),
            "Front Suspension", "Innovative suspension design"),
    Hotspot("sphere3", Vec3(-4.5, 1.5, 2.5), Vec3(-6.0, 1.0, 6.0), Vec3(-4.0, 2.0, 6.0),
            "Interior Features", "Luxurious cabin details"),
    Hotspot("sphere4", Vec3(-4.2, 3.5, -0.8), Vec3(-10.0, 1.0, 0.0), Vec3(-8.0, 2.0, 0.0),
            "Rear Design", "Aerodynamic styling"),
    Hotspot("sphere5", Vec3(-3.5, 1.4, -4.0), Vec3(0.0, 1.0, -10.0), Vec3(-4.0, 6.0, -8.0),
            "Roof Structure", "Reinforced framework")
  ]

  predicate Registered(reg: seq<Hotspot>, id: string)
  {
    exists i :: 0 <= i < |reg| && reg[i].id == id
  }

  predicate UniqueIds(reg: seq<Hotspot>)
  {
    forall i, j :: 0 <= i < j < |reg| ==> reg[i].id != reg[j].id
  }

  /** `Array.prototype.find` by id: the first hotspot with that id. */
  function Find(reg: seq<Hotspot>, id: string): (r: Option<Hotspot>)
    ensures r.Some? <==> Registered(reg, id)
    ensures r.Some? ==> exists i :: 0 <= i < |reg| && reg[i] == r.value && reg[i].id == id &&
                                    forall j :: 0 <= j < i ==> reg[j].id != id
  {
    if reg == [] then None
    else if reg[0].id == id then Some(reg[0])
    else
      var r := Find(reg[1..], id);
      assert forall i :: 0 <= i < |reg| - 1 ==> reg[1..][i] == reg[i + 1];
      r
  }

  /** `filter(sphere => sphere.id === id)`. */
  function FilterById(reg: seq<Hotspot>, id: string): (r: seq<Hotspot>)
    ensures forall h :: h in r ==> h in reg && h.id == id
    ensures |r| <= |reg|
  {
    if reg == [] then []
    else (if reg[0].id == id then [reg[0]] else []) + FilterById(reg[1..], id)
  }

  /** Mounting a slide: the targets start at the intent's current value, the
      camera at its `position` prop and the origin, nothing active; the
      reset effect runs once for the current `needsReset`. */
  function Mount(i: Intent): (n: Nav)
    ensures n.camera == RestPose && n.target == Pose(i.position, i.lookAt)
    ensures n.active == None && !n.transitioning
    ensures n.resetScheduled <==> i.needsReset
  {
    Nav(RestPose, Pose(i.position, i.lookAt), None, false, i.needsReset, i.needsReset)
  }

  /** `handleSphereClick`: a registered id sets the target pose, the active
      annotation and the flag, and writes the pose into the shared intent;
      an unregistered id does nothing. */
  function Click(s: Snapshot, id: string): (r: Snapshot)
    ensures r.nav.camera == s.nav.camera && r.intent.needsReset == s.intent.needsReset
    ensures r.nav.resetScheduled == s.nav.resetScheduled
    ensures r != s ==> Registered(SpherePositions, id) && r.nav.active == Some(id) && r.nav.transitioning
  {
    match Find(SpherePositions, id)
    case None => s
    case Some(h) =>
      Snapshot(
        s.nav.(target := Pose(h.cameraPos, h.position), active := Some(id), transitioning := true),
        s.intent.(position := h.cameraPos, lookAt := h.position))
  }

  /** The reset effect after a render: it runs only when `needsReset` has
      changed since its last run, and when the flag is now set it clears the
      annotation at once (phase 1) and schedules phase 2 for the next frame. */
  function Commit(s: Snapshot): (r: Snapshot)
    ensures r.nav.camera == s.nav.camera && r.nav.target == s.nav.target && r.intent == s.intent
    ensures r.nav.seenNeedsReset == s.intent.needsReset
    ensures r.nav.active == (if s.intent.needsReset && !s.nav.seenNeedsReset then None else s.nav.active)
    ensures r.nav.transitioning == s.nav.transitioning
    ensures r.nav.resetScheduled == (s.nav.resetScheduled || (s.intent.needsReset && !s.nav.seenNeedsReset))
    ensures s.intent.needsReset == s.nav.seenNeedsReset ==> r == s
  {
    if s.intent.needsReset == s.nav.seenNeedsReset then s
    else if s.intent.needsReset then
      s.(nav := s.nav.(seenNeedsReset := true, active := None, resetScheduled := true))
    else
      s.(nav := s.nav.(seenNeedsReset := false))
  }

  /** Phase 2 of the reset, at the next animation frame: camera and targets
      snap to the resting pose, the transition stops and the intent returns
      to its initial value. */
  function ResetFrame(s: Snapshot): (r: Snapshot)
    ensures r.nav.active == s.nav.active && r.nav.seenNeedsReset == s.nav.seenNeedsReset
    ensures !r.nav.resetScheduled
    ensures s.nav.resetScheduled ==> !r.intent.needsReset && r.nav.camera == r.nav.target
    ensures !s.nav.resetScheduled ==> r == s
  {
    if !s.nav.resetScheduled then s
    else
      Snapshot(
        s.nav.(camera := RestPose, target := RestPose, transitioning := false, resetScheduled := false),
        InitialIntent)
  }

  /** The per-frame callback: while transitioning, lerp the position by
      `Damping`, look at the target, and stop once within the tolerance. */
  function Step(n: Nav): (r: Nav)
    ensures r.target == n.target && r.active == n.active
    ensures r.transitioning ==> n.transitioning
    ensures n.transitioning ==> r.camera.lookAt == n.target.lookAt
  {
    if !n.transitioning then n
    else
      var p := Lerp(n.camera.position, n.target.position, Damping);
      n.(camera := Pose(p, n.target.lookAt), transitioning := !(DistSq(p, n.target.position) < ToleranceSq))
  }

  /** The hotspots whose annotation is rendered: none unless the slide is
      active, an annotation id is set (and non-empty, as JavaScript
      truthiness demands) and no reset is pending; otherwise those whose id
      matches the active one. */
  function Visible(isActive: bool, active: Option<string>, needsReset: bool): (r: seq<Hotspot>)
    ensures r != [] ==> isActive && active.Some? && !needsReset
    ensures forall h :: h in r ==> h in SpherePositions && h.id == active.value
  {
    if isActive && active.Some? && active.value != "" && !needsReset
    then FilterById(SpherePositions, active.value)
    else []
  }

  function Shown(s: Snapshot, isActive: bool): (r: seq<Hotspot>)
    ensures s.intent.needsReset || !isActive || s.nav.active.None? ==> r == []
  {
    Visible(isActive, s.nav.active, s.intent.needsReset)
  }

  /** The active annotation, when set, names a registered hotspot. */
  predicate Consistent(n: Nav)
  {
    n.active.Some? ==> Registered(SpherePositions, n.active.value)
  }

  // ---------------------------------------------------------------------
  // Properties

  lemma RegistryIdsUnique()
    ensures UniqueIds(SpherePositions)
  {
  }

  /** With unique ids the filter keeps exactly the hotspot `find` returns. */
  lemma {:induction false} FilterIsFind(reg: seq<Hotspot>, id: string)
    requires UniqueIds(reg)
    ensures FilterById(reg, id) == (match Find(reg, id) case None => [] case Some(h) => [h])
  {
    if reg != [] {
      assert UniqueIds(reg[1..]) by {
        forall i, j | 0 <= i < j < |reg| - 1 ensures reg[1..][i].id != reg[1..][j].id {
          assert reg[1..][i] == reg[i + 1] && reg[1..][j] == reg[j + 1];
        }
      }
      FilterIsFind(reg[1..], id);
      if reg[0].id == id {
        assert !Registered(reg[1..], id) by {
          forall i | 0 <= i < |reg| - 1 ensures reg[1..][i].id != id {
            assert reg[1..][i] == reg[i + 1];
          }
        }
      }
    }
  }

  /** The atom's initial value mounts a resting, idle slide. */
  lemma InitialState()
    ensures Mount(InitialIntent).target == Pose(RestPosition, Origin)
    ensures RestPosition == Vec3(3.0, 5.0, 20.0) && Origin == Vec3(0.0, 0.0, 0.0)
    ensures Mount(InitialIntent).active == None && !Mount(InitialIntent).transitioning
    ensures !InitialIntent.needsReset && !Mount(InitialIntent).resetScheduled
    ensures Consistent(Mount(InitialIntent))
  {
  }

  lemma ClickRegistered(s: Snapshot, i: nat)
    requires i < |SpherePositions|
    ensures var h, r := SpherePositions[i], Click(s, SpherePositions[i].id);
      && r.nav.target == Pose(h.cameraPos, h.position)
      && r.nav.active == Some(h.id) && r.nav.transitioning
      && r.nav.camera == s.nav.camera
      && r.nav.seenNeedsReset == s.nav.seenNeedsReset && r.nav.resetScheduled == s.nav.resetScheduled
      && r.intent == Intent(h.cameraPos, h.position, s.intent.needsReset)
  {
    RegistryIdsUnique();
    var f := Find(SpherePositions, SpherePositions[i].id);
    assert f == Some(SpherePositions[i]);
  }

  lemma ClickUnknown(s: Snapshot, id: string)
    requires !Registered(SpherePositions, id)
    ensures Click(s, id) == s
  {
  }

  /** The per-slide scene data is not wired to the hotspots: one of its
      hotspot ids is unknown to the registry, so clicking it changes nothing. */
  lemma SceneDataIdIsUnknown(s: Snapshot)
    ensures Click(s, "model-t-glass") == s
  {
    assert !Registered(SpherePositions, "model-t-glass") by {
      forall i | 0 <= i < |SpherePositions|
        ensures SpherePositions[i].id != "model-t-glass"
      {
        assert SpherePositions[i].id[0] == 's';
      }
    }
  }

  lemma ClickIdempotent(s: Snapshot, id: string)
    ensures Click(Click(s, id), id) == Click(s, id)
  {
  }

  lemma ClickPreservesConsistent(s: Snapshot, id: string)
    requires Consistent(s.nav)
    ensures Consistent(Click(s, id).nav)
  {
  }

  /** Phase 1 clears the annotation and touches no pose; from then on, as
      long as the flag stays set, no annotation is rendered. */
  lemma ResetPhaseOne(s: Snapshot, isActive: bool)
    requires s.intent.needsReset && !s.nav.seenNeedsReset
    ensures var r := Commit(s);
      && r.nav.active == None && r.nav.resetScheduled
      && r.nav.camera == s.nav.camera && r.nav.target == s.nav.target
      && r.nav.transitioning == s.nav.transitioning && r.intent == s.intent
      && Shown(r, isActive) == []
  {
  }

  lemma NothingShownWhileResetPending(s: Snapshot, isActive: bool)
    requires s.intent.needsReset
    ensures Shown(s, isActive) == []
  {
  }

  lemma ResetPhaseTwo(s: Snapshot)
    requires s.nav.resetScheduled
    ensures var r := ResetFrame(s);
      && r.nav.camera == RestPose && r.nav.target == RestPose
      && !r.nav.transitioning && !r.nav.resetScheduled
      && r.intent == InitialIntent
      && r.nav.active == s.nav.active
  {
  }

  lemma CommitAndResetPreserveConsistent(s: Snapshot)
    requires Consistent(s.nav)
    ensures Consistent(Commit(s).nav) && Consistent(ResetFrame(s).nav)
  {
  }

  /** Phase 2 does not clear the annotation: a click that lands between the
      two phases leaves that hotspot's annotation rendered while the camera
      rests at the resting pose. */
  lemma ClickBetweenResetPhases(s: Snapshot)
    requires s.intent.needsReset && !s.nav.seenNeedsReset
    ensures var r := Commit(ResetFrame(Click(Commit(s), "sphere1")));
      && r.nav.camera == RestPose && !r.nav.transitioning && !r.intent.needsReset
      && Shown(r, true) == [SpherePositions[0]]
  {
    RegistryIdsUnique();
    ClickRegistered(Commit(s), 0);
    FilterIsFind(SpherePositions, "sphere1");
  }

  /** Every registered id is a non-empty string, so it is truthy. */
  lemma RegisteredIdsNonEmpty(id: string)
    requires Registered(SpherePositions, id)
    ensures id != ""
  {
    var j :| 0 <= j < |SpherePositions| && SpherePositions[j].id == id;
    assert |SpherePositions[j].id| == 7;
  }

  /** An annotation is rendered exactly when the slide is active, the id is
      set and no reset is pending, and then it is that one hotspot alone. */
  lemma VisibleIff(s: Snapshot, isActive: bool)
    requires Consistent(s.nav)
    ensures Shown(s, isActive) != [] <==> isActive && s.nav.active.Some? && !s.intent.needsReset
    ensures Shown(s, isActive) != [] ==>
      (exists i :: 0 <= i < |SpherePositions| &&
         Shown(s, isActive) == [SpherePositions[i]] && SpherePositions[i].id == s.nav.active.value)
  {
    if s.nav.active.Some? {
      var id := s.nav.active.value;
      RegistryIdsUnique();
      RegisteredIdsNonEmpty(id);
      FilterIsFind(SpherePositions, id);
      var h := Find(SpherePositions, id).value;
      assert FilterById(SpherePositions, id) == [h];
    }
  }

  lemma StepKeepsTargetAndAnnotation(n: Nav)
    ensures Step(n).active == n.active && Step(n).target == n.target
    ensures Step(n).seenNeedsReset == n.seenNeedsReset && Step(n).resetScheduled == n.resetScheduled
    ensures Consistent(n) ==> Consistent(Step(n))
  {
  }

  // ---------------------------------------------------------------------
  // The mutable form

  /** The shared atom, one object referenced by every slide. */
  class CameraIntent {
    var position: Vec3
    var lookAt: Vec3
    var needsReset: bool

    function Value(): Intent
      reads this
    {
      Intent(position, lookAt, needsReset)
    }

    constructor ()
      ensures Value() == InitialIntent
    {
      position, lookAt, needsReset := RestPosition, Origin, false;
    }

    /** The request written from outside this component that the reset
        effect reacts to. */
    method RequestReset()
      modifies this
      ensures Value() == old(Value()).(needsReset := true)
    {
      needsReset := true;
    }
  }

  class SceneController {
    const intent: CameraIntent
    var cameraPosition: Vec3
    var cameraLookAt: Vec3
    var targetPosition: Vec3
    var targetLookAt: Vec3
    var activeAnnotation: Option<string>
    var isTransitioning: bool
    var seenNeedsReset: bool
    var resetScheduled: bool

    function State(): Nav
      reads this
    {
      Nav(Pose(cameraPosition, cameraLookAt), Pose(targetPosition, targetLookAt),
          activeAnnotation, isTransitioning, seenNeedsReset, resetScheduled)
    }

    function Snap(): Snapshot
      reads this, intent
    {
      Snapshot(State(), intent.Value())
    }

    predicate Valid()
      reads this
    {
      Consistent(State())
    }

    constructor (shared: CameraIntent)
      ensures intent == shared && State() == Mount(shared.Value()) && Valid()
    {
      intent := shared;
      cameraPosition, cameraLookAt := RestPosition, Origin;
      targetPosition, targetLookAt := shared.position, shared.lookAt;
      activeAnnotation, isTransitioning := None, false;
      seenNeedsReset, resetScheduled := shared.needsReset, shared.needsReset;
    }

    method HandleSphereClick(id: string)
      requires Valid()
      modifies this, intent
      ensures Valid() && Snap() == Click(old(Snap()), id)
    {
      var found := Find(SpherePositions, id);
      if found.Some? {
        var h := found.value;
        isTransitioning := true;
        targetPosition, targetLookAt := h.cameraPos, h.position;
        activeAnnotation := Some(id);
        intent.position, intent.lookAt := h.cameraPos, h.position;
      }
    }

    method ResetEffect()
      requires Valid()
      modifies this
      ensures Valid() && Snap() == Commit(old(Snap()))
    {
      if intent.needsReset != seenNeedsReset {
        seenNeedsReset := intent.needsReset;
        if intent.needsReset {
          activeAnnotation := None;
          resetScheduled := true;
        }
      }
    }

    method AnimationFrame()
      requires Valid()
      modifies this, intent
      ensures Valid() && Snap() == ResetFrame(old(Snap()))
    {
      if resetScheduled {
        cameraPosition, cameraLookAt := RestPosition, Origin;
        targetPosition, targetLookAt := RestPosition, Origin;
        isTransitioning := false;
        intent.position, intent.lookAt, intent.needsReset := RestPosition, Origin, false;
        resetScheduled := false;
      }
    }

    method Frame()
      requires Valid()
      modifies this
      ensures Valid() && State() == Step(old(State())) && intent.Value() == old(intent.Value())
    {
      if isTransitioning {
        cameraPosition := Lerp(cameraPosition, targetPosition, Damping);
        cameraLookAt := targetLookAt;
        if DistSq(cameraPosition, targetPosition) < ToleranceSq {
          isTransitioning := false;
        }
      }
    }
  }
}
