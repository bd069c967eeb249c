/** The per-frame approach of a slide's camera to its target
    (src/components/Scene.jsx, the frame callback): each frame removes a
    tenth of the remaining offset, so the squared distance shrinks by the
    factor 0.81, the camera never overshoots, and the transition always
    ends after finitely many frames. */
module Convergence {
  import opened Geometry
  import opened Scene

  /** The camera state after `k` frames. */
  function Iterate(n: Nav, k: nat): Nav
  {
    if k == 0 then n else Step(Iterate(n, k - 1))
  }

  function Pow(x: real, k: nat): (r: real)
    ensures x > 0.0 ==> r > 0.0
  {
    if k == 0 then 1.0 else x * Pow(x, k - 1)
  }

  lemma ScaledSquare(a: real, c: real)
    ensures (c * a) * (c * a) == (c * c) * (a * a)
  {
  }

  /** One frame while transitioning: the offset to the target is scaled by
      0.9 per coordinate, which multiplies the squared distance by 0.81, keeps
      every coordinate between its old value and the target's, points the
      camera at the target, and ends the transition exactly when the new
      distance is below 0.1. */
  lemma StepContracts(n: Nav)
    requires n.transitioning
    ensures var r, p, t := Step(n), n.camera.position, n.target.position;
      var q := r.camera.position;
      && DistSq(q, t) == 0.81 * DistSq(p, t)
      && Between(p.x, q.x, t.x) && Between(p.y, q.y, t.y) && Between(p.z, q.z, t.z)
      && r.camera.lookAt == n.target.lookAt
      && r.target == n.target && r.active == n.active
      && (r.transitioning <==> DistSq(q, t) >= 0.01)
  {
    var p, t := n.camera.position, n.target.position;
    var q := Step(n).camera.position;
    assert q.x - t.x == 0.9 * (p.x - t.x);
    assert q.y - t.y == 0.9 * (p.y - t.y);
    assert q.z - t.z == 0.9 * (p.z - t.z);
    ScaledSquare(p.x - t.x, 0.9);
    ScaledSquare(p.y - t.y, 0.9);
    ScaledSquare(p.z - t.z, 0.9);
  }

  /** The distance to the target strictly falls on every frame that does
      not start on the target. */
  lemma StepStrictlyCloser(n: Nav)
    requires n.transitioning && DistSq(n.camera.position, n.target.position) > 0.0
    ensures DistSq(Step(n).camera.position, n.target.position) < DistSq(n.camera.position, n.target.position)
  {
    StepContracts(n);
  }

  lemma StepIdle(n: Nav)
    requires !n.transitioning
    ensures Step(n) == n
  {
  }

  /** What `k` frames do to a slide that starts transitioning: the target
      and annotation stay put; while still transitioning the squared
      distance is `0.81^k` of the initial one; once stopped, the camera is
      within the tolerance and looks at the target. */
  lemma {:induction false} IterateState(n: Nav, k: nat)
    requires n.transitioning
    ensures var m := Iterate(n, k);
      && m.target == n.target && m.active == n.active
      && m.seenNeedsReset == n.seenNeedsReset && m.resetScheduled == n.resetScheduled
      && (m.transitioning ==>
            DistSq(m.camera.position, n.target.position) == Pow(0.81, k) * DistSq(n.camera.position, n.target.position))
      && (!m.transitioning ==>
            k >= 1 && DistSq(m.camera.position, n.target.position) < 0.01 && m.camera.lookAt == n.target.lookAt)
  {
    if k > 0 {
      IterateState(n, k - 1);
      var m := Iterate(n, k - 1);
      if m.transitioning {
        StepContracts(m);
        var d0 := DistSq(n.camera.position, n.target.position);
        assert Pow(0.81, k) * d0 == 0.81 * (Pow(0.81, k - 1) * d0);
      } else {
        StepIdle(m);
      }
    }
  }

  /** Bernoulli's inequality in the form `0.81^k * (1 + 0.19 k) <= 1`. */
  lemma {:induction false} PowBound(k: nat)
    ensures Pow(0.81, k) * (1.0 + 0.19 * k as real) <= 1.0
  {
    if k > 0 {
      PowBound(k - 1);
      var p := Pow(0.81, k - 1);
      var j := (k - 1) as real;
      assert p > 0.0;
      calc {
        Pow(0.81, k) * (1.0 + 0.19 * k as real);
        p * (0.81 * (1.19 + 0.19 * j));
      <= { MulMono(p, 0.81 * (1.19 + 0.19 * j), 1.0 + 0.19 * j); }
        p * (1.0 + 0.19 * j);
      }
    }
  }

  lemma MulMono(p: real, a: real, b: real)
    requires p >= 0.0 && a <= b
    ensures p * a <= p * b
  {
    assert p * b - p * a == p * (b - a);
  }

  /** The transition always ends: some number of frames brings the camera
      within 0.1 of the target and clears the flag. */
  lemma Converges(n: Nav)
    requires n.transitioning
    ensures exists k: nat :: !Iterate(n, k).transitioning
  {
    var d0 := DistSq(n.camera.position, n.target.position);
    var k: nat := (d0 * 10000.0 / 19.0).Floor + 1;
    var p, growth := Pow(0.81, k), 0.19 * k as real;
    PowBound(k);
    assert p * (1.0 + growth) == p + p * growth;
    assert growth > 100.0 * d0;
    MulMono(p, 100.0 * d0, growth);
    assert p * (100.0 * d0) == 100.0 * (p * d0);
    var pd, pg := p * d0, p * growth;
    assert p > 0.0 && p + pg <= 1.0 && 100.0 * pd <= pg;
    assert pd < 0.01;
    IterateState(n, k);
  }

  /** Clicking a registered hotspot and letting the frames run brings the
      camera within 0.1 of that hotspot's camera position, looking at the
      hotspot, with its annotation the one rendered on the active slide
      unless a reset is pending. */
  lemma ClickThenSettle(s: Snapshot, i: nat, isActive: bool)
    requires i < |SpherePositions|
    ensures var h, c := SpherePositions[i], Click(s, SpherePositions[i].id);
      exists k: nat ::
        var m := Iterate(c.nav, k);
        && !m.transitioning
        && DistSq(m.camera.position, h.cameraPos) < 0.01
        && m.camera.lookAt == h.position
        && Shown(Snapshot(m, c.intent), isActive) ==
             (if isActive && !s.intent.needsReset then [h] else [])
  {
    var h, c := SpherePositions[i], Click(s, SpherePositions[i].id);
    ClickRegistered(s, i);
    Converges(c.nav);
    var k: nat :| !Iterate(c.nav, k).transitioning;
    IterateState(c.nav, k);
    var m := Iterate(c.nav, k);
    assert Consistent(m);
    VisibleIff(Snapshot(m, c.intent), isActive);
    assert Shown(Snapshot(m, c.intent), isActive) ==
             (if isActive && !s.intent.needsReset then [h] else []) by {
      RegistryIdsUnique();
      FilterIsFind(SpherePositions, h.id);
      RegisteredIdsNonEmpty(h.id);
    }
  }
}
