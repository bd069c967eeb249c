/** Exact 3-vectors and camera poses shared by the slide scenes and the
    slide-to-slide camera handler. Coordinates are `real`, so every
    interpolation below is exact. */
module Geometry {

  datatype Vec3 = Vec3(x: real, y: real, z: real)

  /** A camera placement: where the camera is and the point it looks at. */
  datatype Pose = Pose(position: Vec3, lookAt: Vec3)

  const Origin := Vec3(0.0, 0.0, 0.0)

  /** Moves `p` the fraction `alpha` of the way to `t`, component by
      component, as `Vector3.lerp` does (`x += (t.x - x) * alpha`). */
  function Lerp(p: Vec3, t: Vec3, alpha: real): (r: Vec3)
    ensures r.x - t.x == (1.0 - alpha) * (p.x - t.x)
    ensures r.y - t.y == (1.0 - alpha) * (p.y - t.y)
    ensures r.z - t.z == (1.0 - alpha) * (p.z - t.z)
  {
    Vec3(p.x + (t.x - p.x) * alpha, p.y + (t.y - p.y) * alpha, p.z + (t.z - p.z) * alpha)
  }

  /** Squared Euclidean distance; `distanceTo(t) < c` is `DistSq < c * c`
      for a non-negative `c`, so no square root is needed. */
  function DistSq(p: Vec3, t: Vec3): (r: real)
    ensures r >= 0.0
  {
    var dx, dy, dz := p.x - t.x, p.y - t.y, p.z - t.z;
    SquareNonNegative(dx);
    SquareNonNegative(dy);
    SquareNonNegative(dz);
    dx * dx + dy * dy + dz * dz
  }

  lemma SquareNonNegative(d: real)
    ensures d * d >= 0.0
  {
    if d < 0.0 {
      var e := -d;
      assert e * e > 0.0;
      assert d * d == e * e;
    }
  }

  /** `v` lies on the closed segment between `a` and `b`, per coordinate. */
  predicate Between(a: real, v: real, b: real)
  {
    (a <= v <= b) || (b <= v <= a)
  }
}
