/**
 * Three-component vectors over the reals, standing in for the `[x, y, z]`
 * arrays and `THREE.Vector3` values of the scene. Floating-point rounding is
 * not modelled.
 */
module Geometry {
  import opened Options

  datatype Vec3 = Vec3(x: real, y: real, z: real)

  const Origin: Vec3 := Vec3(0.0, 0.0, 0.0)

  function Sub(a: Vec3, b: Vec3): Vec3 {
    Vec3(a.x - b.x, a.y - b.y, a.z - b.z)
  }

  /** Squared Euclidean distance; `distanceTo(b) < t` iff `DistSq(a, b) < t * t` for `t >= 0`. */
  function DistSq(a: Vec3, b: Vec3): (d: real)
    ensures d >= 0.0
  {
    var v := Sub(a, b);
    v.x * v.x + v.y * v.y + v.z * v.z
  }

  /** `a.lerp(b, k)` of the rendering library: each component moves by `(b - a) * k`. */
  function Lerp(a: Vec3, b: Vec3, k: real): Vec3 {
    Vec3(a.x + (b.x - a.x) * k, a.y + (b.y - a.y) * k, a.z + (b.z - a.z) * k)
  }

  /** One lerp step with factor k scales the remaining squared distance by (1 - k)^2. */
  lemma LerpScalesDistance(a: Vec3, b: Vec3, k: real)
    ensures DistSq(Lerp(a, b, k), b) == (1.0 - k) * (1.0 - k) * DistSq(a, b)
  {
    var l := Lerp(a, b, k);
    assert l.x - b.x == (1.0 - k) * (a.x - b.x);
    assert l.y - b.y == (1.0 - k) * (a.y - b.y);
    assert l.z - b.z == (1.0 - k) * (a.z - b.z);
  }

  /** A request to move the camera: a position and an optional look-at point. */
  datatype FocusRequest = FocusRequest(position: Vec3, lookAt: Option<Vec3>)
}
