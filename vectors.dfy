/** Three-component vectors over the reals, standing in for glm::vec3 of
    32-bit floats, and the two library operations the game logic uses on
    them: fabs and the "normalise when longer than one" clamp. */
module Vectors {

  datatype Vec3 = Vec3(x: real, y: real, z: real)

  const Zero: Vec3 := Vec3(0.0, 0.0, 0.0)

  function Add(a: Vec3, b: Vec3): Vec3 {
    Vec3(a.x + b.x, a.y + b.y, a.z + b.z)
  }

  /** Component-wise product with a scalar, as glm's `v * k`. */
  function Scale(v: Vec3, k: real): Vec3 {
    Vec3(v.x * k, v.y * k, v.z * k)
  }

  function Dot(a: Vec3, b: Vec3): real {
    a.x * b.x + a.y * b.y + a.z * b.z
  }

  /** The square of glm::length. Over the reals `length(v) > 1` holds
      exactly when `LengthSquared(v) > 1`, so the model compares squares
      and never needs a square root. */
  function LengthSquared(v: Vec3): real {
    Dot(v, v)
  }

  /** fabs */
  function Abs(r: real): (a: real)
    ensures a >= 0.0
    ensures a == r || a == -r
  {
    if r < 0.0 then -r else r
  }

  /** The cross product of a and b is zero. */
  predicate Parallel(a: Vec3, b: Vec3) {
    a.y * b.z == a.z * b.y && a.z * b.x == a.x * b.z && a.x * b.y == a.y * b.x
  }

  /** u is what glm::normalize returns for v: unit length, and pointing
      the same way as v. */
  predicate IsNormalOf(u: Vec3, v: Vec3) {
    LengthSquared(u) == 1.0 && Parallel(u, v) && Dot(u, v) > 0.0
  }

  /** The caller has supplied, in u, the normalisation of v whenever the
      clamp below will need it. */
  predicate NormalSupplied(v: Vec3, u: Vec3) {
    LengthSquared(v) > 1.0 ==> IsNormalOf(u, v)
  }

  /** `if (glm::length(v) > 1.0f) v = glm::normalize(v);` with the result of
      glm::normalize passed in as u. */
  function ClampLength(v: Vec3, u: Vec3): (r: Vec3)
    requires NormalSupplied(v, u)
    ensures LengthSquared(r) <= 1.0
    ensures LengthSquared(v) <= 1.0 ==> r == v
    ensures LengthSquared(v) > 1.0 ==> LengthSquared(r) == 1.0 && Parallel(r, v) && Dot(r, v) > 0.0
  {
    if LengthSquared(v) > 1.0 then u else v
  }

  /** Clamping an already clamped vector changes nothing, whatever
      normalisation is offered the second time. */
  lemma ClampLengthIdempotent(v: Vec3, u: Vec3, u': Vec3)
    requires NormalSupplied(v, u)
    ensures NormalSupplied(ClampLength(v, u), u')
    ensures ClampLength(ClampLength(v, u), u') == ClampLength(v, u)
  {
  }

  /** Changing the sign of components keeps the length. */
  lemma SignFlipsKeepLength(v: Vec3, w: Vec3)
    requires w.x == v.x || w.x == -v.x
    requires w.y == v.y || w.y == -v.y
    requires w.z == v.z || w.z == -v.z
    ensures LengthSquared(w) == LengthSquared(v)
  {
    assert w.x * w.x == v.x * v.x;
    assert w.y * w.y == v.y * v.y;
    assert w.z * w.z == v.z * v.z;
  }
}
