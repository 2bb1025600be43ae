/** Three-component vectors with the few `Vector3` operations the tyre code
    uses exactly (no square roots): sums, scaling, dot products and the
    removal of the component along a contact normal. */
module Vectors {

  datatype Vec3 = Vec3(x: real, y: real, z: real)

  const Zero: Vec3 := Vec3(0.0, 0.0, 0.0)

  /** `Vector3.up`. */
  const Up: Vec3 := Vec3(0.0, 1.0, 0.0)

  function Add(a: Vec3, b: Vec3): Vec3
  {
    Vec3(a.x + b.x, a.y + b.y, a.z + b.z)
  }

  function Sub(a: Vec3, b: Vec3): Vec3
  {
    Vec3(a.x - b.x, a.y - b.y, a.z - b.z)
  }

  function Scale(v: Vec3, k: real): Vec3
  {
    Vec3(v.x * k, v.y * k, v.z * k)
  }

  function Dot(a: Vec3, b: Vec3): real
  {
    a.x * b.x + a.y * b.y + a.z * b.z
  }

  /** A vector of unit length, stated without the square root. */
  predicate IsUnit(n: Vec3)
  {
    Dot(n, n) == 1.0
  }

  /** The vector with its component along `n` subtracted, the
      `v - n * Dot(v, n)` pattern the tyre code uses to keep a velocity or a
      force in the contact plane. */
  function Reject(v: Vec3, n: Vec3): (r: Vec3)
    ensures Dot(v, n) == 0.0 ==> r == v
  {
    Sub(v, Scale(n, Dot(v, n)))
  }

  /** Dot product distributes over subtraction and pulls out a scale
      factor. */
  lemma DotSubScale(v: Vec3, n: Vec3, k: real)
    ensures Dot(Sub(v, Scale(n, k)), n) == Dot(v, n) - k * Dot(n, n)
  {
  }

  /** Against a unit normal, what `Reject` leaves has no normal component
      at all. */
  lemma {:induction false} RejectOrthogonal(v: Vec3, n: Vec3)
    requires IsUnit(n)
    ensures Dot(Reject(v, n), n) == 0.0
  {
    DotSubScale(v, n, Dot(v, n));
  }

  /** Rejecting twice changes nothing: the first rejection already left the
      plane. */
  lemma RejectIdempotent(v: Vec3, n: Vec3)
    requires IsUnit(n)
    ensures Reject(Reject(v, n), n) == Reject(v, n)
  {
    RejectOrthogonal(v, n);
  }
}
