/**
 * Three-component real vectors, the representation of locations and
 * displacements in the simulation.  Only the arithmetic the agents use is
 * defined here: componentwise addition, scaling, the squared magnitude and
 * a direction test that needs no square root.
 */
module Vectors {

  datatype Vec3 = Vec3(x: real, y: real, z: real)

  const Zero := Vec3(0.0, 0.0, 0.0)

  /** Componentwise sum (the vector library's AddVec). */
  function Add(a: Vec3, b: Vec3): Vec3
  {
    Vec3(a.x + b.x, a.y + b.y, a.z + b.z)
  }

  /** Every component multiplied by k (the vector library's ScaleVec). */
  function Scale(v: Vec3, k: real): Vec3
  {
    Vec3(k * v.x, k * v.y, k * v.z)
  }

  function Dot(a: Vec3, b: Vec3): real
  {
    a.x * b.x + a.y * b.y + a.z * b.z
  }

  function Cross(a: Vec3, b: Vec3): Vec3
  {
    Vec3(a.y * b.z - a.z * b.y, a.z * b.x - a.x * b.z, a.x * b.y - a.y * b.x)
  }

  /** The square of the Euclidean magnitude; |v| > 5 exactly when MagSq(v) > 25. */
  function MagSq(v: Vec3): real
  {
    Dot(v, v)
  }

  /** a points the same way as b: the two are parallel and not opposed. */
  predicate SameDirection(a: Vec3, b: Vec3)
  {
    Cross(a, b) == Zero && Dot(a, b) > 0.0
  }

  /** u is a unit vector along v, which is what normalising v must produce. */
  predicate UnitAlong(u: Vec3, v: Vec3)
  {
    MagSq(u) == 1.0 && SameDirection(u, v)
  }

  lemma MagSqScale(v: Vec3, k: real)
    ensures MagSq(Scale(v, k)) == k * k * MagSq(v)
  {
  }

  /** Scaling by a positive factor keeps the direction. */
  lemma ScaleKeepsDirection(u: Vec3, v: Vec3, k: real)
    requires SameDirection(u, v) && k > 0.0
    ensures SameDirection(Scale(u, k), v)
  {
    assert Cross(Scale(u, k), v) == Scale(Cross(u, v), k);
    assert Dot(Scale(u, k), v) == k * Dot(u, v);
  }
}
