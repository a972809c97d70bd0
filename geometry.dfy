/**
 * Exact stand-ins for the engine's vector, rotator and transform types.
 * Reals replace single-precision floats; scale is not tracked.
 */
module Geometry {

  /** An FVector: X, Y and Z in world units. */
  datatype Vec = Vec(x: real, y: real, z: real)

  const Zero: Vec := Vec(0.0, 0.0, 0.0)

  /** Component i of v: 0 is X, 1 is Y, 2 is Z (FVector::operator[]). */
  function Comp(v: Vec, i: int): real
    requires 0 <= i < 3
  {
    if i == 0 then v.x else if i == 1 then v.y else v.z
  }

  function Add(a: Vec, b: Vec): (r: Vec)
    ensures forall i | 0 <= i < 3 :: Comp(r, i) == Comp(a, i) + Comp(b, i)
  {
    Vec(a.x + b.x, a.y + b.y, a.z + b.z)
  }

  function Sub(a: Vec, b: Vec): (r: Vec)
    ensures forall i | 0 <= i < 3 :: Comp(r, i) == Comp(a, i) - Comp(b, i)
  {
    Vec(a.x - b.x, a.y - b.y, a.z - b.z)
  }

  /** Component-wise product, as FVector's operator*. */
  function Mul(a: Vec, b: Vec): (r: Vec)
    ensures forall i | 0 <= i < 3 :: Comp(r, i) == Comp(a, i) * Comp(b, i)
  {
    Vec(a.x * b.x, a.y * b.y, a.z * b.z)
  }

  /** An FRotator. Rotation maths is engine library code and stays uninterpreted. */
  datatype Rot = Rot(pitch: real, yaw: real, roll: real)

  /** An FTransform reduced to its location and rotation. */
  datatype Transform = Transform(location: Vec, rotation: Rot)
}
