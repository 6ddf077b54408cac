/** Three- and four-component vectors as the demo uses them, with the
    floating-point geometry it cannot do without left opaque.

    Components are reals: the demo's `float` rounding is not modelled.
    `glm::normalize` (a square root) and `glm::rotate` (sine and cosine) are
    not computed here; every operation that needs them receives a `Geometry`
    value that supplies them, so that the model states which fields each
    rotation writes and from which inputs, without claiming anything about
    the numbers it writes. */
module Vectors {

  datatype Vec3 = Vec3(x: real, y: real, z: real)

  datatype Vec4 = Vec4(x: real, y: real, z: real, w: real)

  /** The two operations of the GL mathematics library whose results this
      model does not compute. `rotate(angle, axis, v)` is the matrix
      `glm::rotate(angle, axis)` applied to `v`. */
  datatype Geometry = Geometry(normalize: Vec3 -> Vec3, rotate: (real, Vec3, Vec3) -> Vec3)

  const Origin: Vec3 := Vec3(0.0, 0.0, 0.0)

  /** The colour a light shows while it is switched off. */
  const Black: Vec3 := Vec3(0.0, 0.0, 0.0)

  function Sub(a: Vec3, b: Vec3): (r: Vec3)
    ensures Add(r, b) == a
  {
    Vec3(a.x - b.x, a.y - b.y, a.z - b.z)
  }

  function Add(a: Vec3, b: Vec3): Vec3
  {
    Vec3(a.x + b.x, a.y + b.y, a.z + b.z)
  }

  function Neg(a: Vec3): (r: Vec3)
    ensures Add(a, r) == Origin
  {
    Vec3(-a.x, -a.y, -a.z)
  }

  function Dot(a: Vec3, b: Vec3): real
  {
    a.x * b.x + a.y * b.y + a.z * b.z
  }

  /** `glm::cross`: the result is orthogonal to both arguments. */
  function Cross(a: Vec3, b: Vec3): (r: Vec3)
    ensures Dot(r, a) == 0.0 && Dot(r, b) == 0.0
  {
    Vec3(a.y * b.z - a.z * b.y, a.z * b.x - a.x * b.z, a.x * b.y - a.y * b.x)
  }

  /** `glm::vec4(v, w)`: the vector in homogeneous coordinates. */
  function Extend(v: Vec3, w: real): (r: Vec4)
    ensures Xyz(r) == v && r.w == w
  {
    Vec4(v.x, v.y, v.z, w)
  }

  function Xyz(v: Vec4): Vec3
  {
    Vec3(v.x, v.y, v.z)
  }
}
