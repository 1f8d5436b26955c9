/** Points and vectors of the scene, with exact real coordinates. */
module Geometry {

  datatype Vec3 = Vec3(x: real, y: real, z: real)

  function Add(a: Vec3, b: Vec3): Vec3 {
    Vec3(a.x + b.x, a.y + b.y, a.z + b.z)
  }

  function Sub(a: Vec3, b: Vec3): Vec3 {
    Vec3(a.x - b.x, a.y - b.y, a.z - b.z)
  }

  function Dot(a: Vec3, b: Vec3): real {
    a.x * b.x + a.y * b.y + a.z * b.z
  }

  /** Squared Euclidean distance between two points. */
  function SqDist(a: Vec3, b: Vec3): real {
    Dot(Sub(a, b), Sub(a, b))
  }

  /** `d` is the Euclidean distance between `a` and `b` (the square root is
      not computed: a caller supplies it, and this predicate pins it down). */
  predicate IsDistance(d: real, a: Vec3, b: Vec3) {
    d >= 0.0 && d * d == SqDist(a, b)
  }

}
