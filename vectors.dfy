/** Unity's vector value types, as used by the terrain mesher.
    Vector3 holds 32-bit floats in the engine; here its components are exact
    rationals. Vector3Int holds 32-bit integers; here they are unbounded. */
module Vectors {

  /** A point or displacement in space (Unity's Vector3). */
  datatype Vec3 = Vec3(x: real, y: real, z: real)

  /** An integer grid coordinate or extent (Unity's Vector3Int). */
  datatype Vec3Int = Vec3Int(x: int, y: int, z: int)

  /** The same integer point as a real-valued point. */
  function ToVec3(p: Vec3Int): Vec3 {
    Vec3(p.x as real, p.y as real, p.z as real)
  }

  /** Componentwise addition of an integer grid offset. */
  function Translate(p: Vec3, x: int, y: int, z: int): Vec3 {
    Vec3(p.x + x as real, p.y + y as real, p.z + z as real)
  }

  /** The point a fraction `t` of the way from `a` to `b`. */
  function Lerp(a: Vec3, b: Vec3, t: real): Vec3 {
    Vec3(a.x + t * (b.x - a.x), a.y + t * (b.y - a.y), a.z + t * (b.z - a.z))
  }

  /** The point halfway between `a` and `b`. */
  function Midpoint(a: Vec3, b: Vec3): Vec3 {
    Lerp(a, b, 0.5)
  }

  /** Componentwise product of two integer vectors (Vector3Int's `*`). */
  function Scale(a: Vec3Int, b: Vec3Int): Vec3Int {
    Vec3Int(a.x * b.x, a.y * b.y, a.z * b.z)
  }

  /** Componentwise sum (Vector3Int's `+`). */
  function Add(a: Vec3Int, b: Vec3Int): Vec3Int {
    Vec3Int(a.x + b.x, a.y + b.y, a.z + b.z)
  }

  /** Componentwise difference (Vector3Int's `-`). */
  function Sub(a: Vec3Int, b: Vec3Int): Vec3Int {
    Vec3Int(a.x - b.x, a.y - b.y, a.z - b.z)
  }

  /** Vector3Int.one */
  const One: Vec3Int := Vec3Int(1, 1, 1)
}
