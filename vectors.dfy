/** Three-component vectors (three.js `Vector3`, Blender `Vector`), with real coordinates. */
module Vectors {
  datatype Vec3 = Vec3(x: real, y: real, z: real)

  const Origin := Vec3(0.0, 0.0, 0.0)

  function Add(a: Vec3, b: Vec3): Vec3 {
    Vec3(a.x + b.x, a.y + b.y, a.z + b.z)
  }

  function Sub(a: Vec3, b: Vec3): Vec3 {
    Vec3(a.x - b.x, a.y - b.y, a.z - b.z)
  }

  /** `v *= s` on a vector: every component multiplied by the scalar. */
  function Scale(v: Vec3, s: real): Vec3 {
    Vec3(v.x * s, v.y * s, v.z * s)
  }

  /** three.js `v.addScaledVector(axis, s)`. */
  function AddScaled(v: Vec3, axis: Vec3, s: real): Vec3 {
    Add(v, Scale(axis, s))
  }

  function Max(a: real, b: real): real {
    if a >= b then a else b
  }

  /** `Math.max(v.x, v.y, v.z)`. */
  function MaxComponent(v: Vec3): real {
    Max(Max(v.x, v.y), v.z)
  }
}
