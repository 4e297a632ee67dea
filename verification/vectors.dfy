/** Exact real-valued stand-ins for the glm vector types the demos use. */
module Vectors {

  /** A glm::vec3 over exact reals. */
  datatype Vec3 = Vec3(x: real, y: real, z: real)

  /** A glm::vec2 over exact reals. */
  datatype Vec2 = Vec2(x: real, y: real)

  function Add(a: Vec3, b: Vec3): Vec3 {
    Vec3(a.x + b.x, a.y + b.y, a.z + b.z)
  }

  function Sub(a: Vec3, b: Vec3): Vec3 {
    Vec3(a.x - b.x, a.y - b.y, a.z - b.z)
  }

  function Scale(a: Vec3, k: real): Vec3 {
    Vec3(a.x * k, a.y * k, a.z * k)
  }

  /** glm::vec3(s): all three components equal to s. */
  function Splat(s: real): Vec3 {
    Vec3(s, s, s)
  }
}
