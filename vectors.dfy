/**
 * The small vector algebra the core uses: three-component vectors (the
 * `[number, number, number]` tuples and `Vector3`s of the source) and
 * quaternions in `[x, y, z, w]` order. Coordinates are mathematical reals.
 */
module Vectors {

  datatype Vec3 = Vec3(x: real, y: real, z: real)

  /** A quaternion with vector part (x, y, z) and scalar part w. */
  datatype Quat = Quat(x: real, y: real, z: real, w: real)

  const Zero: Vec3 := Vec3(0.0, 0.0, 0.0)

  /** The world's up direction. */
  const WorldUp: Vec3 := Vec3(0.0, 1.0, 0.0)

  /** The identity rotation, `[0, 0, 0, 1]`. */
  const Identity: Quat := Quat(0.0, 0.0, 0.0, 1.0)

  function Dot(a: Vec3, b: Vec3): real
  {
    a.x * b.x + a.y * b.y + a.z * b.z
  }

  function Neg(a: Vec3): Vec3
  {
    Vec3(-a.x, -a.y, -a.z)
  }

  /** Hamilton product `a * b`, in the component order three.js uses for `multiplyQuaternions(a, b)`. */
  function Mul(a: Quat, b: Quat): Quat
  {
    Quat(a.x * b.w + a.w * b.x + a.y * b.z - a.z * b.y,
         a.y * b.w + a.w * b.y + a.z * b.x - a.x * b.z,
         a.z * b.w + a.w * b.z + a.x * b.y - a.y * b.x,
         a.w * b.w - a.x * b.x - a.y * b.y - a.z * b.z)
  }

  /**
   * three.js `Vector3.applyQuaternion`: v + w t + u × t with t = 2 (u × v),
   * where u is the vector part of q. For a unit quaternion this is the
   * rotation of v by q; the source never normalises its input, so neither
   * does this function.
   */
  function Rotate(v: Vec3, q: Quat): Vec3
  {
    var tx := 2.0 * (q.y * v.z - q.z * v.y);
    var ty := 2.0 * (q.z * v.x - q.x * v.z);
    var tz := 2.0 * (q.x * v.y - q.y * v.x);
    Vec3(v.x + q.w * tx + q.y * tz - q.z * ty,
         v.y + q.w * ty + q.z * tx - q.x * tz,
         v.z + q.w * tz + q.x * ty - q.y * tx)
  }

  /** A rotation by some angle about the world Y axis: (0, sin(θ/2), 0, cos(θ/2)). */
  predicate IsYaw(r: Quat)
  {
    r.x == 0.0 && r.z == 0.0 && r.y * r.y + r.w * r.w == 1.0
  }
}
