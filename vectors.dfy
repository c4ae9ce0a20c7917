// Unity's Vector3 and Quaternion, reduced to what the cloud engine uses.
module Vectors {

  /** A 3D vector over the reals (Unity's Vector3, without float rounding). */
  datatype Vec3 = Vec3(x: real, y: real, z: real)

  /** A rotation quaternion; the engine only ever uses the identity. */
  datatype Quaternion = Quaternion(x: real, y: real, z: real, w: real)

  /** Vector3.zero */
  const Zero: Vec3 := Vec3(0.0, 0.0, 0.0)

  /** Quaternion.identity */
  const Identity: Quaternion := Quaternion(0.0, 0.0, 0.0, 1.0)

  /** The vector (s, s, s). */
  function Uniform(s: real): Vec3
  {
    Vec3(s, s, s)
  }

  /** A vector whose three components are equal. */
  predicate IsUniform(v: Vec3)
  {
    v.x == v.y == v.z
  }

  /** Component-wise sum (Vector3's operator +). */
  function Add(a: Vec3, b: Vec3): Vec3
  {
    Vec3(a.x + b.x, a.y + b.y, a.z + b.z)
  }
}

// The tunable parameters of the GenerateClouds component.
module Config {

  /** Inspector-set parameters; constant once Start has run. */
  datatype Settings = Settings(
    cloudSize: real,      // world-space spacing between adjacent grid cells
    maxScale: real,       // upper bound on a cloud's scale
    timeScale: real,      // rate at which the noise offsets advance
    texScale: real,       // grid coordinate to noise-space multiplier
    minNoiseSize: real,   // visibility threshold on the noise value
    sizeScale: real,      // scale units gained or lost per second
    maxDist: int,         // activation radius around the camera
    batchesToCreate: int  // grid side length, in batches
  )

  /** The component's field initialisers; maxDist and batchesToCreate have no initialiser. */
  function Defaults(maxDist: int, batchesToCreate: int): Settings
  {
    Settings(5.0, 1.0, 1.0, 1.0, 0.5, 0.25, maxDist, batchesToCreate)
  }
}
