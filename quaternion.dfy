/** The rotation type of the demo and the operations on it that the demo calls.

    The numerical bodies of these operations (trigonometry, f32 products,
    spherical interpolation) are not part of this model: the demo only ever
    composes, interpolates and constructs rotations, so every operation except
    the identity is carried around as an uninterpreted function value. One
    lemma, Sequencer.SegmentStartShowsPrefix, takes the law
    `slerp(a, b, 0.0) == a` as a hypothesis; no other proof assumes any law
    of them. */
module Quaternions {

  /** A rotation as the four components of a quaternion (f32 in the source,
      exact reals here). */
  datatype Quaternion = Quaternion(w: real, x: real, y: real, z: real)

  /** `Quaternion::identity()`: the rotation that does nothing. */
  function Identity(): Quaternion {
    Quaternion(1.0, 0.0, 0.0, 0.0)
  }

  /** The operations of the quaternion module (and the one vector operation of
      nalgebra) that the demo uses, as parameters of the model. */
  datatype Operations = Operations(
    // `a * b`, also used as `a *= b`
    mul: (Quaternion, Quaternion) -> Quaternion,
    // `a.slerp(b, t)`
    slerp: (Quaternion, Quaternion, real) -> Quaternion,
    // `Quaternion::from_euler_angles(yaw, pitch, roll)`, angles in radians
    fromEulerAngles: (real, real, real) -> Quaternion,
    // `Quaternion::from_axis_angle(x, y, z, angle)`, angle in radians
    fromAxisAngle: (real, real, real, real) -> Quaternion,
    // `Vector3::normalize` applied to the axis chosen with the sliders
    normalize: (real, real, real) -> (real, real, real)
  )
}
