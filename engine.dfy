/** Host-engine values the player controllers read and write.

    The controllers only ever compare movement components with zero, copy
    them, or scale them, so vectors are pairs and triples of exact reals.
    Rotations are symbolic: the engine's quaternion interpolation is not
    part of this model, only whether a rotation was left alone or replaced,
    and by a turn towards which direction. */
module Engine {

  /** A two-component input axis value (what `ReadValue<Vector2>` yields). */
  datatype Vec2 = Vec2(x: real, y: real)

  /** A three-component world vector; `y` is the vertical axis. */
  datatype Vec3 = Vec3(x: real, y: real, z: real)

  const Zero2 := Vec2(0.0, 0.0)

  /** Component-wise scaling by a speed multiplier. */
  function Scale(v: Vec3, k: real): (r: Vec3)
    ensures r.x == 0.0 <==> v.x == 0.0 || k == 0.0
    ensures r.z == 0.0 <==> v.z == 0.0 || k == 0.0
  {
    Vec3(v.x * k, v.y * k, v.z * k)
  }

  /** The horizontal part of a world vector: the direction a character
      turns towards when it moves. */
  function Horizontal(v: Vec3): Vec3 {
    Vec3(v.x, 0.0, v.z)
  }

  /** The phase an input action reports to its callbacks. */
  datatype Phase = Started | Performed | Canceled

  /** What a callback can read from its context: the phase, the axis value
      of a vector action, and the value of a button action. */
  datatype CallbackContext = CallbackContext(phase: Phase, axis: Vec2, button: bool)

  /** A character's facing. `Turned(from, toward)` stands for
      `Slerp(from, LookRotation(toward), rotationMultiplier * deltaTime)`:
      the rotation reached by turning `from` part of the way towards the
      direction `toward`. */
  datatype Rotation = Spawn | Turned(from: Rotation, toward: Vec3)
}
