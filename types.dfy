/** The enumerations and small vector records shared by the curves scene. */
module Types {

  /** Screen width classes, smallest first. */
  datatype ScreenWidth = S | M | L | XL

  /** The direction of a run of the progress state machine. */
  datatype Direction = Forward | Backward

  /** Display phase of the orb. */
  datatype OrbState = Hidden | Entering | Visible | Exiting | Gone

  /** A two-dimensional point or vector (three.js Vector2). */
  datatype Vec2 = Vec2(x: real, y: real)

  /** A three-dimensional point or vector (three.js Vector3). */
  datatype Vec3 = Vec3(x: real, y: real, z: real)
}
