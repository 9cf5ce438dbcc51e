/** Facing, grace-window constants and the movement tuning of the player
    character. Speeds are in physics units per second, accelerations in
    physics units per second squared, times in seconds. */
module Physics {

  /** The direction the sprite faces (FacingDir). */
  datatype Facing = Left | Right

  /** How long after leaving the ground or a wall a jump is still allowed. */
  const COYOTE_TIME_SECS: real := 0.1

  /** How long an early jump press is remembered. */
  const BUFFER_JUMP_TIME_SECS: real := 0.1

  /** The per-entity movement constants; they never change after construction. */
  datatype Tuning = Tuning(
    runSpeed: real,
    jumpSpeed: real,
    wallSlideSpeed: real,
    maxFallSpeed: real,
    groundAccel: real,
    airAccel: real,
    gravity: real)
  {
    /** Every constant is positive. */
    predicate Valid() {
      runSpeed > 0.0 && jumpSpeed > 0.0 && wallSlideSpeed > 0.0 && maxFallSpeed > 0.0
      && groundAccel > 0.0 && airAccel > 0.0 && gravity > 0.0
    }
  }

  /** The player's constants, derived from the physics scale (physics units
      per pixel) and the frame rate, as the field initialisers and the
      constructor of Player compute them. */
  function PlayerTuning(physicsScale: real, fps: real): (t: Tuning)
    requires physicsScale > 0.0 && fps > 0.0
    ensures t.Valid()
    ensures t.wallSlideSpeed < t.runSpeed < t.jumpSpeed
    ensures t.maxFallSpeed == t.jumpSpeed
    ensures t.groundAccel == 2.0 * t.airAccel
  {
    var speed := physicsScale * fps;
    var accel := speed * fps;
    assert speed > 0.0 && accel > 0.0;
    Tuning(
      runSpeed := 1.5 * speed,
      jumpSpeed := 3.0 * speed,
      wallSlideSpeed := 1.0 * speed,
      maxFallSpeed := 3.0 * speed,
      groundAccel := 0.25 * accel / 2.0,
      airAccel := 0.125 * accel / 2.0,
      gravity := 0.13 * accel)
  }
}
