/** The constants of src/Config.ts that the core reads. */
module Config {
  import opened Vectors

  /** World gravity sent with INIT. */
  const GRAVITY: Vec3 := Vec3(0.0, -9.82, 0.0)

  /** Interpolation delay: two simulation frames of wall-clock milliseconds. */
  const PHYSICS_DELAY: real := (1000.0 / 60.0) * 2.0

  const DICE_SIZE: real := 0.5
  const DICE_MASS: real := 1.0
  const DICE_ID: string := "dice_1"
  const WALL_HEIGHT: real := 10.0
}
