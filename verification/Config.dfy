/** Compile-time constants of the world and of every snake. */
module Config {
  const SECTOR_SIZE := 300
  const EDGE: nat := 144           // twice the game radius of 21600, by SECTOR_SIZE
  const SECTORS: nat := 20736      // EDGE * EDGE
  const SECTOR_RADIUS := 212.5     // half of sector_diag_size = 425
  const STEP := 42                 // move_step_distance
  const FRAME_MS: nat := 8
  const BASE_SPEED := 185
  const BOOST_SPEED := 448
  const ROT_INTERVAL: nat := 93    // 1000 * STEP / BOOST_SPEED, truncated
  const AI_INTERVAL: nat := 1000
  const TAIL_K := 0.43
  const PI := 3.14159265358979323846
  const TWO_PI := 2.0 * PI
}
