/** Numeric settings of the game (src/constants.py). The speeds and gravity are
    modelled as exact reals, not IEEE doubles. */
module Constants {
  const SCREEN_WIDTH: int := 800
  const SCREEN_HEIGHT: int := 600
  const FPS: int := 60

  const PLAYER_WIDTH: int := 32
  const PLAYER_HEIGHT: int := 32
  const PLAYER_SPEED: real := 5.0
  const JUMP_POWER: real := 15.0
  const GRAVITY: real := 0.8
  const MAX_FALL_SPEED: real := 15.0

  const ENEMY_WIDTH: int := 40
  const ENEMY_HEIGHT: int := 40
  const ENEMY_SPEED: int := 2

  /** Seconds between two glitches, and how long one lasts. */
  const GLITCH_INTERVAL: real := 10.0
  const GLITCH_DURATION: real := 5.0
  const GLITCH_NOTIFICATION_TIME: real := 2.0
}
