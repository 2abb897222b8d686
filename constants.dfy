/** Numeric constants of the game. The logical canvas is 800 by 600 units; one unit of
    time is one frame. */
module Constants {
  const CANVAS_WIDTH: real := 800.0
  const CANVAS_HEIGHT: real := 600.0

  const PLAYER_SPEED: real := 5.0
  const PLAYER_WIDTH: real := 40.0
  const PLAYER_HEIGHT: real := 40.0
  const PLAYER_COLOR: string := "#3b82f6"

  const BULLET_SPEED: real := 10.0
  const BULLET_WIDTH: real := 6.0
  const BULLET_HEIGHT: real := 15.0
  /** Declared for bullets, but the canvas paints fired bullets "#60a5fa" instead. */
  const BULLET_COLOR: string := "#ef4444"
  /** Frames between two automatic shots. */
  const FIRE_RATE: int := 10

  /** Frames between two enemy spawns at score 0. */
  const ENEMY_SPAWN_RATE: int := 60
}
