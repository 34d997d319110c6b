/** The fixed parameters of the Pong game: screen size, speeds, sizes and the
    winning score. The source's `float` constants are modelled as `real`. */
module Config {
  datatype Vector2 = Vector2(x: real, y: real)

  /** Component-wise sum, the `+` on vectors used by the ball update. */
  function Add(a: Vector2, b: Vector2): Vector2
  {
    Vector2(a.x + b.x, a.y + b.y)
  }

  /** Scaling by a scalar, the `*` on a vector and a float. */
  function Scale(v: Vector2, s: real): Vector2
  {
    Vector2(v.x * s, v.y * s)
  }

  const SCREEN_WIDTH: real := 1200.0
  const SCREEN_HEIGHT: real := 800.0
  const CENTER: Vector2 := Vector2(SCREEN_WIDTH * 0.5, SCREEN_HEIGHT * 0.5)

  /** The ball covers half the screen width per second. */
  const BALL_SPEED: real := SCREEN_WIDTH * 0.5
  const BALL_SIZE: real := 40.0

  /** A paddle covers half the screen height per second. */
  const PADDLE_SPEED: real := SCREEN_HEIGHT * 0.5
  const PADDLE_WIDTH: real := 40.0
  const PADDLE_HEIGHT: real := 80.0

  const WINNING_SCORE: int := 5
}
