// The playing field and the tuning constants of the Pong script.
// Lengths are in canvas pixels, speeds in pixels per frame.
module Field {
  const Width: int := 600
  const Height: int := 400
  const PaddleWidth: int := 10
  const PaddleHeight: int := 60
  const BallSize: int := 10
  const InitialBallSpeedX: real := 5.0
  const InitialBallSpeedY: real := 5.0
  const PaddleSpeed: int := 9
  const BallSpeedIncrease: real := 0.25
  const MaxBallSpeed: real := 16.0
  const AiReactionDelay: nat := 3

  /** Half-width of the band around the ball's y in which the opponent keeps still. */
  const AiDeadband: real := 15.0

  /** Factor turning the hit offset from the paddle centre into vertical speed. */
  const SpinFactor: real := 0.3

  /** Left edges of the two paddles, fixed when they are built. */
  const Player1X: int := 20
  const Player2X: int := Width - 20 - PaddleWidth

  /** Top edge of a paddle centred vertically: where every reset puts it. */
  const PaddleStartY: int := Height / 2 - PaddleHeight / 2

  /** The lowest top edge a paddle may have. */
  const MaxPaddleY: int := Height - PaddleHeight

  /** Where a reset puts the ball's top-left corner. */
  const BallStartX: real := (Width / 2) as real
  const BallStartY: real := (Height / 2) as real

  /** A speed component below MaxBallSpeed may still grow once, so this bound is never reached. */
  const SpeedBound: real := MaxBallSpeed + BallSpeedIncrease

  function Abs(r: real): real
  {
    if r < 0.0 then -r else r
  }

  function Min(a: int, b: int): int
  {
    if a < b then a else b
  }

  function Max(a: int, b: int): int
  {
    if a < b then b else a
  }
}
