// The ball: a square with a position and a signed velocity per axis.
module Balls {
  import opened Field
  import Paddles

  datatype BallState = BallState(x: real, y: real, speedX: real, speedY: real)

  /** The two outcomes of `Math.random() < 0.5` drawn by a reset: true
    * gives the positive direction on that axis. */
  datatype Coins = Coins(positiveX: bool, positiveY: bool)

  /** Where `Ball.reset` (and the constructor) puts the ball. */
  function Serve(coins: Coins): (b: BallState)
    ensures b.x == BallStartX && b.y == BallStartY
    ensures Abs(b.speedX) == InitialBallSpeedX && Abs(b.speedY) == InitialBallSpeedY
    ensures b.speedX > 0.0 <==> coins.positiveX
    ensures b.speedY > 0.0 <==> coins.positiveY
  {
    BallState(BallStartX, BallStartY,
              InitialBallSpeedX * (if coins.positiveX then 1.0 else -1.0),
              InitialBallSpeedY * (if coins.positiveY then 1.0 else -1.0))
  }

  /** One axis of `increaseSpeed`. The direction test is `s > 0`, so a zero
    * component counts as moving in the negative direction. */
  function Bumped(s: real): (r: real)
    ensures Abs(s) < MaxBallSpeed ==> Abs(r) == Abs(s) + BallSpeedIncrease
    ensures Abs(s) < MaxBallSpeed ==> (r > 0.0 <==> s > 0.0) && (r < 0.0 <==> s <= 0.0)
    ensures s == 0.0 ==> r == -BallSpeedIncrease
    ensures Abs(s) >= MaxBallSpeed ==> r == s
    ensures Abs(r) >= Abs(s)
    ensures Abs(s) < SpeedBound ==> Abs(r) < SpeedBound
  {
    if Abs(s) < MaxBallSpeed then
      s + (if s > 0.0 then BallSpeedIncrease else -BallSpeedIncrease)
    else
      s
  }

  /** `Ball.move` on a running, unpaused match. */
  function Moved(b: BallState): (r: BallState)
    ensures r.x == b.x + b.speedX && r.y == b.y + b.speedY && r.speedX == b.speedX
    // the vertical speed is negated exactly when the new position touches the top or the bottom
    ensures r.y <= 0.0 || r.y + BallSize as real >= Height as real ==> r.speedY == -b.speedY
    ensures 0.0 < r.y && r.y + BallSize as real < Height as real ==> r.speedY == b.speedY
    ensures Abs(r.speedY) == Abs(b.speedY)
    // a ball that reaches the top while rising, or the bottom while falling, heads back in
    ensures r.y <= 0.0 && b.speedY < 0.0 ==> r.speedY > 0.0
    ensures r.y + BallSize as real >= Height as real && b.speedY > 0.0 ==> r.speedY < 0.0
  {
    var x := b.x + b.speedX;
    var y := b.y + b.speedY;
    var speedY := if y <= 0.0 || y + BallSize as real >= Height as real then -b.speedY else b.speedY;
    BallState(x, y, b.speedX, speedY)
  }

  /** The strict axis-aligned overlap test of `checkCollision` between the
    * ball and a paddle whose top-left corner is (px, py). */
  predicate Overlaps(b: BallState, px: int, py: int)
  {
    b.x < (px + PaddleWidth) as real &&
    b.x + BallSize as real > px as real &&
    b.y < (py + PaddleHeight) as real &&
    b.y + BallSize as real > py as real
  }

  /** The vertical speed given to the ball by a hit: proportional to how far
    * the ball's top edge lies from the paddle's centre. */
  function Spin(ballY: real, py: int): real
  {
    SpinFactor * (ballY - (py + PaddleHeight / 2) as real)
  }

  /** `checkCollision(paddle)` on a running, unpaused match. */
  function Collided(b: BallState, px: int, py: int): (r: BallState)
    ensures !Overlaps(b, px, py) ==> r == b
    ensures Overlaps(b, px, py) ==> r.x == b.x && r.y == b.y
    ensures Overlaps(b, px, py) ==> r.speedY == Bumped(Spin(b.y, py))
    ensures Overlaps(b, px, py) ==> r.speedX == Bumped(-b.speedX)
    // a moving ball is sent back the other way
    ensures Overlaps(b, px, py) && b.speedX != 0.0 ==> (r.speedX > 0.0 <==> b.speedX < 0.0)
    // deltaY = 0 (the ball's top edge level with the paddle's centre) leaves
    // only the speed increase, which goes negative
    ensures Overlaps(b, px, py) && b.y == (py + PaddleHeight / 2) as real ==> r.speedY == -BallSpeedIncrease
    // the spin of an overlapping ball is below the maximum, so the bounds hold
    ensures Overlaps(b, px, py) ==> Abs(r.speedY) < MaxBallSpeed
    ensures Abs(b.speedX) < SpeedBound ==> Abs(r.speedX) < SpeedBound
  {
    if Overlaps(b, px, py) then
      var hit := b.(speedY := Spin(b.y, py), speedX := -b.speedX);
      hit.(speedX := Bumped(hit.speedX), speedY := Bumped(hit.speedY))
    else
      b
  }

  /** The horizontal speed after `n` consecutive paddle hits: each hit
    * reverses it and then increases it. Between hits `move` leaves it alone. */
  function Rebounds(s: real, n: nat): real
  {
    if n == 0 then s else Bumped(-Rebounds(s, n - 1))
  }

  /** While the maximum is not reached, every hit adds exactly one increment
    * to the magnitude, whatever the starting sign. */
  lemma {:induction false} ReboundsGrow(s: real, n: nat)
    requires Abs(s) + BallSpeedIncrease * n as real <= MaxBallSpeed
    ensures Abs(Rebounds(s, n)) == Abs(s) + BallSpeedIncrease * n as real
  {
    if n > 0 {
      ReboundsGrow(s, n - 1);
    }
  }

  /** Hits never slow the ball down horizontally and never take it past SpeedBound. */
  lemma {:induction false} ReboundsBounded(s: real, n: nat)
    ensures Abs(s) <= Abs(Rebounds(s, n))
    ensures Abs(s) < SpeedBound ==> Abs(Rebounds(s, n)) < SpeedBound
  {
    if n > 0 {
      ReboundsBounded(s, n - 1);
    }
  }

  class Ball {
    var x: real
    var y: real
    var speedX: real
    var speedY: real

    function State(): BallState
      reads this
    {
      BallState(x, y, speedX, speedY)
    }

    constructor (x0: real, y0: real, coins: Coins)
      ensures x == x0 && y == y0
      ensures speedX == Serve(coins).speedX && speedY == Serve(coins).speedY
    {
      x := x0;
      y := y0;
      speedX := InitialBallSpeedX * (if coins.positiveX then 1.0 else -1.0);
      speedY := InitialBallSpeedY * (if coins.positiveY then 1.0 else -1.0);
    }

    /** `Ball.move`: does nothing unless the match is running and unpaused. */
    method Move(running: bool, paused: bool)
      modifies this
      ensures State() == if running && !paused then Moved(old(State())) else old(State())
    {
      if !running || paused {
        return;
      }
      x := x + speedX;
      y := y + speedY;
      if y <= 0.0 || y + BallSize as real >= Height as real {
        speedY := -speedY;
      }
    }

    /** `Ball.reset`: back to the centre with a fresh pair of directions. */
    method Reset(coins: Coins)
      modifies this
      ensures State() == Serve(coins)
    {
      x := BallStartX;
      y := BallStartY;
      speedX := InitialBallSpeedX * (if coins.positiveX then 1.0 else -1.0);
      speedY := InitialBallSpeedY * (if coins.positiveY then 1.0 else -1.0);
    }

    /** `Ball.increaseSpeed`: each axis on its own. */
    method IncreaseSpeed()
      modifies this
      ensures x == old(x) && y == old(y)
      ensures speedX == Bumped(old(speedX)) && speedY == Bumped(old(speedY))
    {
      if Abs(speedX) < MaxBallSpeed {
        speedX := speedX + if speedX > 0.0 then BallSpeedIncrease else -BallSpeedIncrease;
      }
      if Abs(speedY) < MaxBallSpeed {
        speedY := speedY + if speedY > 0.0 then BallSpeedIncrease else -BallSpeedIncrease;
      }
    }

    /** `Ball.checkCollision(paddle)`: does nothing unless the match is running and unpaused. */
    method CheckCollision(paddle: Paddles.Paddle, running: bool, paused: bool)
      modifies this
      ensures State() == if running && !paused then Collided(old(State()), paddle.x, paddle.y) else old(State())
    {
      if !running || paused {
        return;
      }
      if x < (paddle.x + PaddleWidth) as real && x + BallSize as real > paddle.x as real &&
         y < (paddle.y + PaddleHeight) as real && y + BallSize as real > paddle.y as real
      {
        var deltaY := y - (paddle.y + PaddleHeight / 2) as real;
        speedY := deltaY * SpinFactor;
        speedX := -speedX;
        IncreaseSpeed();
      }
    }
  }
}
