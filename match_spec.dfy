// The whole match as a value: the two paddles, the ball, the flags, the
// scores and the opponent's counter, and what each entry point of the
// script does to them. The Game class in module Pong is proved against
// these functions.
module MatchSpec {
  import opened Field
  import Paddles
  import opened Balls
  import opened Opponent

  /** The keys `gameLoop` reads: 'w', 's', 'ArrowUp', 'ArrowDown'. */
  datatype Keys = Keys(w: bool, s: bool, arrowUp: bool, arrowDown: bool)

  datatype GameState = GameState(
    paddle1: int,       // top edge of the left paddle
    paddle2: int,       // top edge of the right paddle
    ball: BallState,
    mode: int,          // 0 menu, 1 single player, 2 two players
    running: bool,
    paused: bool,
    aiCounter: nat,
    score1: nat,
    score2: nat)

  /** The state the script builds when it loads. */
  function Initial(coins: Coins): (g: GameState)
    ensures !g.running && !g.paused && g.mode == 0
    ensures g.score1 == 0 && g.score2 == 0 && g.aiCounter == 0
    ensures g.ball == Serve(coins) && g.paddle1 == PaddleStartY && g.paddle2 == PaddleStartY
  {
    GameState(PaddleStartY, PaddleStartY, Serve(coins), 0, false, false, 0, 0, 0)
  }

  /** What every reachable state satisfies: paddles inside the field, both
    * speed components below SpeedBound, the ball strictly between the two
    * scoring lines, the counter below the delay, and no pause without a match. */
  ghost predicate Valid(g: GameState)
  {
    0 <= g.paddle1 <= MaxPaddleY && 0 <= g.paddle2 <= MaxPaddleY &&
    Abs(g.ball.speedX) < SpeedBound && Abs(g.ball.speedY) < SpeedBound &&
    0.0 < g.ball.x && g.ball.x + BallSize as real < Width as real &&
    g.aiCounter < AiReactionDelay &&
    (g.paused ==> g.running)
  }

  /** Whether the paddles and the ball may move: the guard of `move`,
    * `checkCollision` and `aiMove`. */
  predicate Active(g: GameState)
  {
    g.running && !g.paused
  }

  /** `resetGame`: ball served from the centre, both paddles centred. */
  function Reset(g: GameState, coins: Coins): (r: GameState)
    ensures r.ball == Serve(coins) && r.paddle1 == PaddleStartY && r.paddle2 == PaddleStartY
    ensures r.mode == g.mode && r.running == g.running && r.paused == g.paused
    ensures r.aiCounter == g.aiCounter && r.score1 == g.score1 && r.score2 == g.score2
  {
    g.(ball := Serve(coins), paddle1 := PaddleStartY, paddle2 := PaddleStartY)
  }

  /** The input part of `gameLoop`: keys 'w'/'s' drive the left paddle in
    * both modes, the arrow keys drive the right one in two-player mode. */
  function InputStep(g: GameState, keys: Keys): (r: GameState)
    ensures r == g.(paddle1 := r.paddle1, paddle2 := r.paddle2)
    ensures !Active(g) ==> r == g
    // the left paddle follows 'w'/'s' in either playing mode, and only then
    ensures r.paddle1 == if (g.mode == 1 || g.mode == 2) && Active(g)
                         then Paddles.Moved(g.paddle1, keys.w, keys.s) else g.paddle1
    // the right paddle follows the arrows in two-player mode only
    ensures r.paddle2 == if g.mode == 2 && Active(g)
                         then Paddles.Moved(g.paddle2, keys.arrowUp, keys.arrowDown) else g.paddle2
    ensures 0 <= g.paddle1 <= MaxPaddleY && 0 <= g.paddle2 <= MaxPaddleY ==>
      0 <= r.paddle1 <= MaxPaddleY && 0 <= r.paddle2 <= MaxPaddleY
  {
    var p1 := if (g.mode == 2 || g.mode == 1) && Active(g) then Paddles.Moved(g.paddle1, keys.w, keys.s) else g.paddle1;
    var p2 := if g.mode == 2 && Active(g) then Paddles.Moved(g.paddle2, keys.arrowUp, keys.arrowDown) else g.paddle2;
    g.(paddle1 := p1, paddle2 := p2)
  }

  /** `ball.move()`, then `checkCollision` with the left paddle, then with the right one. */
  function PhysicsStep(g: GameState): (r: GameState)
    ensures r == g.(ball := r.ball)
    ensures !Active(g) ==> r == g
    ensures Active(g) ==>
      r.ball == Collided(Collided(Balls.Moved(g.ball), Player1X, g.paddle1), Player2X, g.paddle2)
    // moving and colliding keep both speed components below SpeedBound
    ensures Abs(g.ball.speedX) < SpeedBound && Abs(g.ball.speedY) < SpeedBound ==>
      Abs(r.ball.speedX) < SpeedBound && Abs(r.ball.speedY) < SpeedBound
  {
    if Active(g) then
      g.(ball := Collided(Collided(Balls.Moved(g.ball), Player1X, g.paddle1), Player2X, g.paddle2))
    else
      g
  }

  /** The scoring check of `gameLoop`, which is not guarded by the running flag. */
  function ScoreStep(g: GameState, coins: Coins): (r: GameState)
    // on or past the left line: the right player scores and the field is reset
    ensures g.ball.x <= 0.0 ==>
      r == Reset(g, coins).(score2 := g.score2 + 1) && r.score1 == g.score1
    // otherwise, on or past the right line: the left player scores and the field is reset
    ensures 0.0 < g.ball.x && g.ball.x + BallSize as real >= Width as real ==>
      r == Reset(g, coins).(score1 := g.score1 + 1) && r.score2 == g.score2
    // strictly between the lines: nothing changes
    ensures 0.0 < g.ball.x && g.ball.x + BallSize as real < Width as real ==> r == g
    ensures r.mode == g.mode && r.running == g.running && r.paused == g.paused && r.aiCounter == g.aiCounter
    ensures 0.0 < r.ball.x && r.ball.x + BallSize as real < Width as real
  {
    if g.ball.x <= 0.0 then
      Reset(g.(score2 := g.score2 + 1), coins)
    else if g.ball.x + BallSize as real >= Width as real then
      Reset(g.(score1 := g.score1 + 1), coins)
    else
      g
  }

  /** `aiMove`; `gameLoop` calls it in single-player mode only. */
  function AiStep(g: GameState): (r: GameState)
    ensures !Active(g) ==> r == g
    ensures r == g.(aiCounter := r.aiCounter, paddle2 := r.paddle2)
    ensures Active(g) ==> r.aiCounter == NextCounter(g.aiCounter)
    ensures Active(g) ==> r.aiCounter < AiReactionDelay && (r.aiCounter == 0 <==> Acts(g.aiCounter))
    // the paddle moves only on a call that gets past the delay, and then only
    // when the ball is outside the deadband around the paddle's centre
    ensures r.paddle2 != g.paddle2 ==> Acts(g.aiCounter) && Decide(g.paddle2, g.ball.y) != Stay
    ensures 0 <= g.paddle2 <= MaxPaddleY && Active(g) && Acts(g.aiCounter) ==>
      match Decide(g.paddle2, g.ball.y)
      case Down => r.paddle2 == Min(MaxPaddleY, g.paddle2 + PaddleSpeed)
      case Up => r.paddle2 == Max(0, g.paddle2 - PaddleSpeed)
      case Stay => r.paddle2 == g.paddle2
  {
    if Active(g) then
      var p2 := if !Acts(g.aiCounter) then g.paddle2
                else match Decide(g.paddle2, g.ball.y)
                  case Down => Paddles.Moved(g.paddle2, false, true)
                  case Up => Paddles.Moved(g.paddle2, true, false)
                  case Stay => g.paddle2;
      g.(aiCounter := NextCounter(g.aiCounter), paddle2 := p2)
    else
      g
  }

  /** The state-changing part of one `gameLoop` call; drawing is left out.
    * `coins` are the directions a scoring reset would draw. */
  function Ticked(g: GameState, keys: Keys, coins: Coins): (r: GameState)
    ensures g.paused ==> r == g
    ensures r.mode == g.mode && r.running == g.running && r.paused == g.paused
  {
    if g.paused then g
    else
      var scored := ScoreStep(PhysicsStep(InputStep(g, keys)), coins);
      if g.mode == 1 then AiStep(scored) else scored
  }

  /** Whether a `gameLoop` call on `g` ends by requesting another frame. */
  predicate FrameRequested(g: GameState): (requested: bool)
    // exactly when the tick's own guards let the paddles, the ball and the opponent move
    ensures requested <==> Active(g)
  {
    !g.paused && g.running
  }

  /** The ball as the scoring check of a tick sees it. */
  function BallBeforeScoring(g: GameState, keys: Keys): BallState
  {
    PhysicsStep(InputStep(g, keys)).ball
  }

  /** `startGame(mode)` up to its call of `gameLoop`: the mode is set, the
    * field reset and the match marked running. The pause flag is left as it was. */
  function Started(g: GameState, mode: int, coins: Coins): (r: GameState)
    ensures r.mode == mode && r.running && r.paused == g.paused
    ensures r.ball == Serve(coins) && r.paddle1 == PaddleStartY && r.paddle2 == PaddleStartY
    ensures r.score1 == g.score1 && r.score2 == g.score2 && r.aiCounter == g.aiCounter
    ensures Valid(g) ==> Valid(r)
  {
    Reset(g.(mode := mode), coins).(running := true)
  }

  /** `backToMenu`: the match stops, the field is reset, both scores go back
    * to zero and the pause is cleared. The mode and the counter are kept. */
  function AtMenu(g: GameState, coins: Coins): (r: GameState)
    ensures !r.running && !r.paused && r.score1 == 0 && r.score2 == 0
    ensures r.ball == Serve(coins) && r.paddle1 == PaddleStartY && r.paddle2 == PaddleStartY
    ensures r.mode == g.mode && r.aiCounter == g.aiCounter
    ensures Valid(g) ==> Valid(r)
  {
    Reset(g.(running := false), coins).(score1 := 0, score2 := 0, paused := false)
  }

  /** `togglePause` on the flags: nothing without a running match. */
  function PauseToggled(g: GameState): (r: GameState)
    ensures !g.running ==> r == g
    ensures g.running ==> r == g.(paused := !g.paused)
    ensures Valid(g) ==> Valid(r)
  {
    if !g.running then g else g.(paused := !g.paused)
  }

  /** Whether `togglePause` ends with a frame requested, as written: it
    * calls `gameLoop` only in the branch where the flag has just become
    * true, and there that call returns at once. */
  function ToggleRequestsFrame(g: GameState): (requested: bool)
    ensures !requested
  {
    var r := PauseToggled(g);
    g.running && r.paused && FrameRequested(r)
  }

  /** The evidently intended `togglePause`: the loop is restarted when the
    * flag has just become false, so un-pausing a running match asks for
    * the next frame and nothing else does. */
  function ToggleRequestsFrameIntended(g: GameState): (requested: bool)
    ensures requested <==> g.running && g.paused
    ensures requested ==> Active(PauseToggled(g))
  {
    var r := PauseToggled(g);
    g.running && !r.paused && FrameRequested(r)
  }

  /** `resumeGame` up to its call of `gameLoop`: the pause is cleared,
    * whether or not a match is running. */
  function Resumed(g: GameState): (r: GameState)
    ensures !r.paused && r == g.(paused := false)
    ensures Valid(g) ==> Valid(r)
  {
    g.(paused := false)
  }
}
