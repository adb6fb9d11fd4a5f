// The script's module-level state and entry points, gathered into the one
// object that owns the two paddles, the ball, the flags, the scores and the
// opponent's counter. Each method is proved against its function in MatchSpec.
module Pong {
  import opened Field
  import opened Paddles
  import opened Balls
  import opened Opponent
  import opened MatchSpec
  import MatchProperties

  /** No key held: what `togglePause`'s own call of `gameLoop` is given. It
    * returns before reading the keys or drawing a reset. */
  const NoKeys: Keys := Keys(false, false, false, false)
  const AnyCoins: Coins := Coins(true, true)

  class Game {
    const player1: Paddle
    const player2: Paddle
    const ball: Ball
    var gameMode: int
    var gameRunning: bool
    var paused: bool
    var aiFrameCounter: nat
    var score1: nat
    var score2: nat

    /** The match as a value. */
    function State(): GameState
      reads this, player1, player2, ball
    {
      GameState(player1.y, player2.y, ball.State(), gameMode, gameRunning, paused,
                aiFrameCounter, score1, score2)
    }

    /** Two distinct paddles in their fixed columns, and a Valid state. */
    ghost predicate Valid()
      reads this, player1, player2, ball
    {
      player1 != player2 && player1.x == Player1X && player2.x == Player2X &&
      MatchSpec.Valid(State())
    }

    /** The objects the script creates when it loads; `coins` are the
      * directions the ball's constructor draws. */
    constructor (coins: Coins)
      ensures Valid() && State() == Initial(coins)
      ensures fresh(player1) && fresh(player2) && fresh(ball)
    {
      player1 := new Paddle(Player1X, PaddleStartY);
      player2 := new Paddle(Player2X, PaddleStartY);
      ball := new Ball(BallStartX, BallStartY, coins);
      gameMode := 0;
      gameRunning := false;
      paused := false;
      aiFrameCounter := 0;
      score1 := 0;
      score2 := 0;
      new;
      MatchProperties.InitialValid(coins);
    }

    /** `resetGame`. */
    method ResetGame(coins: Coins)
      requires player1 != player2
      modifies player1, player2, ball
      ensures State() == Reset(old(State()), coins)
    {
      ball.Reset(coins);
      player1.Reset();
      player2.Reset();
    }

    /** `aiMove`. */
    method AiMove()
      requires player1 != player2
      modifies this, player2
      ensures State() == AiStep(old(State()))
    {
      if !gameRunning || paused {
        return;
      }
      aiFrameCounter := aiFrameCounter + 1;
      if aiFrameCounter < AiReactionDelay {
        return;
      }
      aiFrameCounter := 0;
      var paddle2Center := (player2.y + PaddleHeight / 2) as real;
      if paddle2Center < ball.y - AiDeadband {
        player2.Move(false, true, gameRunning, paused);
      } else if paddle2Center > ball.y + AiDeadband {
        player2.Move(true, false, gameRunning, paused);
      }
    }

    /** The input part of `gameLoop`. */
    method ApplyInput(keys: Keys)
      requires player1 != player2
      modifies player1, player2
      ensures State() == InputStep(old(State()), keys)
    {
      if gameMode == 2 || gameMode == 1 {
        player1.Move(keys.w, keys.s, gameRunning, paused);
      }
      if gameMode == 2 {
        player2.Move(keys.arrowUp, keys.arrowDown, gameRunning, paused);
      }
    }

    /** The ball's part of `gameLoop`: move, then the two collision checks. */
    method MoveBall()
      requires player1.x == Player1X && player2.x == Player2X
      modifies ball
      ensures State() == PhysicsStep(old(State()))
    {
      ball.Move(gameRunning, paused);
      ball.CheckCollision(player1, gameRunning, paused);
      ball.CheckCollision(player2, gameRunning, paused);
    }

    /** One call of `gameLoop` without its drawing. `again` tells whether it
      * requested another frame; `coins` are the directions a scoring reset
      * would draw. */
    method Tick(keys: Keys, coins: Coins) returns (again: bool)
      requires Valid()
      modifies this, player1, player2, ball
      ensures Valid()
      ensures State() == Ticked(old(State()), keys, coins)
      ensures again == FrameRequested(old(State()))
    {
      ghost var g := State();
      if paused {
        return false;
      }
      ApplyInput(keys);
      MoveBall();
      if ball.x <= 0.0 {
        score2 := score2 + 1;
        ResetGame(coins);
      } else if ball.x + BallSize as real >= Width as real {
        score1 := score1 + 1;
        ResetGame(coins);
      }
      assert State() == ScoreStep(PhysicsStep(InputStep(g, keys)), coins);
      if gameMode == 1 {
        AiMove();
      }
      again := gameRunning;
      MatchProperties.TickPreservesValid(g, keys, coins);
    }

    /** `startGame(mode)`: set the mode, reset the field, mark the match
      * running and run the first tick. A pause left over is kept, and then
      * that tick does nothing. */
    method StartGame(mode: int, serve: Coins, keys: Keys, coins: Coins) returns (again: bool)
      requires Valid()
      modifies this, player1, player2, ball
      ensures Valid()
      ensures State() == Ticked(Started(old(State()), mode, serve), keys, coins)
      ensures again == !old(paused)
    {
      gameMode := mode;
      ResetGame(serve);
      gameRunning := true;
      again := Tick(keys, coins);
    }

    /** `backToMenu`: stop, reset the field, zero the scores, clear the pause. */
    method BackToMenu(coins: Coins)
      requires Valid()
      modifies this, player1, player2, ball
      ensures Valid()
      ensures State() == AtMenu(old(State()), coins)
    {
      gameRunning := false;
      ResetGame(coins);
      score1 := 0;
      score2 := 0;
      paused := false;
    }

    /** `togglePause`. Its call of `gameLoop` happens only when the flag
      * has just become true, so that call returns at once: no frame is
      * requested, whichever way the flag went. */
    method TogglePause() returns (requested: bool)
      requires Valid()
      modifies this, player1, player2, ball
      ensures Valid()
      ensures State() == PauseToggled(old(State()))
      ensures requested == ToggleRequestsFrame(old(State()))
    {
      if !gameRunning {
        return false;
      }
      paused := !paused;
      requested := false;
      if paused {
        requested := Tick(NoKeys, AnyCoins);
      }
    }

    /** `togglePause` with its call of `gameLoop` moved to the branch where
      * the flag has just become false: un-pausing runs a tick and, the match
      * running, requests the next frame. */
    method TogglePauseResuming(keys: Keys, coins: Coins) returns (requested: bool)
      requires Valid()
      modifies this, player1, player2, ball
      ensures Valid()
      ensures State() == if ToggleRequestsFrameIntended(old(State()))
                         then Ticked(PauseToggled(old(State())), keys, coins)
                         else PauseToggled(old(State()))
      ensures requested == ToggleRequestsFrameIntended(old(State()))
    {
      if !gameRunning {
        return false;
      }
      paused := !paused;
      requested := false;
      if !paused {
        requested := Tick(keys, coins);
      }
    }

    /** `resumeGame`: clear the pause, whether or not a match runs, and run a tick. */
    method ResumeGame(keys: Keys, coins: Coins) returns (again: bool)
      requires Valid()
      modifies this, player1, player2, ball
      ensures Valid()
      ensures State() == Ticked(Resumed(old(State())), keys, coins)
      ensures again == old(gameRunning)
    {
      paused := false;
      again := Tick(keys, coins);
    }
  }
}
