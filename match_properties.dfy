// What one tick, a run of ticks and the flag transitions guarantee.
module MatchProperties {
  import opened Field
  import Paddles
  import opened Balls
  import opened Opponent
  import opened MatchSpec

  /** Every reachable state is Valid: the script's initial state is. */
  lemma InitialValid(coins: Coins)
    ensures Valid(Initial(coins))
  {
  }

  /** A collision check keeps both speed components below SpeedBound. */
  lemma CollidedBounded(b: BallState, px: int, py: int)
    requires Abs(b.speedX) < SpeedBound && Abs(b.speedY) < SpeedBound
    ensures Abs(Collided(b, px, py).speedX) < SpeedBound
    ensures Abs(Collided(b, px, py).speedY) < SpeedBound
  {
  }

  /** One tick keeps every part of Valid: the paddles are clamped, the
    * speeds stay below SpeedBound, a ball that reaches a scoring line is
    * served again from the centre, and the counter wraps at the delay. */
  lemma TickPreservesValid(g: GameState, keys: Keys, coins: Coins)
    requires Valid(g)
    ensures Valid(Ticked(g, keys, coins))
  {
    if !g.paused {
      var g1 := InputStep(g, keys);
      assert 0 <= g1.paddle1 <= MaxPaddleY && 0 <= g1.paddle2 <= MaxPaddleY;
      var g2 := PhysicsStep(g1);
      if Active(g1) {
        var moved := Balls.Moved(g1.ball);
        CollidedBounded(moved, Player1X, g1.paddle1);
        CollidedBounded(Collided(moved, Player1X, g1.paddle1), Player2X, g1.paddle2);
      }
      assert Abs(g2.ball.speedX) < SpeedBound && Abs(g2.ball.speedY) < SpeedBound;
      var g3 := ScoreStep(g2, coins);
      assert Valid(g3);
    }
  }

  /** With no match running (and no pause, which Valid then rules out), a
    * tick changes nothing: the only unguarded step, scoring, cannot fire on
    * a ball strictly between the scoring lines. No frame is requested. */
  lemma IdleTickChangesNothing(g: GameState, keys: Keys, coins: Coins)
    requires Valid(g) && !g.running
    ensures Ticked(g, keys, coins) == g
    ensures !FrameRequested(g)
  {
  }

  /** While paused or stopped, input, ball movement, both collision checks
    * and the opponent leave every paddle and ball field and the counter alone. */
  lemma InactiveStepsChangeNothing(g: GameState, keys: Keys)
    requires !g.running || g.paused
    ensures InputStep(g, keys) == g && PhysicsStep(g) == g && AiStep(g) == g
  {
  }

  /** The scoring rule of one unpaused tick. The ball seen by the check is
    * the one after movement and both collisions. A ball on or past the left
    * line gives the right player a point, otherwise one on or past the right
    * line gives the left player a point; a point serves the ball from the
    * centre and centres both paddles (the opponent, if it decides on that
    * tick, finds the ball inside its deadband and keeps still). */
  lemma TickScoring(g: GameState, keys: Keys, coins: Coins)
    requires !g.paused
    ensures var b, r := BallBeforeScoring(g, keys), Ticked(g, keys, coins);
      (b.x <= 0.0 ==>
         r.score2 == g.score2 + 1 && r.score1 == g.score1 &&
         r.ball == Serve(coins) && r.paddle1 == PaddleStartY && r.paddle2 == PaddleStartY) &&
      (0.0 < b.x && b.x + BallSize as real >= Width as real ==>
         r.score1 == g.score1 + 1 && r.score2 == g.score2 &&
         r.ball == Serve(coins) && r.paddle1 == PaddleStartY && r.paddle2 == PaddleStartY) &&
      (0.0 < b.x && b.x + BallSize as real < Width as real ==>
         r.score1 == g.score1 && r.score2 == g.score2 && r.ball == b)
  {
    var b := BallBeforeScoring(g, keys);
    var g3 := ScoreStep(PhysicsStep(InputStep(g, keys)), coins);
    if b.x <= 0.0 || b.x + BallSize as real >= Width as real {
      assert g3.ball == Serve(coins) && g3.paddle2 == PaddleStartY;
      assert Decide(g3.paddle2, g3.ball.y) == Stay;
    }
  }

  /** A tick never takes a point away and awards at most one. */
  lemma TickScoresAtMostOne(g: GameState, keys: Keys, coins: Coins)
    ensures var r := Ticked(g, keys, coins);
      g.score1 <= r.score1 && g.score2 <= r.score2 &&
      r.score1 + r.score2 <= g.score1 + g.score2 + 1
  {
    if !g.paused {
      TickScoring(g, keys, coins);
    }
  }

  /** The first tick of `startGame` on an unpaused match cannot score: the
    * served ball moves one step from the centre and touches no paddle. It
    * asks for the next frame. */
  lemma StartTickDoesNotScore(g: GameState, mode: int, serve: Coins, keys: Keys, coins: Coins)
    requires !g.paused
    ensures var s := Started(g, mode, serve); var r := Ticked(s, keys, coins);
      FrameRequested(s) && r.score1 == g.score1 && r.score2 == g.score2 &&
      r.ball == Balls.Moved(Serve(serve))
  {
    var s := Started(g, mode, serve);
    var g1 := InputStep(s, keys);
    var moved := Balls.Moved(Serve(serve));
    assert !Overlaps(moved, Player1X, g1.paddle1);
    assert !Overlaps(moved, Player2X, g1.paddle2);
    assert BallBeforeScoring(s, keys) == moved;
    TickScoring(s, keys, coins);
  }

  /** Pausing and then unpausing a running match, with no tick between,
    * gives back the state it started from. */
  lemma PauseTwiceRestores(g: GameState)
    ensures PauseToggled(PauseToggled(g)) == g
  {
  }

  /** As written, un-pausing with Escape leaves a running, unpaused match
    * that no frame will tick again: the tick that found the pause did not
    * request a frame, and the toggle does not either. */
  lemma EscapeUnpauseStaysFrozen(g: GameState)
    requires g.running && g.paused
    ensures !FrameRequested(g) && !ToggleRequestsFrame(g)
    ensures Active(PauseToggled(g)) && FrameRequested(PauseToggled(g))
  {
  }

  /** Whether the opponent moved the right paddle during the tick on `g`:
    * its own step, after scoring, changed the paddle. */
  predicate OpponentMovedIn(g: GameState, keys: Keys, coins: Coins)
  {
    var scored := ScoreStep(PhysicsStep(InputStep(g, keys)), coins);
    !g.paused && g.mode == 1 && AiStep(scored).paddle2 != scored.paddle2
  }

  /** In a single-player tick on an active match the opponent's counter
    * advances as `NextCounter` says, and the opponent moves the right paddle
    * only when that call gets past the delay. */
  lemma TickAdvancesCounter(g: GameState, keys: Keys, coins: Coins)
    requires g.mode == 1 && Active(g)
    ensures Ticked(g, keys, coins).aiCounter == NextCounter(g.aiCounter)
    ensures OpponentMovedIn(g, keys, coins) ==> Acts(g.aiCounter)
  {
    var scored := ScoreStep(PhysicsStep(InputStep(g, keys)), coins);
    assert scored.aiCounter == g.aiCounter && Active(scored);
  }

  /** One frame as the host delivers it: the keys held, and the directions
    * a scoring reset would draw. */
  datatype Frame = Frame(keys: Keys, coins: Coins)

  /** The state after the host has run one tick per frame. */
  function Run(g: GameState, frames: seq<Frame>): GameState
    decreases |frames|
  {
    if frames == [] then g
    else Run(Ticked(g, frames[0].keys, frames[0].coins), frames[1..])
  }

  /** However many ticks run, the state stays Valid: paddles inside the
    * field, speeds below SpeedBound, the counter below the delay. */
  lemma {:induction false} RunPreservesValid(g: GameState, frames: seq<Frame>)
    requires Valid(g)
    ensures Valid(Run(g, frames))
    decreases |frames|
  {
    if frames != [] {
      TickPreservesValid(g, frames[0].keys, frames[0].coins);
      RunPreservesValid(Ticked(g, frames[0].keys, frames[0].coins), frames[1..]);
    }
  }

  /** Over any run the scores never go down and rise by at most one point per tick. */
  lemma {:induction false} RunScores(g: GameState, frames: seq<Frame>)
    ensures var r := Run(g, frames);
      g.score1 <= r.score1 && g.score2 <= r.score2 &&
      r.score1 + r.score2 <= g.score1 + g.score2 + |frames|
    decreases |frames|
  {
    if frames != [] {
      TickScoresAtMostOne(g, frames[0].keys, frames[0].coins);
      RunScores(Ticked(g, frames[0].keys, frames[0].coins), frames[1..]);
    }
  }

  /** How many ticks of a run saw the opponent move the right paddle. */
  function OpponentMoves(g: GameState, frames: seq<Frame>): nat
    decreases |frames|
  {
    if frames == [] then 0
    else (if OpponentMovedIn(g, frames[0].keys, frames[0].coins) then 1 else 0) +
         OpponentMoves(Ticked(g, frames[0].keys, frames[0].coins), frames[1..])
  }

  /** In a single-player match that stays active, the opponent moves on no
    * more ticks than the counter lets it decide on. */
  lemma {:induction false} OpponentMovesBounded(g: GameState, frames: seq<Frame>)
    requires g.mode == 1 && Active(g)
    ensures OpponentMoves(g, frames) <= Decisions(g.aiCounter, |frames|)
    decreases |frames|
  {
    if frames != [] {
      var keys, coins := frames[0].keys, frames[0].coins;
      TickAdvancesCounter(g, keys, coins);
      OpponentMovesBounded(Ticked(g, keys, coins), frames[1..]);
    }
  }

  /** The opponent's rate limit over ticks: over n ticks of an active
    * single-player match it moves on at most ceil(n / 3) of them, so at most
    * once in any 3 consecutive ticks. */
  lemma OpponentRateLimited(g: GameState, frames: seq<Frame>)
    requires Valid(g) && g.mode == 1 && Active(g)
    ensures OpponentMoves(g, frames) <= (|frames| + AiReactionDelay - 1) / AiReactionDelay
    ensures |frames| == AiReactionDelay ==> OpponentMoves(g, frames) <= 1
  {
    OpponentMovesBounded(g, frames);
    DecisionsPerWindow(g.aiCounter, |frames|);
  }

  /** A run never changes the mode or the flags: only the entry points do. */
  lemma {:induction false} RunKeepsFlags(g: GameState, frames: seq<Frame>)
    ensures var r := Run(g, frames);
      r.mode == g.mode && r.running == g.running && r.paused == g.paused
    decreases |frames|
  {
    if frames != [] {
      RunKeepsFlags(Ticked(g, frames[0].keys, frames[0].coins), frames[1..]);
    }
  }
}
