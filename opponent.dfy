// The single-player opponent: a paddle that follows the ball, but only
// reconsiders on one call in every AiReactionDelay.
module Opponent {
  import opened Field

  datatype Direction = Up | Down | Stay

  /** The choice `aiMove` makes once its delay has run out, for a paddle
    * whose top edge is at `paddleY` and a ball whose top edge is at `ballY`. */
  function Decide(paddleY: int, ballY: real): (d: Direction)
    ensures d == Down <==> (paddleY + PaddleHeight / 2) as real < ballY - AiDeadband
    ensures d == Up <==> (paddleY + PaddleHeight / 2) as real > ballY + AiDeadband
    ensures d == Stay <==> Abs((paddleY + PaddleHeight / 2) as real - ballY) <= AiDeadband
  {
    var centre := (paddleY + PaddleHeight / 2) as real;
    if centre < ballY - AiDeadband then Down
    else if centre > ballY + AiDeadband then Up
    else Stay
  }

  /** Whether a running call of `aiMove` that finds the counter at `counter`
    * gets past the delay and decides. */
  predicate Acts(counter: nat)
  {
    counter + 1 >= AiReactionDelay
  }

  /** The counter after a running call of `aiMove`. */
  function NextCounter(counter: nat): (r: nat)
    ensures r < AiReactionDelay
    ensures r == 0 <==> Acts(counter)
    ensures !Acts(counter) ==> r == counter + 1
  {
    var c := counter + 1;
    if c < AiReactionDelay then c else 0
  }

  /** How many of the next `n` running calls of `aiMove` decide, starting from `counter`. */
  function Decisions(counter: nat, n: nat): nat
    decreases n
  {
    if n == 0 then 0
    else (if Acts(counter) then 1 else 0) + Decisions(NextCounter(counter), n - 1)
  }

  /** Counting from a reachable counter, the decisions among `n` calls are
    * exactly the multiples of AiReactionDelay passed by `counter + n`. */
  lemma {:induction false} DecisionsCount(counter: nat, n: nat)
    requires counter < AiReactionDelay
    ensures Decisions(counter, n) == (counter + n) / AiReactionDelay
    decreases n
  {
    if n > 0 {
      DecisionsCount(NextCounter(counter), n - 1);
    }
  }

  /** In any window of `n` consecutive running calls the opponent decides at
    * most once per AiReactionDelay calls (rounded up), and at least once per
    * full AiReactionDelay calls. */
  lemma DecisionsPerWindow(counter: nat, n: nat)
    requires counter < AiReactionDelay
    ensures n / AiReactionDelay <= Decisions(counter, n) <= (n + AiReactionDelay - 1) / AiReactionDelay
    ensures Decisions(counter, AiReactionDelay) == 1
  {
    DecisionsCount(counter, n);
    DecisionsCount(counter, AiReactionDelay);
  }
}
