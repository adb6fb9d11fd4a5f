// A paddle: a fixed column and a top edge that moves up and down.
module Paddles {
  import opened Field

  /** The top edge after `move(up, down)` on a running, unpaused match:
    * one step up if asked and not at the top, then one step down if asked
    * and not at the bottom, then a clamp into the field. */
  function Moved(y: int, up: bool, down: bool): (r: int)
    // the clamp decides, whatever the paddle's position was before
    ensures 0 <= r <= MaxPaddleY
    // from a position inside the field:
    ensures 0 <= y <= MaxPaddleY && !up && !down ==> r == y
    ensures 0 <= y <= MaxPaddleY && up && !down ==> r == Max(0, y - PaddleSpeed)
    ensures 0 <= y <= MaxPaddleY && !up && down ==> r == Min(MaxPaddleY, y + PaddleSpeed)
    // both keys cancel out, except at the very top, where the up step is
    // skipped and the down step is not
    ensures 0 < y <= MaxPaddleY && up && down ==> r == y
    ensures y == 0 && up && down ==> r == PaddleSpeed
  {
    var afterUp := if up && y > 0 then y - PaddleSpeed else y;
    var afterDown := if down && afterUp + PaddleHeight < Height then afterUp + PaddleSpeed else afterUp;
    Max(0, Min(afterDown, Height - PaddleHeight))
  }

  class Paddle {
    const x: int
    var y: int

    constructor (x0: int, y0: int)
      ensures x == x0 && y == y0
    {
      x := x0;
      y := y0;
    }

    /** `Paddle.move`: does nothing unless the match is running and unpaused. */
    method Move(up: bool, down: bool, running: bool, paused: bool)
      modifies this
      ensures y == if running && !paused then Moved(old(y), up, down) else old(y)
      ensures running && !paused ==> 0 <= y <= MaxPaddleY
    {
      if !running || paused {
        return;
      }
      if up && y > 0 {
        y := y - PaddleSpeed;
      }
      if down && y + PaddleHeight < Height {
        y := y + PaddleSpeed;
      }
      y := Max(0, Min(y, Height - PaddleHeight));
    }

    /** `Paddle.reset`: centre the paddle vertically; the guard flags are not consulted. */
    method Reset()
      modifies this
      ensures y == PaddleStartY && 0 <= y <= MaxPaddleY
    {
      y := PaddleStartY;
    }
  }
}
