# Pong simulation core, modelled in Dafny

A model of the game simulation in the browser Pong script `script.js`. It covers the two paddles, the ball, the single-player opponent, the per-frame `gameLoop` (without drawing) and the entry points that change the match flags: `startGame`, `backToMenu`, `resetGame`, `togglePause` and `resumeGame`.

Layout:

- `field.dfy` (module `Field`): the field size and the tuning constants (script.js:11-24).
- `paddle.dfy` (module `Paddles`): `Paddle` as a class with a mutable `y`. `Moved` is the function its `move` is proved against.
- `ball.dfy` (module `Balls`): `Ball` as a class with mutable position and speed. `Moved`, `Bumped`, `Collided` and `Serve` are the functions its methods are proved against.
- `opponent.dfy` (module `Opponent`): the decision and the reaction counter of `aiMove`, and how often the opponent decides.
- `match_spec.dfy` (module `MatchSpec`): the whole match as a value (`GameState`). One function per step of `gameLoop`, the tick itself (`Ticked`), and the flag transitions.
- `match_properties.dfy` (module `MatchProperties`): lemmas about one tick and about runs of ticks.
- `game.dfy` (module `Pong`): the `Game` class. It owns both paddles, the ball, the flags, the scores and `aiFrameCounter`. Each method is proved to leave `State()` equal to its `MatchSpec` function applied to the old state.
  - The constructor and the entry points `Tick`, `StartGame`, `BackToMenu`, `TogglePause`, `TogglePauseResuming` and `ResumeGame` also establish or keep `Valid()`.
  - The sub-steps `ResetGame`, `AiMove`, `ApplyInput` and `MoveBall` are proved only against their functions. `MoveBall` alone can leave a state that is not valid: a ball at x = 1 with speedX = -5 ends on the scoring line, and only the scoring check that follows restores validity.

Modelling choices:

- Paddle positions are `int`. In the source they only ever take integer values (170, steps of 9, clamped to 0 and 340).
- Ball positions and speeds are `real`. The source only adds, negates and multiplies by 0.3, so exact reals are used.
- Every `Math.random() < 0.5` pair drawn by a ball reset is a `Coins` parameter.
- The keys `w`, `s`, `ArrowUp` and `ArrowDown` are a `Keys` parameter of each tick. Escape is a direct call of `TogglePause`.
- `Tick` returns whether `gameLoop` would call `requestAnimationFrame` again.
- `startGame`, `resumeGame` and `togglePause` each call `gameLoop` directly, so their methods call `Tick`.
- The flags `gameRunning` and `paused` are globals in the source. Paddle and ball methods take them as parameters.

Where the code is surprising, the model follows the code:

- `increaseSpeed` tests `s > 0`, so a zero speed component becomes `-0.25`. It does not stay at zero.
- A hit with deltaY = 0 gives a vertical speed of `-0.25`, not 0. This is the ball's top edge level with the paddle's centre. The speed increase is applied after the spin.
- `startGame` does not clear `paused`. Its first tick then does nothing and requests no frame.
- `resumeGame` does not check `gameRunning`.
- The scoring check in `gameLoop` is not guarded by `gameRunning`. `IdleTickChangesNothing` shows this is harmless in every reachable state: the ball then always lies strictly between the scoring lines.
- `aiMove` runs after the scoring reset of the same tick. After a point, it sees the ball at the paddle's centre and keeps still.
- With both keys held at the very top of the field, a paddle moves down by one step. The up step is skipped at `y == 0`; the down step is not.

## Model

| member | source | states |
|---|---|---|
| Paddles.Moved | script.js:45-56 | After a running move the top edge is in [0, 340], whatever it was before. From inside the field: no key keeps it; up alone gives max(0, y-9); down alone gives min(340, y+9); both keys keep it, except at y = 0 where it ends at 9 |
| Paddles.Paddle.constructor | script.js:37-43 | A paddle is built at the column and top edge it is given |
| Paddles.Paddle.Move | script.js:45-56 | Unless running and unpaused, y is unchanged; otherwise y becomes `Moved(old y, up, down)` and lies in [0, 340] |
| Paddles.Paddle.Reset | script.js:63-65 | The paddle is centred vertically (y = 170) |
| Balls.Serve | script.js:94-99 | A served ball sits at (300, 200) with both speed magnitudes 5; each component is positive exactly when its coin says so |
| Balls.Bumped | script.js:101-108 | One axis of the speed increase. Below 16 in magnitude, the magnitude grows by exactly 0.25 and a nonzero sign is kept; zero becomes -0.25. At 16 or above the component is unchanged. The magnitude never shrinks, and a component below 16.25 stays below it |
| Balls.Moved | script.js:78-87 | The position advances by the velocity and speedX is kept. speedY is negated when the new y <= 0 or y + 10 >= 400, and kept otherwise, so its magnitude is kept. A ball reaching the top while rising, or the bottom while falling, heads back in |
| Balls.Collided | script.js:111-129 | Without strict overlap the ball is untouched. With overlap the position is kept, speedY is the speed increase of 0.3 times the offset from the paddle centre, and speedX is the speed increase of -speedX. A moving ball leaves with the opposite horizontal sign; deltaY = 0 (the ball's top edge level with the paddle's centre) leaves speedY = -0.25; the new vertical speed is below 16 in magnitude |
| Balls.ReboundsGrow | script.js:123-127 | While the maximum is not reached, n consecutive paddle hits add exactly 0.25·n to the horizontal speed's magnitude, from any starting sign |
| Balls.ReboundsBounded | script.js:101-108 | Paddle hits never lower the horizontal speed's magnitude and never take it to 16.25 or beyond |
| Balls.Ball.constructor | script.js:70-76 | The ball is built at the given position with the served speeds for its coins |
| Balls.Ball.Move | script.js:78-87 | Unless running and unpaused, nothing changes; otherwise the ball becomes `Moved` of its old state |
| Balls.Ball.Reset | script.js:94-99 | The ball becomes `Serve(coins)` |
| Balls.Ball.IncreaseSpeed | script.js:101-108 | Position unchanged; each speed component becomes `Bumped` of its old value, independently |
| Balls.Ball.CheckCollision | script.js:111-129 | Unless running and unpaused, nothing changes; otherwise the ball becomes `Collided` with that paddle |
| Opponent.Decide | script.js:164-170 | Down exactly when the paddle centre is below ball.y - 15, up exactly when it is above ball.y + 15, and still exactly when the centre is within 15 of ball.y |
| Opponent.NextCounter | script.js:159-161 | The counter stays in [0, 3), goes back to 0 exactly on a call that gets past the delay, and otherwise counts up by one |
| Opponent.DecisionsCount | script.js:156-161 | From a reachable counter c, exactly (c + n) / 3 of the next n running calls decide |
| Opponent.DecisionsPerWindow | script.js:156-161 | Any n consecutive running calls hold between n/3 and ceil(n/3) decisions; every 3 consecutive calls hold exactly one |
| MatchSpec.Initial | script.js:30-140 | At load: menu mode, not running, not paused, scores and counter 0, ball served from the centre, both paddles centred |
| MatchSpec.Reset | script.js:305-309 | The ball is served from the centre and both paddles are centred; flags, scores and counter are untouched |
| MatchSpec.AiStep | script.js:156-171 | Nothing changes unless running and unpaused. Only the counter and the right paddle may change; the counter becomes `NextCounter` of the old one, so it stays in [0, 3) and is 0 exactly after a call that acts. The paddle moves only on a call past the delay with the ball outside the deadband: down by one clamped step when the centre is below the band, up when above |
| MatchSpec.InputStep | script.js:179-185 | Only the paddles may change, and only when running and unpaused. The left paddle moves by 'w'/'s' in modes 1 and 2; the right paddle moves by the arrows in mode 2 only. Paddles inside the field stay inside |
| MatchSpec.PhysicsStep | script.js:188-191 | Only the ball may change, and only when running and unpaused: it moves, then is checked against paddle 1, then paddle 2. Both speed components stay below 16.25 |
| MatchSpec.ScoreStep | script.js:193-202 | x <= 0 adds one to score2 and resets the field. Otherwise x + 10 >= 600 adds one to score1 and resets the field. Otherwise nothing changes. Flags and counter are untouched, and afterwards the ball lies strictly between the scoring lines. The check does not look at the running flag |
| MatchSpec.FrameRequested | script.js:177-227 | A tick requests another frame exactly when the match is running and unpaused |
| MatchSpec.Ticked | script.js:175-229 | A tick while paused changes nothing; no tick changes the mode, the running flag or the pause flag |
| MatchSpec.Started | script.js:237-248 | Before its first tick: the mode is set, the match is running, ball and paddles are reset, scores, counter and the pause flag are kept, and validity is kept |
| MatchSpec.AtMenu | script.js:272-303 | Not running, not paused, both scores 0, ball and paddles reset; mode and counter kept; validity kept |
| MatchSpec.PauseToggled | script.js:311-321 | Without a running match nothing changes; otherwise only the pause flag flips. Validity is kept |
| MatchSpec.Resumed | script.js:323-327 | Only the pause flag changes, to false, whether or not a match runs. Validity is kept |
| MatchSpec.ToggleRequestsFrame | script.js:311-321 | As written, `togglePause` never leaves a frame requested |
| MatchSpec.ToggleRequestsFrameIntended | script.js:316-319 | With `gameLoop` called on un-pausing, a frame is requested exactly when a running match is un-paused, and the match is then active |
| MatchProperties.InitialValid | script.js:30-140 | The state at load satisfies the invariant `Valid` |
| MatchProperties.CollidedBounded | script.js:111-129 | A collision check keeps both speed components below 16.25 |
| MatchProperties.TickPreservesValid | script.js:175-205 | A tick keeps the invariant: paddles in [0, 340], both speed magnitudes below 16.25, the ball strictly between the scoring lines, the counter below 3, no pause without a running match |
| MatchProperties.IdleTickChangesNothing | script.js:175-229 | In a valid state with no match running, a tick changes nothing and requests no frame |
| MatchProperties.InactiveStepsChangeNothing | script.js:45-171 | While stopped or paused, paddle input, ball movement, both collision checks and the opponent change nothing |
| MatchProperties.TickScoring | script.js:193-202 | In an unpaused tick, with the ball as the check sees it: x <= 0 adds one to score2 only; otherwise x + 10 >= 600 adds one to score1 only. After a point the ball is served from (300, 200) and both paddles are at 170. Otherwise scores and ball are kept |
| MatchProperties.TickScoresAtMostOne | script.js:193-202 | A tick never lowers a score and raises the total by at most one |
| MatchProperties.StartTickDoesNotScore | script.js:237-248 | The first tick of `startGame` on an unpaused match requests a frame, awards no point and leaves the ball one step from the centre |
| MatchProperties.PauseTwiceRestores | script.js:311-321 | Toggling the pause twice with no tick between gives back the original state |
| MatchProperties.EscapeUnpauseStaysFrozen | script.js:311-321 | As written, un-pausing a running match requests no frame, and neither did the tick that found the pause. The match is active, but nothing will tick it again |
| MatchProperties.TickAdvancesCounter | script.js:203-205 | In a single-player tick on an active match, the counter becomes `NextCounter` of the old one. The opponent moves the right paddle only on a call that gets past the delay |
| MatchProperties.OpponentMovesBounded | script.js:156-171 | Over any run of an active single-player match, the opponent moves on at most `Decisions(counter, n)` of the n ticks |
| MatchProperties.OpponentRateLimited | script.js:156-171 | From a valid state of an active single-player match, the opponent moves on at most ceil(n/3) of n ticks, and at most once in any 3 consecutive ticks |
| MatchProperties.RunPreservesValid | script.js:225-227 | After any number of ticks the invariant `Valid` still holds |
| MatchProperties.RunScores | script.js:193-202 | Over n ticks the scores never go down and their total rises by at most n |
| MatchProperties.RunKeepsFlags | script.js:175-229 | No number of ticks changes the mode, the running flag or the pause flag |
| Pong.Game.constructor | script.js:30-140 | The game starts in the `Initial` state, with fresh, distinct paddles and ball, and is valid |
| Pong.Game.ResetGame | script.js:305-309 | The new state is `Reset` of the old one |
| Pong.Game.AiMove | script.js:156-171 | The new state is `AiStep` of the old one |
| Pong.Game.ApplyInput | script.js:179-185 | The paddles move by the keys the mode enables, as `Paddles.Moved` says, and nothing else changes |
| Pong.Game.MoveBall | script.js:188-191 | The ball moves, then is checked against paddle 1, then paddle 2; nothing else changes |
| Pong.Game.Tick | script.js:175-229 | The new state is `Ticked` of the old one and stays valid. Another frame is requested exactly when the match was unpaused and running |
| Pong.Game.StartGame | script.js:237-248 | The new state is the first tick after `Started`, and stays valid. A frame is requested exactly when no pause was left over |
| Pong.Game.BackToMenu | script.js:272-303 | The new state is `AtMenu` of the old one, and stays valid |
| Pong.Game.TogglePause | script.js:311-321 | The new state is `PauseToggled` of the old one, and no frame is requested |
| Pong.Game.TogglePauseResuming | script.js:311-321 | Corrected toggle. Un-pausing a running match runs a tick and requests the next frame. Any other toggle only flips the flag as `PauseToggled` says and requests nothing |
| Pong.Game.ResumeGame | script.js:323-327 | The new state is a tick after `Resumed`, and stays valid. A frame is requested exactly when the match is running |

## Left out

- Drawing: the `draw` methods, clearing and filling the canvas, and the dashed centre line (script.js:58-61, 89-92, 207-222). They only render and change no simulation state.
- DOM and menu plumbing (script.js:2-8, 239-243, 249-269, 273-290, 297-299, 317-318, 325): element lookups, `style.display` toggles, rebuilding the instructions, and the text set by `updateScore`. `showInstructions` and `showCustomization` only change visibility.
- `applyCustomization` and the colour variables (script.js:16-18, 264-269). They are strings read from inputs and have no effect on the simulation.
- Keyboard listeners (script.js:143-152). The key state is a parameter of each tick, and Escape is a call of `TogglePause`.
- `requestAnimationFrame` and frame timing (script.js:226). The host's scheduler is modelled by the boolean each tick returns, and by `Run`, which applies one tick per frame.
- A second frame chain is not modelled. Calling `resumeGame` while frames are already being requested starts one in the source.
- `Math.random` (script.js:74-75, 97-98). Its outcomes are `Coins` parameters.
- IEEE-754 rounding of 0.25 and of the multiplication by 0.3. Speeds are exact reals.
- The per-instance `width`, `height`, `speed` and `size` fields of paddles and ball. They are always the module constants, so the model uses the constants.

## Findings

| source | as written | input that shows it | evidently intended | confidence | as-written member | corrected member |
|---|---|---|---|---|---|---|
| script.js:311-321 | `gameLoop()` is called only in the branch where `paused` has just become true. There it returns at once, so un-pausing calls nothing | A running match; Escape pauses it, and the pending frame's tick returns without requesting another. A second Escape sets `paused` to false and requests no frame, so the match stays frozen | Call `gameLoop()` when `paused` has just become false, as the comment "Resume the game loop" says | medium, not executed | MatchProperties.EscapeUnpauseStaysFrozen | Pong.Game.TogglePauseResuming |
