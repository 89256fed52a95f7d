# Pong game state, in Dafny

This project models the game logic of a two-player Pong game written in Rust
with ggez. There are two paddles, one ball and a scoreboard. Key events set
each paddle's intent: up, down or still. Every tick advances paddle one, then
paddle two, then the ball. The ball bounces off the first paddle it overlaps,
moves, and scores a point for one player once it leaves the field. Then it
respawns in the middle.

Modules, one per component of `src/main.rs`:

- `Pong` (pong.dfy): the constants (`PAD_SPEED`, `BALL_SPEED`,
  `SCREEN_WIDTH`, `SCREEN_HEIGHT`), the `Direction` enumeration, points and
  sizes (`Vec`), `offset_pos`, the strict rectangle-overlap test, and the
  `as i32` cast (`AsI32`: truncation toward zero, saturating).
- `Paddles` (paddles.dfy): `PadState`, the per-tick step `MovementStep`
  (move, then clamp), and the class `Pad`.
- `Scores` (scores.dfy): `Score`, `Player`, `Credit`, and the class
  `ScoreBoard`.
- `Balls` (balls.dfy): `BallState`, the collision search `FirstHit`, the
  bounce `Bounce`, the bounds test `ExitOf`, the respawn `Spawn`, the whole
  tick `BallUpdate`, and the class `Ball`.
- `Game` (game.dfy): the key map, the key handlers as functions (`Pressed`,
  `Lifted`), and the class `MainState` that drives a tick.

Each class method is proved against a function over values. For example,
`Ball.Update` ends in the state `BallUpdate(old(State()), ...)`. The
properties are proved about those functions.

Some choices follow the code as written:

- A side exit credits **pad one** when the blame index `last_hit_index` is
  0, and pad two otherwise. A top or bottom exit credits the other player
  (src/main.rs:234-236, 241-243). The blame index is that of the paddle hit
  during this tick, or the index kept from earlier ticks when there is no
  hit; a respawn sets it to 1 for a ball heading left and 0 for one heading
  right.
- A ball that is not travelling right bounces to `x = pad.x + pad.x`
  (src/main.rs:297). It is modelled literally. `Balls.Bounce` states exactly
  when this position clears the paddle: when `pad.x >= pad.w` (the paddle
  stands at least its own width from the left edge) or when
  `pad.x + ball.w <= 0`. Paddle one (x = 20, width 10) meets the first
  condition.
- The bounds tests compare `x as i32` and similar values. Truncation toward
  zero moves the real thresholds one unit out. For example, a side exit
  happens when `x >= 851` or `x + width <= -51` (`Balls.ExitOf`).

Inputs that replace foreign calls:

- `d: Vec` is the ball's per-tick displacement,
  `(sin(angle) * BALL_SPEED, cos(angle) * BALL_SPEED)` (src/main.rs:227-228).
  The angle it is computed from is the one after the collision phase
  (src/main.rs:221-226), so a bounce this tick already turns the move.
- `r` is the uniform draw from `[60, 120)`. It is a precondition
  `60.0 <= r < 120.0`.
- `coin` is the fair coin flip (src/main.rs:257-258).

## Model

| member | source | states |
|---|---|---|
| Pong.Offset | src/main.rs:306-308 | the result lies exactly at displacement `o` from `p`; a purely vertical offset keeps x |
| Pong.Overlaps | src/main.rs:276-279 | rectangles that only touch along an edge, horizontally or vertically, do not overlap; overlapping rectangles have positive summed widths and heights |
| Pong.AsI32 | src/main.rs:233 | the cast stays within i32 and truncates toward zero, so it never moves a value away from zero |
| Pong.AsI32Above | src/main.rs:233 | `x as i32 > k` holds exactly when `x >= k + 1` |
| Pong.AsI32Below | src/main.rs:240 | `x as i32 < -k` holds exactly when `x <= -(k + 1)`; values in `(-(k+1), -k]` do not pass |
| Paddles.Clamp | src/main.rs:191-196 | the result always lies in `[-h/2, SCREEN_HEIGHT - h/2]`; a y above the top stop goes to `-h/2`; a y whose bottom edge passes `SCREEN_HEIGHT + h/2` goes to `SCREEN_HEIGHT - h/2`; a y in the band is kept |
| Paddles.MovementStep | src/main.rs:184-197 | only y changes and it always ends in `[-h/2, SCREEN_HEIGHT - h/2]`; a move past the top stop ends on `-h/2`, a move past the bottom stop ends on `SCREEN_HEIGHT - h/2`, and a move that ends inside the band is kept unclamped |
| Paddles.StillIdempotent | src/main.rs:185-196 | when the direction is not Up or Down, a second step changes nothing; a paddle already in the band does not change at all |
| Paddles.StillTicks | src/main.rs:180-197 | any number of ticks of a paddle that is not moving up or down give the state of one tick |
| Paddles.UpTicks | src/main.rs:186-193 | after n ticks holding Up from inside the band, y is `y0 - n * PAD_SPEED` or the top stop `-h/2`, whichever is larger |
| Paddles.DownTicks | src/main.rs:187-196 | after n ticks holding Down from inside the band, y is `y0 + n * PAD_SPEED` or the bottom stop `SCREEN_HEIGHT - h/2`, whichever is smaller |
| Paddles.Pad.constructor | src/main.rs:172-178 | a new paddle has the given position and size and is still |
| Paddles.Pad.Update | src/main.rs:180-182 | one paddle tick is exactly `MovementStep` of the old state |
| Paddles.Pad.MovementUpdate | src/main.rs:184-197 | the move by the held direction followed by the clamp gives `MovementStep` of the old state |
| Scores.Credit | src/main.rs:234-243 | a point raises exactly one counter, by one: the counter of the credited player |
| Scores.ScoreBoard.constructor | src/main.rs:46-49 | both counters start at 0 |
| Balls.FirstHit | src/main.rs:275-285 | the result is `Some(i)` exactly when paddle i overlaps the ball and no earlier paddle does; it is `None` exactly when no paddle overlaps |
| Balls.HitAngleRange | src/main.rs:289 | for a ball that overlaps the paddle, `112.5 - 45 * ((ball.y - pad.y) / pad.h)` lies strictly between 67.5 and `112.5 + 45 * ball.h / pad.h` |
| Balls.Bounce | src/main.rs:288-299 | y, size and blame index are kept; the magnitude of the angle is the hit angle; a ball travelling right turns left with a negative angle and sits flush against the paddle's left edge, clear of it; any other ball turns right with a positive angle and `x = pad.x + pad.x`, which still overlaps the paddle exactly when `pad.x < pad.w` and `pad.x + ball.w > 0` |
| Balls.Collide | src/main.rs:270-303 | the hit index is `FirstHit` of the ball against the paddles; with no hit the ball is unchanged; with a hit its direction flips and its y, size and blame index are kept |
| Balls.Advance | src/main.rs:221-230 | a hit this tick overwrites the blame index and no hit leaves it; with no hit the ball only moves by d; with a hit its direction flips |
| Balls.ExitOf | src/main.rs:233-247 | a side exit happens exactly when `x >= SCREEN_WIDTH + 51` or `x + w <= -51`; a top or bottom exit exactly when there is no side exit and `y >= SCREEN_HEIGHT + 21` or `y + h <= -21` |
| Balls.Scorer | src/main.rs:234-243 | somebody is credited exactly when the ball has exited; for an exit, pad one is credited exactly when the exit is a side exit and the blame index is 0, or a top or bottom exit and the blame index is not 0 |
| Balls.Spawn | src/main.rs:252-266 | the ball is centred on the screen with its size kept; `abs(angle) == r`, in `[60, 120)`; heads gives Left, a negative angle and blame index 1; tails gives Right, a positive angle and blame index 0 |
| Balls.BallUpdate | src/main.rs:220-249 | a point is awarded exactly when the moved ball has `x >= 851`, `x + w <= -51`, `y >= 621` or `y + h <= -21`; the size is kept; a scoring tick leaves the ball centred on the screen, any other tick leaves it where it moved |
| Balls.ScoringAttribution | src/main.rs:220-248 | for every tick: a side exit credits pad one when the blame index (the paddle hit this tick, else the old index) is 0 and pad two otherwise; a top or bottom exit credits the other player; otherwise nobody is credited |
| Balls.TickScoresAtMostOnce | src/main.rs:233-248 | a scoring tick raises the total by exactly one and is the respawn `Spawn` of the moved ball, centred with blame index 0 or 1; a tick that does not score leaves the scoreboard alone and the ball where it moved |
| Balls.BallInvariant | src/main.rs:220-303 | with at most two paddles, a tick keeps the ball's size, its direction Left or Right, and its blame index 0 or 1 |
| Balls.Ball.constructor | src/main.rs:210-218 | a new ball heads right at 90 degrees with blame index 0 |
| Balls.Ball.Update | src/main.rs:220-249 | the new ball state, the scoreboard and the returned flag are those of `BallUpdate` and `Award` on the old state |
| Balls.Ball.SpawnInMiddle | src/main.rs:252-266 | the new state is `Spawn` of the old one |
| Balls.Ball.CollisionUpdate | src/main.rs:270-303 | the loop returns `FirstHit` of the ball against the paddles; the ball is then bounced off that paddle, or left untouched when there is none |
| Game.Binding | src/main.rs:117-123 | exactly the four game keys are bound; each sets Up or Down; W and S belong to pad one, the arrows to pad two; W and ArrowUp set Up |
| Game.Pressed | src/main.rs:117-123 | a key bound to the player sets the bound direction whatever was held before; any other key (the other player's or an unmapped one) leaves it |
| Game.Lifted | src/main.rs:133-155 | the intent changes exactly when the released key is bound to the player and to the direction now held, and it then becomes Still |
| Game.IntentIsHeld | src/main.rs:117-155 | after any sequence of key events, a paddle moves in the direction of its most recent key press as long as that key has not been released since, and is Still once it has |
| Game.MainState.constructor | src/main.rs:40-55 | paddles at (20, 275) and (770, 275), size 10x50, still; the ball respawned from (400, 300), size 10x10; score 0 : 0; the game invariant holds |
| Game.MainState.Update | src/main.rs:67-76 | paddle one, then paddle two, then the ball against both moved paddles; the invariant is kept and the counters never decrease |
| Game.MainState.KeyDownEvent | src/main.rs:110-124 | each paddle's intent becomes `Pressed` of the key; positions and sizes are unchanged; the invariant is kept |
| Game.MainState.KeyUpEvent | src/main.rs:126-156 | each paddle's intent becomes `Lifted` of the key; positions and sizes are unchanged; the invariant is kept |

## Left out

- Drawing, the score text, fonts, window setup, `main` and the event loop
  (src/main.rs:57-63, 78-108, 159-162, 310-322). These are calls into ggez.
  The scoreboard's counters are modelled; their text rendering is not.
- `f32` arithmetic: coordinates and angles are `real`. Rounding, infinities
  and NaN are not modelled. The NaN case of `as i32`, which yields 0, has no
  counterpart.
- Balls.BallUpdate: the displacement `d` is an input. Its tie to the angle
  through `sin`/`cos` and `BALL_SPEED` is not modelled.
- Balls.Spawn: the uniform draw and the coin flip are inputs (`r`, `coin`).
  Their distribution is not modelled.
- Scores.Credit: the counters are unbounded `nat`s. The `u32` overflow of
  `+= 1` is not modelled.
- Balls.Ball.Update: it requires every paddle to have positive height,
  because the bounce divides by it. The game's paddles are 10x50. A paddle
  of height 0 (division by zero in `f32`) is not modelled.
- Keyboard modifiers and key repeat flags are ignored by the handlers and are
  not modelled. Every key other than Up, Down, W and S is `Other`.
