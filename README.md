# Pong game rules in Dafny

A model of the game-rules engine of a browser Pong game (`script.js`). The
player's paddle sits on the left and moves by keyboard or pointer. The
computer's paddle sits on the right and chases the ball at constant speed.
Each display frame, `update` does these steps in order:

1. moves both paddles and clamps them into the field;
2. advances the ball by its velocity;
3. bounces it off the top and bottom walls;
4. tests each paddle for a hit (reflect the ball) or a miss (score a point and re-serve).

Coordinates are Dafny `real`s, not IEEE doubles. `y` grows downwards, and
the field is `[0, WIDTH] x [0, HEIGHT]`.

The project has four modules:

- `Rules` (`rules.dfy`) holds the data model and the per-frame rules as pure functions:
  - `Paddle`, `Ball` and `World` are datatypes. `World` is everything `update` touches.
  - `Host` holds the host's `Math.cos`, `Math.sin`, `Math.hypot` and the stream of `Math.random` results.
  - The functions are `ClampY`, `MovePlayer`, `PointAt`, `Pursue`, `ChaseBall`, `StepBall`, `NormalizedOffset`, `BounceAngle`, `HitSpeed`, `Reflect`, `Serve`, `Advance` and `Frame`.
- `Properties` (`properties.dfy`) holds the lemmas:
  - the invariant one frame keeps (`Inv`: fixed dimensions, `0 < speed <= 12`, and speed equal to the velocity's magnitude);
  - the paddle and ball bounds;
  - the reflection and serve rules;
  - exact scoring on a miss.
- `Controls` (`controls.dfy`) holds the arrow-key machine: the `keys` dictionary and `player.dy`.
- `Session` (`game.dfy`) holds the class `Game`. Its fields are the source's mutable state: `player`, `playerDy`, `computer`, `ball`, both scores, `isRunning`, `keys`, and the count of random draws.
  - Its methods (`Update`, `ResetBall`, `ReflectBallFromPaddle`, `StartGame`, `ToggleRunning`, `ResetGame`, `MouseMove`, `KeyDown`, `KeyUp`) change those fields step by step, as the source does.
  - Each method's `ensures` equates the new state with the matching function of `Rules` or `Controls`, so the lemmas about those functions apply to the class.

The host's mathematics is injected as datatype `Host`, and `Host.Valid()` lists the only facts the model uses:

- `random(i)` is in `[0, 1)`;
- `cos² + sin² = 1`;
- `cos > 0` on `(-π/2, π/2)`;
- `sin > 0` on `(0, π)` and `sin < 0` on `(-π, 0)`;
- `cos 0 = 1` and `sin 0 = 0`;
- `hypot(x, y) >= 0` and `hypot(x, y)² = x² + y²`.

The i-th call of `Math.random` returns `random(i)`. The state counts the calls, so the model keeps the order and number of draws:

- a forced serve draws twice (speed, angle);
- an unforced serve draws three times (direction first);
- `resetGame` and start-up draw once more for the coin that picks the direction.

`resetBall(direction)` takes an `int`. Any value other than `-1` or `1` stands for the source's "undefined or anything else" case, which picks a random direction.

Three details of the code that are easy to misread:

- The launch angle is drawn from the half-open `[-π/8, π/8)`, not a closed interval.
- A serve sets the speed to a fresh value in `[5, 7)`. So the ball's speed can drop at a serve; it rises only on paddle hits.
- The speed ratchet is `min(12, hypot(vx, vy) + 0.25)`. It uses the velocity's magnitude, not the stored `speed` field. Under the invariant the two are equal (`HitNeverSlows`).

## Model

| member | source | states |
|---|---|---|
| Rules.ClampY | script.js:112-114 | when the field is at least a paddle tall, the result lies in `[0, H - h]`; inside that range the position is kept; below 0 it becomes 0; past the bottom it becomes `H - h` |
| Rules.MovePlayer | script.js:109-114 | only `y` changes; the paddle ends in `[0, H - height]` when the field is tall enough; an in-range move is exactly `y + dy` |
| Rules.PointAt | script.js:243-250 | only `y` changes; the paddle ends inside the field; when it does not need clamping, its centre is exactly at the pointer |
| Rules.Pursue | script.js:116-124 | within one step of the target it lands exactly on the target; otherwise it moves exactly `maxMove` and the distance to the target shrinks by exactly `maxMove`; it never overshoots |
| Rules.ChaseBall | script.js:116-127 | the target is the ball's centre minus half the paddle height; the paddle ends inside the field; an in-field pursuit step is kept |
| Rules.StepBall | script.js:129-141 | `x` moves by exactly `vx`, and `vx`, speed and radius are unchanged; `vy` is kept or negated; with no wall crossing, `y` moves by exactly `vy`; when `H >= 2r`: a top crossing gives `y = r` and `-vy`, a bottom crossing gives `y = H - r` and `-vy`, and `y` ends in `[r, H - r]` |
| Rules.NormalizedOffset | script.js:176-178 | a ball within the paddle span gives an offset in `[-1, 1]`: 1 at the top edge, 0 at the centre, -1 at the bottom edge; it is positive exactly when the ball is above the centre |
| Rules.BounceAngle | script.js:180-182 | an offset in `[-1, 1]` gives an angle within `±5π/12`; the angle has the offset's sign; the top edge gives the full `5π/12` |
| Rules.HitSpeed | script.js:187-188 | never above 12 and at least 0.25; never slower than an incoming magnitude that is at most 12; exactly 0.25 faster until it saturates at 12 |
| Rules.Direction | script.js:184-185 | the factor is ±1, and positive exactly for the left (player) paddle |
| Rules.Reflect | script.js:175-192 | position and radius are unchanged and the new speed is at most 12 |
| Rules.ServeDirection | script.js:68-69 | the direction is always ±1; a forced ±1 is kept verbatim; otherwise it is -1 exactly when the draw is below 0.5 |
| Rules.ServeSpeed | script.js:70 | a draw in `[0, 1)` gives a speed in `[5, 7)` |
| Rules.ServeAngle | script.js:71 | a draw in `[0, 1)` gives an angle in `[-π/8, π/8)` |
| Rules.Serve | script.js:65-75 | the ball is re-centred at `(W/2, H/2)` and only the ball and the draw count change; a forced direction costs 2 draws, a random one 3 |
| Rules.Advance | script.js:108-141 | the paddles change only in `y`; the scores, `dy` and the draw count are unchanged |
| Properties.PolarMagnitude | script.js:72-74 | a velocity `(±s·cos a, ±s·sin a)` has magnitude exactly `s` |
| Properties.BounceKeepsMagnitude | script.js:134-141 | negating `vy` at a wall leaves the velocity's magnitude unchanged |
| Properties.ReflectRules | script.js:175-192 | on a hit within the span: the angle is within `±5π/12`; the new speed is `HitSpeed(hypot(vx, vy))`, in `[0.25, 12]`; `vx > 0` exactly for the left paddle and `vx < 0` exactly for the right; hits above the centre go up and hits below go down; a centre hit leaves flat at `±speed`; the new speed is the new velocity's magnitude |
| Properties.HitNeverSlows | script.js:187-188 | when the speed equals the velocity's magnitude and is at most 12, a hit never slows the ball, and it speeds up by exactly 0.25 until the cap |
| Properties.ServeRules | script.js:65-75 | the ball is centred; its speed is in `[5, 7)`; a forced direction gives `sign(vx)` equal to that direction; otherwise `vx < 0` exactly when the first draw is below 0.5; `vx` is never 0; the speed is the velocity's magnitude |
| Properties.AdvanceKeepsInv | script.js:108-141 | moving the paddles and the ball keeps the invariant |
| Properties.PlayerSideCheckKeepsInv | script.js:144-156 | the player paddle test (hit or miss) keeps the invariant |
| Properties.ComputerSideCheckKeepsInv | script.js:158-170 | the computer paddle test (hit or miss) keeps the invariant |
| Properties.FrameKeepsInv | script.js:108-173 | one frame keeps the invariant, so the ball's speed never exceeds 12 |
| Properties.FrameInBounds | script.js:112-141 | when `H >= 90`, after any frame both paddles are in `[0, H - 90]` and the ball's centre is in `[r, H - r]` |
| Properties.ScoresNeverFall | script.js:145-170 | a frame never lowers either score and raises each by at most 1 |
| Properties.OneSideActs | script.js:145-170 | in a field wider than 60, a ball that reached the left face cannot reach the right face, before or after the left test |
| Properties.ScoreExactlyOnMiss | script.js:145-170 | the computer's score rises by 1 exactly on a left miss, and the player's exactly on a right miss; never both in one frame |
| Properties.LeftMissServesRight | script.js:150-155 | a left miss: the computer's score rises by 1 and the player's is unchanged; the ball is re-centred and served right (`vx > 0`) at a speed in `[5, 7)` with 2 draws; the paddles are as moved |
| Properties.RightMissServesLeft | script.js:164-169 | a right miss: the player's score rises by 1 and the computer's is unchanged; the ball is re-centred and served left (`vx < 0`) at a speed in `[5, 7)` with 2 draws |
| Properties.LeftHitReturnsBall | script.js:145-149 | a player-paddle hit: no score changes; the ball is pushed to `player.x + width + r` and leaves rightwards; its speed is `HitSpeed(speed)`, never lower |
| Properties.RightHitReturnsBall | script.js:159-163 | a computer-paddle hit: no score changes; the ball is pushed to `computer.x - r` and leaves leftwards; its speed is `HitSpeed(speed)`, never lower |
| Controls.KeyDown | script.js:254-268 | an arrow marks itself held and sets `dy` to `-speed` (up) or `+speed` (down); other keys change nothing; no other key's held state changes |
| Controls.KeyUp | script.js:270-280 | releasing an arrow unmarks it; `dy` becomes the other arrow's direction if that arrow is held, else 0; no other key's held state changes |
| Controls.KeyDownKeepsConsistent | script.js:254-262 | keydown keeps `dy` in `{-speed, 0, speed}` and in agreement with the held arrows |
| Controls.KeyUpKeepsConsistent | script.js:270-280 | keyup keeps `dy` in `{-speed, 0, speed}` and in agreement with the held arrows |
| Controls.ReleaseFallsBackToHeldKey | script.js:254-280 | up, down, release down: the paddle moves up again, with up still held |
| Controls.ReleaseBothStops | script.js:270-280 | releasing both arrows, in either order, gives `dy = 0` with neither held |
| Session.Game.constructor | script.js:28-62 | initial paddles centred vertically, empty key dictionary, zero scores; the ball is served from the centre in the direction drawn first; the game is running and the invariant holds |
| Session.Game.Random | script.js:69-71 | each `Math.random` call returns the next value of the host's stream |
| Session.Game.ResetBall | script.js:65-75 | the new state is `Serve` of the old one |
| Session.Game.ReflectBallFromPaddle | script.js:175-192 | the new ball is `Reflect` of the old one against the paddle of the given side |
| Session.Game.Update | script.js:108-173 | the new state is `Frame` of the old one; the invariant is kept; the run flag and the keys are unchanged; with `H >= 90`, paddles and ball end in bounds |
| Session.Game.MovePaddlesAndBall | script.js:109-141 | the new state is `Advance` of the old one |
| Session.Game.MovePlayerPaddle | script.js:110-114 | the player paddle becomes `MovePlayer` of the old one |
| Session.Game.MoveComputerPaddle | script.js:117-127 | the computer paddle becomes `ChaseBall` of the old one |
| Session.Game.MoveBall | script.js:130-141 | the ball becomes `StepBall` of the old one |
| Session.Game.CheckPlayerPaddle | script.js:145-156 | the new state is `PlayerSideCheck` of the old one |
| Session.Game.CheckComputerPaddle | script.js:159-170 | the new state is `ComputerSideCheck` of the old one |
| Session.Game.StartGame | script.js:78-84 | the game ends up running; a game already running is left as it was |
| Session.Game.ToggleRunning | script.js:290-296 | flips the run flag |
| Session.Game.ResetGame | script.js:87-93 | both scores are 0 and the game is running; the ball is served after one coin draw; the invariant holds |
| Session.Game.MouseMove | script.js:243-250 | the player paddle becomes `PointAt` the pointer; with `H >= 90` it ends in `[0, H - 90]`; the invariant holds |
| Session.Game.KeyDown | script.js:254-268 | the keys and `dy` follow `Controls.KeyDown`; space toggles the run flag; the invariant holds |
| Session.Game.KeyUp | script.js:270-280 | the keys and `dy` follow `Controls.KeyUp`; the invariant holds |

## Left out

- Rendering (`render`, `drawRoundRect`, script.js:195-235): pure canvas drawing, with no effect on game state.
- DOM glue: element lookup, `updateScoreboard`, and the start and reset button listeners (script.js:7-14, 237-240, 283-288). The pointer handler's `getBoundingClientRect` conversion is replaced by a field-relative `pointerY` parameter.
- `e.preventDefault()` in the key handler: a browser side effect.
- Frame scheduling and timing: `loop`, `requestAnimationFrame`, `performance.now`, `lastTime` and `dt` (script.js:96-105, and the timestamps in script.js:81, 293). `update` never uses `dt`.
- `WIN_SCORE` (script.js:26): declared but never used.
- The `window.pong` debug object (script.js:305-313).
- IEEE-754 arithmetic: all arithmetic is on exact reals, so rounding in `Math.cos`, `Math.sin` and `Math.hypot` is not modelled. The host functions are known only through the facts in `Host.Valid()`.
- Session.Game.ReflectBallFromPaddle: takes a `Side` tag instead of a paddle object. The source's identity test `paddle === player` becomes `side == Left`.
- Session.Game.Update: its body is split into the phase methods `MovePaddlesAndBall`, `CheckPlayerPaddle` and `CheckComputerPaddle`, each with its own specification. The order of the source's assignments is kept.
- Canvas sizes are natural numbers taken by the constructor. The paddle bounds hold when the field is at least 90 tall, and the one-side-per-frame results need a field wider than 60. Outside those limits the model computes what the source computes, but the lemmas stating those results do not apply.
