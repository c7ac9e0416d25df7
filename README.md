# Ghost chase: a verified model of the game mechanics

The game is a browser arcade chase. A blue player square is steered with the
arrow keys inside an 800x600 arena that holds five fixed obstacles. A red ghost
square chases the player in a straight line. The player wins by surviving a
30-second countdown and loses when the two squares overlap (squares that only
share an edge do not collide). Everything happens in
one JavaScript file (`game.js`) through a few callbacks that mutate global
records.

This project models the mechanics of that file in Dafny:

- `geometry.dfy` (module `Geometry`): the strict AABB overlap test `isColliding`,
  and "the box hits some obstacle".
- `movement.dfy` (module `Movement`): `moveCharacter` as functions on boxes.
  A zero vector is a no-op. Otherwise the vector is normalised and scaled by the
  actor's speed. The X step is tried and rolled back on any obstacle hit, then
  the Y step the same way. Last, the player alone is clamped to the arena.
  The lemmas cover rollback, clamping and non-overlap.
- `chase.dfy` (module `Chase`): the key flags and the player's intent. It also
  holds the ghost's desired vector (pursuit, or two wander draws once stuck)
  and its stuck counter.
- `rules.dfy` (module `Rules`): a snapshot `World` of everything the callbacks
  touch. It gives one function per callback (key down, key up, timer tick,
  animation frame, end of image load), the invariant every callback keeps, and
  the transition table of `gameState` (`loading`, `playing`, `win`, `lose`).
- `game.dfy` (module `Game`): class `Actor`, whose position is updated in
  place, and class `Game`, which holds both actors, the obstacles and the
  mutable variables. `MoveCharacter` runs the two rollback loops with `break` as
  the source does. Every callback is a method whose postcondition equates the
  new snapshot with the matching `Rules` function of the old one, and which
  keeps `Valid()`.

Inputs that come from the environment are parameters:

- `Math.sqrt` is a function argument `sqrt`. The lemmas that need it assume
  `IsSqrt(sqrt)`: the root of 0 is 0, the root of 1 is 1, and the root of a
  positive number is positive.
- The two `Math.random()` draws are inputs in [0, 1). As in the source, the model
  subtracts 0.5 from each.
- Key presses, timer ticks, animation frames and the end of the image load
  (success or failure alike) are events (`Rules.Event`, `Game.Game.Handle`).

Positions are mathematical reals, so IEEE rounding plays no part.

Behaviour of the code that the model keeps and that is easy to overlook:

- The reset guard is `gameState !== 'playing'`, so R also starts the game while
  the image is still loading. `Rules.ResetDuringLoadingStarts` records this.
- `startGame` does not touch `timeLeft`. It sets `playing` from any state and
  runs one frame at once.
- A ghost whose desired vector is zero does not move. Its counter therefore goes
  up: a zero-intent ghost counts as stuck.
- The clock turns to `win` when `timeLeft <= 0` after the decrement.
- The rollback keeps a box clear of the obstacles, but the later clamp can push
  the player into an obstacle near an arena edge
  (`Movement.ClampCanEnterObstacle`). The five real obstacles are far enough
  from the edges (`Rules.ObstaclesKeepMargin`), so the invariant holds for them.

## Model

| member | source | states |
|---|---|---|
| Geometry.CollidingIffSharedInteriorPoint | game.js:72-79 | for boxes of positive size, the overlap test holds exactly when some point lies strictly inside both boxes |
| Geometry.TouchingEdgesDoNotCollide | game.js:72-79 | boxes that only share an edge, on either axis and in either order, do not collide |
| Movement.XStepOutcome | game.js:91-97 | after the X loop, x is either original x + velX with the box clear of every obstacle, or exactly the original x; it is rolled back only when the shifted box hits an obstacle; y and the size are unchanged |
| Movement.YStepOutcome | game.js:99-105 | the Y loop obeys the same rule for y and never alters x |
| Movement.ResolveKeepsClear | game.js:88-105 | a box that overlapped no obstacle overlaps none after both rollback loops, and each coordinate ends at its old or its displaced value |
| Movement.MagnitudeZeroIff | game.js:82-83 | the early return is taken exactly for the zero vector |
| Movement.ZeroMoveIsNoop | game.js:82-83 | a zero desired vector leaves the box unchanged, with no clamp either |
| Movement.VelocityDirection | game.js:85-86 | the velocity is parallel to the desired vector and has the same sign on each axis |
| Movement.UnitMoveVelocity | game.js:82-86 | each single-arrow vector, (1, 0), (-1, 0), (0, 1) and (0, -1), has length 1, so the velocity is exactly plus or minus the speed along that axis and 0 across it |
| Movement.ClampInArena | game.js:107-112 | for a box no larger than the arena, the clamp leaves 0 <= x, x + width <= 800, 0 <= y, y + height <= 600; a box already inside is not moved; the size is kept |
| Movement.ClampKeepsClear | game.js:107-112 | if the obstacles keep the box's size away from every edge, clamping a clear box keeps it clear |
| Movement.ClampCanEnterObstacle | game.js:88-112 | without that margin, a clear player inside the arena can end a move inside an obstacle because of the clamp |
| Movement.PlayerMoveKeepsInvariant | game.js:81-113 | a player move that starts inside the arena and clear of the obstacles (which keep their margin) ends inside the arena and clear, with its size unchanged |
| Movement.GhostMoveKeepsClear | game.js:81-113 | an unclamped move keeps a clear box clear and keeps its size |
| Movement.GhostCanLeaveArena | game.js:107-112 | the ghost is not clamped: a move that the clamp would stop at the right edge takes the ghost past it |
| Chase.Intent | game.js:166-171 | each intent component is -1, 0 or 1; x is 1 iff ArrowRight is held and -1 iff only ArrowLeft is; y is 1 iff ArrowDown is held and -1 iff only ArrowUp is |
| Chase.GhostDesire | game.js:174-179 | with a stuck counter of at most 5 the ghost aims at the given (already moved) player position; above 5 both components are the wander draws minus 0.5, each in [-0.5, 0.5) |
| Chase.StuckCounterBounded | game.js:180-191 | from 0..21 the counter stays in 0..21; after the frame it is 0 exactly when the ghost moved, and otherwise one more than before (1 after the reset above 20) |
| Chase.StuckCounterCycles | game.js:177-191 | a ghost that never moves counts 1, 2, ..., 21 and starts over: after n frames the counter is (n - 1) mod 21 + 1 |
| Chase.WanderWindow | game.js:177-183 | a ghost stuck from the start chases for six frames, wanders from the seventh, and has its counter cleared on the twenty-second |
| Rules.ObstaclesKeepMargin | game.js:28-34 | the five obstacles keep at least 40 units from every arena edge |
| Rules.InitialInv | game.js:26-34 | the start-up snapshot and the reset of any snapshot whatsoever satisfy the invariant (sizes, player inside the arena, neither actor on an obstacle, counter in 0..21, clock at most 30) |
| Rules.FramePreservesInv | game.js:161-196 | a frame keeps the invariant |
| Rules.StepPreservesInv | game.js:39-207 | every event (key down with reset, key up, tick, frame, end of load) keeps the invariant |
| Rules.IdleUnlessPlaying | game.js:62-162 | outside `playing`, a frame and a timer tick change nothing (the `playing` guards of the timer body, line 62, and of the frame, line 162) |
| Rules.TickWhilePlaying | game.js:61-68 | while playing, a tick takes one second off and changes nothing else; the result is `win` iff the clock was at most 1, otherwise still `playing` |
| Rules.ClockRunsOut | game.js:60-69 | a round with t seconds left is still playing after t - 1 ticks and is won with the clock at 0 after t ticks |
| Rules.ResetOnlyOutsidePlaying | game.js:39-58 | while playing, a key press only updates the key flags; outside `playing`, R yields player (50,50), ghost (700,500), counter 0, clock 30, state `playing`, keys kept; other keys only update the flags |
| Rules.FrameWhilePlaying | game.js:162-196 | in a playing frame the result is `lose` iff the moved boxes collide and `playing` otherwise; clock and keys are untouched; the ghost moves toward the player's new position when its counter is at most 5 and along the wander draws above 5; the counter is 0 iff the ghost moved, else the (possibly cleared) counter plus one |
| Rules.Transitions | game.js:41-207 | closed transition table: a tick only turns `playing` into `win`, a frame only `playing` into `lose`, a key press only turns a non-playing state into `playing` through R, a key release never changes the state, the end of the load always leaves `playing` or `lose`; `win` and `lose` are left only through R or the load |
| Rules.ResetDuringLoadingStarts | game.js:41-43 | R pressed while loading starts the game |
| Rules.PlayerFirstStepRight | game.js:166-172 | in a playing frame with the player at (50,50) and only the right arrow held, the player moves to (55,50) |
| Game.Actor.constructor | game.js:26-27 | an actor starts with the given box and speed |
| Game.Game.constructor | game.js:8-37 | the set-up: `loading`, 30 seconds, both spawn points, no key held; the invariant holds |
| Game.Game.MoveCharacter | game.js:81-113 | the in-place move with its two rollback loops and the player-only clamp leaves the character's box equal to `Movement.Moved` of its old box |
| Game.Game.GameLoop | game.js:161-196 | the frame update leaves the snapshot equal to `Rules.AfterFrame` of the old one and keeps the invariant |
| Game.Game.TimerTick | game.js:60-69 | the timer body leaves the snapshot equal to `Rules.AfterTick` of the old one |
| Game.Game.ResetGame | game.js:50-58 | the reset leaves the snapshot equal to `Rules.AfterReset` of the old one |
| Game.Game.KeyDown | game.js:39-44 | the keydown listener leaves the snapshot equal to `Rules.AfterKeyDown` of the old one |
| Game.Game.KeyUp | game.js:45-47 | the keyup listener leaves the snapshot equal to `Rules.AfterKeyUp` of the old one |
| Game.Game.StartGame | game.js:202-207 | `startGame` leaves the snapshot equal to `Rules.AfterStart` of the old one (playing, then one frame) |
| Game.Game.Handle | game.js:16-23 | any event, including the load callbacks, leaves the snapshot equal to `Rules.Step` of the old one and keeps the invariant |

## Left out

- Rendering: the canvas set-up, `draw`, the text overlay and the obstacle image (game.js:1-5, 116-158). Apart from drawing, `draw` also cancels the countdown timer whenever the game is not being played (game.js:138-139). Timers are not modelled (see Scheduling). The model's state is unaffected, because a tick outside `playing` changes nothing (`Rules.IdleUnlessPlaying`).
- Image loading and `isImageLoaded` (game.js:12-23): both callbacks are the single `LoadComplete` event. The model also does not enforce that the load finishes at most once.
- Scheduling (`setInterval`, `clearInterval`, `requestAnimationFrame`): ticks and frames are discrete events. The frame loop is started only by `startGame` (game.js:198, 206), but an R during loading starts a timer (game.js:56-57), and the end of the load then starts a second one (game.js:205) without cancelling the first. Extra ticks are simply more `TimerTick` events. The source runs no frame before the load finishes. The model accepts `AnimationFrame` in any state, so after an R during loading it lets the player move where the source cannot. This is an over-approximation, and every invariant still holds under it.
- `console.log` and the registration of the event listeners.
- `event.key in keys` also accepts inherited property names such as `toString`, and the source then stores a flag under that name. That flag has no effect on play, so the model tracks only the four arrow keys.
- Floating point: positions, speeds (5 and 3.6) and the normalisation are exact reals. Rounding, and a tiny non-zero vector whose length underflows to 0, are not modelled.
- Movement.VelocityDirection: does not state that the velocity's length equals the speed. The model knows of its square root only that 0 maps to 0, 1 to 1 and positives to positives.
