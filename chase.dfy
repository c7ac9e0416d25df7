/** The two actors' intents for one frame: the player's from the held
    arrow keys, the ghost's from straight-line pursuit or, once it has been
    stuck for a while, from two random wander values; and the ghost's stuck
    counter. */
module Chase {
  import opened Geometry

  /** Which of the four arrow keys are currently held. */
  datatype Keys = Keys(up: bool, down: bool, left: bool, right: bool)

  const NoKeys: Keys := Keys(false, false, false, false)

  /** The effect of a keydown (held) or keyup (not held) event on the key
      flags: only the four arrow key names are tracked. */
  function Press(keys: Keys, key: string, held: bool): Keys
  {
    if key == "ArrowUp" then keys.(up := held)
    else if key == "ArrowDown" then keys.(down := held)
    else if key == "ArrowLeft" then keys.(left := held)
    else if key == "ArrowRight" then keys.(right := held)
    else keys
  }

  /** The player's desired vector: each component starts at 0 and the
      held keys overwrite it in the order left, right, up, down, so right
      wins over left and down wins over up. */
  function Intent(keys: Keys): (r: (real, real))
    ensures r.0 in {-1.0, 0.0, 1.0} && r.1 in {-1.0, 0.0, 1.0}
    ensures r.0 == 1.0 <==> keys.right
    ensures r.0 == -1.0 <==> keys.left && !keys.right
    ensures r.1 == 1.0 <==> keys.down
    ensures r.1 == -1.0 <==> keys.up && !keys.down
  {
    var moveX := if keys.left then -1.0 else 0.0;
    var moveX := if keys.right then 1.0 else moveX;
    var moveY := if keys.up then -1.0 else 0.0;
    var moveY := if keys.down then 1.0 else moveY;
    (moveX, moveY)
  }

  /** Above this stuck count the ghost wanders instead of chasing. */
  const WanderAbove: int := 5
  /** Above this stuck count the counter is cleared before the move. */
  const ResetAbove: int := 20

  /** The ghost's desired vector. It aims at the player's position (the
      position the player has already moved to in this frame) unless the
      stuck counter is above 5; then each component is a `Math.random()`
      draw in [0, 1) minus 0.5. */
  function GhostDesire(playerBox: Rect, ghostBox: Rect, stuckCounter: int,
                       random1: real, random2: real): (r: (real, real))
    requires 0.0 <= random1 < 1.0 && 0.0 <= random2 < 1.0
    ensures stuckCounter <= WanderAbove ==> r == (playerBox.x - ghostBox.x, playerBox.y - ghostBox.y)
    ensures WanderAbove < stuckCounter ==>
      r == (random1 - 0.5, random2 - 0.5) &&
      -0.5 <= r.0 < 0.5 && -0.5 <= r.1 < 0.5
  {
    if stuckCounter > WanderAbove then (random1 - 0.5, random2 - 0.5)
    else (playerBox.x - ghostBox.x, playerBox.y - ghostBox.y)
  }

  /** The counter as it stands when the ghost moves: cleared once it is
      above 20 (the source does this inside the wander branch, which every
      such count takes). */
  function CounterBeforeMove(stuckCounter: int): int
  {
    if stuckCounter > ResetAbove then 0 else stuckCounter
  }

  /** The counter after the move: one more when the ghost stayed exactly
      where it was, zero when it moved on either axis. */
  function CounterAfterMove(counter: int, ghostMoved: bool): int
  {
    if ghostMoved then 0 else counter + 1
  }

  /** The whole update of one frame. */
  function NextStuckCounter(stuckCounter: int, ghostMoved: bool): int
  {
    CounterAfterMove(CounterBeforeMove(stuckCounter), ghostMoved)
  }

  /** The counter stays in 0..21; it is zero exactly when the ghost moved,
      and otherwise one more than before (or 1 after the reset above
      20). */
  lemma StuckCounterBounded(stuckCounter: int, ghostMoved: bool)
    requires 0 <= stuckCounter <= ResetAbove + 1
    ensures var next := NextStuckCounter(stuckCounter, ghostMoved);
      0 <= next <= ResetAbove + 1 &&
      (next == 0 <==> ghostMoved) &&
      (!ghostMoved ==> next == if stuckCounter > ResetAbove then 1 else stuckCounter + 1)
  {
  }

  /** The counter after n frames in a row in which the ghost did not move,
      starting from 0. */
  function StuckFor(n: nat): int
  {
    if n == 0 then 0 else NextStuckCounter(StuckFor(n - 1), false)
  }

  /** A ghost that never moves counts 1, 2, ..., 21 and then starts over
      at 1: the counter cycles with period 21. */
  lemma {:induction false} StuckCounterCycles(n: nat)
    requires 1 <= n
    ensures StuckFor(n) == (n - 1) % 21 + 1
  {
    if n > 1 {
      StuckCounterCycles(n - 1);
    }
  }

  /** A ghost stuck from the start chases for six frames and wanders from
      the seventh frame on (its counter is then above 5), until the
      twenty-second frame, when the counter has gone past 20 and is
      cleared; it then chases again. */
  lemma {:induction false} WanderWindow(n: nat)
    requires 1 <= n <= 22
    ensures WanderAbove < StuckFor(n - 1) <==> 7 <= n
    ensures ResetAbove < StuckFor(n - 1) <==> n == 22
  {
    if n > 1 {
      StuckCounterCycles(n - 1);
      assert (n - 2) % 21 == n - 2;
    }
  }
}
