/** The game's rules as functions on a snapshot of its state: one function
    per callback of the source (key down, key up, the one-second timer
    tick, the animation frame, the end of the image load), the invariant
    they all keep, and the transition table of the game state. The class in
    module Game performs these updates in place. */
module Rules {
  import opened Geometry
  import opened Movement
  import opened Chase

  /** The values of `gameState`. */
  datatype GameState = Loading | Playing | Win | Lose

  const PlayerSpeed: real := 5.0
  const GhostSpeed: real := 3.6
  /** Where the actors are at start-up and after a reset. */
  const PlayerSpawn: Rect := Rect(50.0, 50.0, 40.0, 40.0)
  const GhostSpawn: Rect := Rect(700.0, 500.0, 50.0, 50.0)
  /** Seconds on the clock at start-up and after a reset. */
  const RoundSeconds: int := 30

  /** The five fixed obstacles, in declaration order. */
  const Obstacles: seq<Rect> := [
    Rect(200.0, 150.0, 80.0, 80.0),
    Rect(500.0, 350.0, 80.0, 80.0),
    Rect(350.0, 250.0, 80.0, 80.0),
    Rect(150.0, 400.0, 80.0, 80.0),
    Rect(550.0, 100.0, 80.0, 80.0)
  ]

  /** Everything the callbacks read or write: the game state, the clock,
      the two actors' boxes, the ghost's stuck counter and the held
      keys. */
  datatype World = World(state: GameState, timeLeft: int, playerBox: Rect, ghostBox: Rect,
                         stuckCounter: int, keys: Keys)

  /** The state before the image has loaded. */
  const Initial: World := World(Loading, RoundSeconds, PlayerSpawn, GhostSpawn, 0, NoKeys)

  /** What holds of every reachable snapshot: the actors keep their sizes,
      the player is inside the arena, neither actor overlaps an obstacle,
      the stuck counter is in 0..21 and the clock never exceeds 30. */
  predicate Inv(w: World)
  {
    w.playerBox.width == 40.0 && w.playerBox.height == 40.0 &&
    w.ghostBox.width == 50.0 && w.ghostBox.height == 50.0 &&
    InArena(w.playerBox) &&
    !HitsAny(w.playerBox, Obstacles) && !HitsAny(w.ghostBox, Obstacles) &&
    0 <= w.stuckCounter <= ResetAbove + 1 &&
    w.timeLeft <= RoundSeconds
  }

  /** Body of the one-second timer: while playing, one second less, and
      the round is won once the clock is at or below zero. */
  function AfterTick(w: World): World
  {
    if w.state == Playing then
      var t := w.timeLeft - 1;
      w.(timeLeft := t, state := if t <= 0 then Win else Playing)
    else w
  }

  /** `resetGame`: both actors back at their spawn points, the counter and
      the clock restored, and playing again. The held keys are kept. */
  function AfterReset(w: World): World
  {
    w.(playerBox := PlayerSpawn, ghostBox := GhostSpawn, stuckCounter := 0,
       timeLeft := RoundSeconds, state := Playing)
  }

  /** `event.key.toLowerCase() === 'r'`. */
  predicate IsResetKey(key: string)
  {
    key == "r" || key == "R"
  }

  /** The keydown handler: record an arrow key, then reset when the key is
      R and the game is not being played. */
  function AfterKeyDown(w: World, key: string): World
  {
    var pressed := w.(keys := Press(w.keys, key, true));
    if pressed.state != Playing && IsResetKey(key) then AfterReset(pressed) else pressed
  }

  /** The keyup handler: release an arrow key. */
  function AfterKeyUp(w: World, key: string): World
  {
    w.(keys := Press(w.keys, key, false))
  }

  /** The update block of `gameLoop`, run only while playing: move the
      player by the held keys (clamped), aim the ghost at the moved player
      or let it wander, move the ghost (not clamped), update the stuck
      counter, and lose on a player/ghost collision. */
  function AfterFrame(w: World, random1: real, random2: real, sqrt: real -> real): World
    requires 0.0 <= random1 < 1.0 && 0.0 <= random2 < 1.0
  {
    if w.state != Playing then w
    else
      var intent := Intent(w.keys);
      var playerBox := Moved(w.playerBox, PlayerSpeed, true, intent.0, intent.1,
                             Magnitude(sqrt, intent.0, intent.1), Obstacles);
      var desire := GhostDesire(playerBox, w.ghostBox, w.stuckCounter, random1, random2);
      var ghostBox := Moved(w.ghostBox, GhostSpeed, false, desire.0, desire.1,
                            Magnitude(sqrt, desire.0, desire.1), Obstacles);
      var ghostMoved := ghostBox.x != w.ghostBox.x || ghostBox.y != w.ghostBox.y;
      w.(playerBox := playerBox, ghostBox := ghostBox,
         stuckCounter := NextStuckCounter(w.stuckCounter, ghostMoved),
         state := if IsColliding(playerBox, ghostBox) then Lose else Playing)
  }

  /** `startGame`, run when the image has loaded or failed to load: playing
      from now on, and one frame straight away. */
  function AfterStart(w: World, random1: real, random2: real, sqrt: real -> real): World
    requires 0.0 <= random1 < 1.0 && 0.0 <= random2 < 1.0
  {
    AfterFrame(w.(state := Playing), random1, random2, sqrt)
  }

  /** The callbacks, as events. A frame and the end of the image load carry
      the two `Math.random()` draws the frame may use. */
  datatype Event =
    | KeyDown(key: string)
    | KeyUp(key: string)
    | TimerTick
    | AnimationFrame(random1: real, random2: real)
    | LoadComplete(random1: real, random2: real)

  /** The random draws of an event lie in [0, 1). */
  predicate WellFormed(e: Event)
  {
    (e.AnimationFrame? || e.LoadComplete?) ==> 0.0 <= e.random1 < 1.0 && 0.0 <= e.random2 < 1.0
  }

  function Step(w: World, e: Event, sqrt: real -> real): World
    requires WellFormed(e)
  {
    match e
    case KeyDown(key) => AfterKeyDown(w, key)
    case KeyUp(key) => AfterKeyUp(w, key)
    case TimerTick => AfterTick(w)
    case AnimationFrame(random1, random2) => AfterFrame(w, random1, random2, sqrt)
    case LoadComplete(random1, random2) => AfterStart(w, random1, random2, sqrt)
  }

  /** The five obstacles keep at least the player's size away from every
      arena edge, so the player's clamp never pushes it into one. */
  lemma ObstaclesKeepMargin()
    ensures KeepsMargin(Obstacles, PlayerSpawn.width, PlayerSpawn.height)
  {
  }

  /** The start-up snapshot and the reset snapshot satisfy the invariant. */
  lemma InitialInv(w: World)
    ensures Inv(Initial)
    ensures Inv(AfterReset(w))
  {
    forall i | 0 <= i < |Obstacles|
      ensures !IsColliding(PlayerSpawn, Obstacles[i]) && !IsColliding(GhostSpawn, Obstacles[i])
    {
    }
  }

  /** A frame keeps the invariant: the player stays in the arena and clear
      of the obstacles, the ghost stays clear, and the stuck counter stays
      in 0..21. */
  lemma FramePreservesInv(w: World, random1: real, random2: real, sqrt: real -> real)
    requires 0.0 <= random1 < 1.0 && 0.0 <= random2 < 1.0
    requires Inv(w)
    ensures Inv(AfterFrame(w, random1, random2, sqrt))
  {
    if w.state == Playing {
      var intent := Intent(w.keys);
      var playerBox := Moved(w.playerBox, PlayerSpeed, true, intent.0, intent.1,
                             Magnitude(sqrt, intent.0, intent.1), Obstacles);
      ObstaclesKeepMargin();
      PlayerMoveKeepsInvariant(w.playerBox, PlayerSpeed, intent.0, intent.1,
                               Magnitude(sqrt, intent.0, intent.1), Obstacles);
      var desire := GhostDesire(playerBox, w.ghostBox, w.stuckCounter, random1, random2);
      GhostMoveKeepsClear(w.ghostBox, GhostSpeed, desire.0, desire.1,
                          Magnitude(sqrt, desire.0, desire.1), Obstacles);
      var ghostBox := Moved(w.ghostBox, GhostSpeed, false, desire.0, desire.1,
                            Magnitude(sqrt, desire.0, desire.1), Obstacles);
      StuckCounterBounded(w.stuckCounter, ghostBox.x != w.ghostBox.x || ghostBox.y != w.ghostBox.y);
    }
  }

  /** Every event keeps the invariant, so every snapshot reachable from
      the start-up one satisfies it. */
  lemma StepPreservesInv(w: World, e: Event, sqrt: real -> real)
    requires WellFormed(e) && Inv(w)
    ensures Inv(Step(w, e, sqrt))
  {
    match e
    case KeyDown(key) =>
      InitialInv(w);
    case KeyUp(key) =>
    case TimerTick =>
    case AnimationFrame(random1, random2) =>
      FramePreservesInv(w, random1, random2, sqrt);
    case LoadComplete(random1, random2) =>
      FramePreservesInv(w.(state := Playing), random1, random2, sqrt);
  }

  /** Frames and timer ticks change nothing unless the game is being
      played. */
  lemma IdleUnlessPlaying(w: World, random1: real, random2: real, sqrt: real -> real)
    requires 0.0 <= random1 < 1.0 && 0.0 <= random2 < 1.0
    requires w.state != Playing
    ensures AfterFrame(w, random1, random2, sqrt) == w
    ensures AfterTick(w) == w
  {
  }

  /** While playing, a tick takes one second off the clock and changes
      nothing else, except that the round is won when the clock reaches
      zero or below. */
  lemma TickWhilePlaying(w: World)
    requires w.state == Playing
    ensures var r := AfterTick(w);
      r.timeLeft == w.timeLeft - 1 &&
      (r.state == Win <==> w.timeLeft <= 1) &&
      (r.state == Playing <==> 1 < w.timeLeft) &&
      r.(state := w.state, timeLeft := w.timeLeft) == w
  {
  }

  /** n timer ticks in a row. */
  function Ticks(w: World, n: nat): World
  {
    if n == 0 then w else AfterTick(Ticks(w, n - 1))
  }

  /** A round with t seconds left is still being played after t - 1 ticks
      and won, with the clock at 0, after t ticks; a fresh round is thus
      won after 30 seconds. */
  lemma {:induction false} ClockRunsOut(w: World, t: nat)
    requires w.state == Playing && 1 <= t <= w.timeLeft
    ensures Ticks(w, t - 1) == w.(timeLeft := w.timeLeft - (t - 1))
    ensures w.timeLeft == t ==> Ticks(w, t) == w.(timeLeft := 0, state := Win)
  {
    if t > 1 {
      ClockRunsOut(w, t - 1);
    }
  }

  /** The R key resets the game only when it is not being played: while
      playing, a key press only updates the key flags; otherwise R restores
      the spawn state and starts playing. */
  lemma ResetOnlyOutsidePlaying(w: World, key: string)
    ensures w.state == Playing ==> AfterKeyDown(w, key) == w.(keys := Press(w.keys, key, true))
    ensures w.state != Playing && IsResetKey(key) ==>
      AfterKeyDown(w, key) ==
        World(Playing, RoundSeconds, PlayerSpawn, GhostSpawn, 0, w.keys)
    ensures w.state != Playing && !IsResetKey(key) ==>
      AfterKeyDown(w, key) == w.(keys := Press(w.keys, key, true))
  {
  }

  /** One frame of play: the game is lost exactly when the moved boxes
      collide; the ghost aims at the player's new position while its
      counter is at most 5 and follows the wander draws above that; the
      counter is zero exactly when the ghost moved; the clock and the keys
      are untouched. */
  lemma FrameWhilePlaying(w: World, random1: real, random2: real, sqrt: real -> real)
    requires 0.0 <= random1 < 1.0 && 0.0 <= random2 < 1.0
    requires w.state == Playing && 0 <= w.stuckCounter
    ensures var r := AfterFrame(w, random1, random2, sqrt);
      var moved := r.ghostBox.x != w.ghostBox.x || r.ghostBox.y != w.ghostBox.y;
      (r.state == Lose <==> IsColliding(r.playerBox, r.ghostBox)) &&
      (r.state == Playing <==> !IsColliding(r.playerBox, r.ghostBox)) &&
      r.timeLeft == w.timeLeft && r.keys == w.keys &&
      (w.stuckCounter <= WanderAbove ==>
        r.ghostBox == Moved(w.ghostBox, GhostSpeed, false,
                            r.playerBox.x - w.ghostBox.x, r.playerBox.y - w.ghostBox.y,
                            Magnitude(sqrt, r.playerBox.x - w.ghostBox.x, r.playerBox.y - w.ghostBox.y),
                            Obstacles)) &&
      (WanderAbove < w.stuckCounter ==>
        r.ghostBox == Moved(w.ghostBox, GhostSpeed, false, random1 - 0.5, random2 - 0.5,
                            Magnitude(sqrt, random1 - 0.5, random2 - 0.5), Obstacles)) &&
      (r.stuckCounter == 0 <==> moved) &&
      (!moved ==> r.stuckCounter == CounterBeforeMove(w.stuckCounter) + 1)
  {
  }

  /** The transition table of the game state. A tick can only turn
      playing into win, a frame only playing into lose, a key press only
      R outside play into playing, a key release nothing; the end of the
      image load always leaves the game playing or, after its first frame,
      lost. Win and lose are left only through R or the image load. */
  lemma Transitions(w: World, e: Event, sqrt: real -> real)
    requires WellFormed(e)
    ensures var s := Step(w, e, sqrt).state;
      (e.TimerTick? ==> s == w.state || (w.state == Playing && s == Win)) &&
      (e.AnimationFrame? ==> s == w.state || (w.state == Playing && s == Lose)) &&
      (e.KeyDown? ==> s == w.state || (w.state != Playing && IsResetKey(e.key) && s == Playing)) &&
      (e.KeyUp? ==> s == w.state) &&
      (e.LoadComplete? ==> s == Playing || s == Lose) &&
      ((w.state == Win || w.state == Lose) && s != w.state ==>
        (e.KeyDown? && IsResetKey(e.key)) || e.LoadComplete?)
  {
  }

  /** An R pressed while the image is still loading already starts the
      game: the reset guard only excludes the playing state. */
  lemma ResetDuringLoadingStarts()
    ensures AfterKeyDown(Initial, "r").state == Playing
  {
  }

  /** A playing frame with only the right arrow held and the player at its
      spawn point: the player moves from (50, 50) to (55, 50), since nothing
      is in the way. */
  lemma PlayerFirstStepRight(w: World, random1: real, random2: real, sqrt: real -> real)
    requires IsSqrt(sqrt)
    requires 0.0 <= random1 < 1.0 && 0.0 <= random2 < 1.0
    requires w.state == Playing && w.playerBox == PlayerSpawn
    requires w.keys == Keys(false, false, false, true)
    ensures AfterFrame(w, random1, random2, sqrt).playerBox == Rect(55.0, 50.0, 40.0, 40.0)
  {
    UnitMoveVelocity(sqrt, PlayerSpeed);
    var shifted := Rect(55.0, 50.0, 40.0, 40.0);
    forall i | 0 <= i < |Obstacles|
      ensures !IsColliding(shifted, Obstacles[i])
    {
    }
  }
}
