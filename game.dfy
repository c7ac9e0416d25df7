/** The game object: the two actors, whose positions `moveCharacter`
    updates in place, the fixed obstacles, and the variables the callbacks
    mutate. Every callback is a method proved to leave the object in the
    snapshot the matching function of module Rules describes, and to keep
    the invariant. */
module Game {
  import opened Geometry
  import opened Movement
  import opened Chase
  import opened Rules

  /** A movable box: the player or the ghost. Only the position changes. */
  class Actor {
    var x: real
    var y: real
    const width: real
    const height: real
    const speed: real

    constructor (box: Rect, speed: real)
      ensures Box() == box && this.speed == speed
    {
      x, y := box.x, box.y;
      width, height := box.width, box.height;
      this.speed := speed;
    }

    function Box(): Rect
      reads this
    {
      Rect(x, y, width, height)
    }
  }

  class Game {
    const player: Actor
    const ghostActor: Actor
    const obstacles: seq<Rect>
    var gameState: GameState
    var timeLeft: int
    /** The ghost's stuck counter. */
    var stuckCounter: int
    var keys: Keys

    function Snapshot(): World
      reads this, player, ghostActor
    {
      World(gameState, timeLeft, player.Box(), ghostActor.Box(), stuckCounter, keys)
    }

    ghost predicate Valid()
      reads this, player, ghostActor
    {
      player != ghostActor &&
      player.speed == PlayerSpeed && ghostActor.speed == GhostSpeed &&
      obstacles == Obstacles &&
      Inv(Snapshot())
    }

    /** The module-level set-up: loading, both actors at their spawn
        points, no key held, 30 seconds on the clock. */
    constructor ()
      ensures Valid() && Snapshot() == Initial
      ensures fresh(player) && fresh(ghostActor)
    {
      player := new Actor(PlayerSpawn, PlayerSpeed);
      ghostActor := new Actor(GhostSpawn, GhostSpeed);
      obstacles := Obstacles;
      gameState := Loading;
      timeLeft := RoundSeconds;
      stuckCounter := 0;
      keys := NoKeys;
      new;
      InitialInv(Initial);
    }

    /** `moveCharacter`: the two rollback loops over the obstacles, then
        the clamp when the character is the player. */
    method MoveCharacter(character: Actor, moveX: real, moveY: real, sqrt: real -> real)
      modifies character
      ensures character.Box() ==
        Moved(old(character.Box()), character.speed, character == player, moveX, moveY,
              Magnitude(sqrt, moveX, moveY), obstacles)
    {
      var magnitude := sqrt(moveX * moveX + moveY * moveY);
      if magnitude == 0.0 {
        return;
      }
      var velX := moveX / magnitude * character.speed;
      var velY := moveY / magnitude * character.speed;
      var originalX, originalY := character.x, character.y;
      ghost var start := character.Box();
      assert velX == Velocity(moveX, Magnitude(sqrt, moveX, moveY), character.speed);
      assert velY == Velocity(moveY, Magnitude(sqrt, moveX, moveY), character.speed);

      character.x := character.x + velX;
      for i := 0 to |obstacles|
        invariant character.Box() == start.(x := originalX + velX)
        invariant forall j :: 0 <= j < i ==> !IsColliding(character.Box(), obstacles[j])
      {
        if IsColliding(character.Box(), obstacles[i]) {
          character.x := originalX;
          break;
        }
      }
      ghost var afterX := character.Box();
      assert afterX == XStep(start, velX, obstacles);

      character.y := character.y + velY;
      for i := 0 to |obstacles|
        invariant character.Box() == afterX.(y := originalY + velY)
        invariant forall j :: 0 <= j < i ==> !IsColliding(character.Box(), obstacles[j])
      {
        if IsColliding(character.Box(), obstacles[i]) {
          character.y := originalY;
          break;
        }
      }
      ghost var resolved := character.Box();
      assert resolved == Resolve(start, velX, velY, obstacles);

      if character == player {
        if player.x < 0.0 { player.x := 0.0; }
        if player.x + player.width > ArenaWidth { player.x := ArenaWidth - player.width; }
        if player.y < 0.0 { player.y := 0.0; }
        if player.y + player.height > ArenaHeight { player.y := ArenaHeight - player.height; }
        assert character.Box() == Clamp(resolved);
      }
    }

    /** The update block of `gameLoop`, run for every animation frame;
        `random1` and `random2` are the frame's `Math.random()` draws. */
    method GameLoop(random1: real, random2: real, sqrt: real -> real)
      requires Valid()
      requires 0.0 <= random1 < 1.0 && 0.0 <= random2 < 1.0
      modifies this, player, ghostActor
      ensures Valid()
      ensures Snapshot() == AfterFrame(old(Snapshot()), random1, random2, sqrt)
    {
      ghost var before := Snapshot();
      FramePreservesInv(before, random1, random2, sqrt);
      if gameState == Playing {
        var ghostOriginalX, ghostOriginalY := ghostActor.x, ghostActor.y;

        var playerMoveX, playerMoveY := 0.0, 0.0;
        if keys.left { playerMoveX := -1.0; }
        if keys.right { playerMoveX := 1.0; }
        if keys.up { playerMoveY := -1.0; }
        if keys.down { playerMoveY := 1.0; }
        assert (playerMoveX, playerMoveY) == Intent(keys);
        MoveCharacter(player, playerMoveX, playerMoveY, sqrt);

        var ghostMoveX := player.x - ghostActor.x;
        var ghostMoveY := player.y - ghostActor.y;
        if stuckCounter > WanderAbove {
          ghostMoveX := random1 - 0.5;
          ghostMoveY := random2 - 0.5;
          if stuckCounter > ResetAbove {
            stuckCounter := 0;
          }
        }
        assert (ghostMoveX, ghostMoveY) ==
          GhostDesire(player.Box(), before.ghostBox, before.stuckCounter, random1, random2);
        assert stuckCounter == CounterBeforeMove(before.stuckCounter);

        MoveCharacter(ghostActor, ghostMoveX, ghostMoveY, sqrt);

        if ghostActor.x == ghostOriginalX && ghostActor.y == ghostOriginalY {
          stuckCounter := stuckCounter + 1;
        } else {
          stuckCounter := 0;
        }

        if IsColliding(player.Box(), ghostActor.Box()) {
          gameState := Lose;
        }
      }
    }

    /** Body of the one-second timer started by `startTimer`. */
    method TimerTick()
      requires Valid()
      modifies this
      ensures Valid()
      ensures Snapshot() == AfterTick(old(Snapshot()))
    {
      if gameState == Playing {
        timeLeft := timeLeft - 1;
        if timeLeft <= 0 {
          gameState := Win;
        }
      }
    }

    /** `resetGame`, without the restart of the timer. */
    method ResetGame()
      requires Valid()
      modifies this, player, ghostActor
      ensures Valid()
      ensures Snapshot() == AfterReset(old(Snapshot()))
    {
      InitialInv(Snapshot());
      player.x, player.y := 50.0, 50.0;
      ghostActor.x, ghostActor.y := 700.0, 500.0;
      stuckCounter := 0;
      timeLeft := RoundSeconds;
      gameState := Playing;
    }

    /** The keydown listener: arrow keys set their flag; R outside play
        resets the game. */
    method KeyDown(key: string)
      requires Valid()
      modifies this, player, ghostActor
      ensures Valid()
      ensures Snapshot() == AfterKeyDown(old(Snapshot()), key)
    {
      keys := Press(keys, key, true);
      if gameState != Playing && IsResetKey(key) {
        ResetGame();
      }
    }

    /** The keyup listener: arrow keys clear their flag. */
    method KeyUp(key: string)
      requires Valid()
      modifies this
      ensures Valid()
      ensures Snapshot() == AfterKeyUp(old(Snapshot()), key)
    {
      keys := Press(keys, key, false);
    }

    /** `startGame`, run by both image callbacks: playing, then the first
        frame at once. The timer it starts is the source of TimerTick
        events. */
    method StartGame(random1: real, random2: real, sqrt: real -> real)
      requires Valid()
      requires 0.0 <= random1 < 1.0 && 0.0 <= random2 < 1.0
      modifies this, player, ghostActor
      ensures Valid()
      ensures Snapshot() == AfterStart(old(Snapshot()), random1, random2, sqrt)
    {
      gameState := Playing;
      GameLoop(random1, random2, sqrt);
    }

    /** Dispatches one event to its callback. */
    method Handle(e: Event, sqrt: real -> real)
      requires Valid() && WellFormed(e)
      modifies this, player, ghostActor
      ensures Valid()
      ensures Snapshot() == Step(old(Snapshot()), e, sqrt)
    {
      match e
      case KeyDown(key) => KeyDown(key);
      case KeyUp(key) => KeyUp(key);
      case TimerTick => TimerTick();
      case AnimationFrame(random1, random2) => GameLoop(random1, random2, sqrt);
      case LoadComplete(random1, random2) => StartGame(random1, random2, sqrt);
    }
  }
}
