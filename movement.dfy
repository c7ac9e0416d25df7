/** The movement resolver `moveCharacter`, as functions on boxes: normalise
    the desired vector and scale it by the actor's speed, try the X
    displacement and roll it back on any obstacle hit, do the same for Y,
    then clamp the player (and only the player) to the arena. The class
    method in module Game runs the same steps in place and is proved equal
    to Moved below. */
module Movement {
  import opened Geometry

  /** The canvas size, which is also the arena the player is clamped to. */
  const ArenaWidth: real := 800.0
  const ArenaHeight: real := 600.0

  /** The box lies inside the arena on all four sides. */
  predicate InArena(b: Rect)
  {
    0.0 <= b.x && b.x + b.width <= ArenaWidth &&
    0.0 <= b.y && b.y + b.height <= ArenaHeight
  }

  /** What the model assumes of the square root it is given in place of
      `Math.sqrt`: the root of 0 is 0, the root of 1 is 1 and the root of
      a positive number is positive. IEEE rounding is not modelled. */
  ghost predicate IsSqrt(sqrt: real -> real)
  {
    sqrt(0.0) == 0.0 && sqrt(1.0) == 1.0 && forall s :: 0.0 < s ==> 0.0 < sqrt(s)
  }

  /** Length of the desired vector (moveX, moveY). */
  function Magnitude(sqrt: real -> real, moveX: real, moveY: real): real
  {
    sqrt(moveX * moveX + moveY * moveY)
  }

  /** One velocity component: the desired component divided by the
      vector's length and scaled by the speed. */
  function Velocity(move: real, magnitude: real, speed: real): real
    requires magnitude != 0.0
  {
    move / magnitude * speed
  }

  /** The X step: the box shifted by velX, unless that box hits an
      obstacle, in which case x keeps its original value. */
  function XStep(box: Rect, velX: real, obstacles: seq<Rect>): Rect
  {
    var shifted := box.(x := box.x + velX);
    if HitsAny(shifted, obstacles) then box else shifted
  }

  /** The Y step, the same rule for the vertical axis. */
  function YStep(box: Rect, velY: real, obstacles: seq<Rect>): Rect
  {
    var shifted := box.(y := box.y + velY);
    if HitsAny(shifted, obstacles) then box else shifted
  }

  /** Both axis steps, X first; Y is tried whatever became of X. */
  function Resolve(box: Rect, velX: real, velY: real, obstacles: seq<Rect>): Rect
  {
    YStep(XStep(box, velX, obstacles), velY, obstacles)
  }

  /** The four clamp assignments, in the order the source runs them. */
  function Clamp(b: Rect): Rect
  {
    var x1 := if b.x < 0.0 then 0.0 else b.x;
    var x2 := if x1 + b.width > ArenaWidth then ArenaWidth - b.width else x1;
    var y1 := if b.y < 0.0 then 0.0 else b.y;
    var y2 := if y1 + b.height > ArenaHeight then ArenaHeight - b.height else y1;
    b.(x := x2, y := y2)
  }

  /** The box after `moveCharacter`: nothing happens for a zero-length
      vector; otherwise the two axis steps, then the clamp when the actor
      is the player. */
  function Moved(box: Rect, speed: real, clampToArena: bool, moveX: real, moveY: real,
                 magnitude: real, obstacles: seq<Rect>): Rect
  {
    if magnitude == 0.0 then box
    else
      var resolved := Resolve(box, Velocity(moveX, magnitude, speed),
                              Velocity(moveY, magnitude, speed), obstacles);
      if clampToArena then Clamp(resolved) else resolved
  }

  /** Every obstacle keeps a margin of at least the actor's size from the
      arena edges, so that a box pressed against an edge by the clamp
      cannot reach any obstacle. */
  predicate KeepsMargin(obstacles: seq<Rect>, width: real, height: real)
  {
    forall i :: 0 <= i < |obstacles| ==>
      width <= obstacles[i].x && obstacles[i].x + obstacles[i].width <= ArenaWidth - width &&
      height <= obstacles[i].y && obstacles[i].y + obstacles[i].height <= ArenaHeight - height
  }

  /** After the X step, x is either the original x plus velX with the box
      clear of every obstacle, or exactly the original x; it is rolled back
      only when the shifted box hits an obstacle. Y and the size never
      change. */
  lemma XStepOutcome(box: Rect, velX: real, obstacles: seq<Rect>)
    ensures var r := XStep(box, velX, obstacles);
      r.y == box.y && r.width == box.width && r.height == box.height &&
      ((r.x == box.x + velX && !HitsAny(r, obstacles)) || r.x == box.x) &&
      (r.x == box.x && velX != 0.0 ==> HitsAny(box.(x := box.x + velX), obstacles))
  {
  }

  /** The Y step mirrors the X step and never alters x. */
  lemma YStepOutcome(box: Rect, velY: real, obstacles: seq<Rect>)
    ensures var r := YStep(box, velY, obstacles);
      r.x == box.x && r.width == box.width && r.height == box.height &&
      ((r.y == box.y + velY && !HitsAny(r, obstacles)) || r.y == box.y) &&
      (r.y == box.y && velY != 0.0 ==> HitsAny(box.(y := box.y + velY), obstacles))
  {
  }

  /** The rollback keeps a box that overlapped no obstacle clear of all of
      them, and each axis ends at its old or its new coordinate. */
  lemma ResolveKeepsClear(box: Rect, velX: real, velY: real, obstacles: seq<Rect>)
    requires !HitsAny(box, obstacles)
    ensures var r := Resolve(box, velX, velY, obstacles);
      !HitsAny(r, obstacles) &&
      (r.x == box.x || r.x == box.x + velX) && (r.y == box.y || r.y == box.y + velY)
  {
    XStepOutcome(box, velX, obstacles);
    YStepOutcome(XStep(box, velX, obstacles), velY, obstacles);
  }

  /** The desired vector has length zero exactly when it is the zero
      vector, so the early return is taken for (0, 0) and for no other
      vector. */
  lemma MagnitudeZeroIff(sqrt: real -> real, moveX: real, moveY: real)
    requires IsSqrt(sqrt)
    ensures Magnitude(sqrt, moveX, moveY) == 0.0 <==> moveX == 0.0 && moveY == 0.0
  {
  }

  /** A zero desired vector leaves the box untouched: no displacement and
      no clamp either. */
  lemma ZeroMoveIsNoop(box: Rect, speed: real, clampToArena: bool, sqrt: real -> real,
                       obstacles: seq<Rect>)
    requires IsSqrt(sqrt)
    ensures Moved(box, speed, clampToArena, 0.0, 0.0, Magnitude(sqrt, 0.0, 0.0), obstacles) == box
  {
    MagnitudeZeroIff(sqrt, 0.0, 0.0);
  }

  /** The velocity points along the desired vector: the two are parallel
      and agree in sign on each axis. */
  lemma VelocityDirection(moveX: real, moveY: real, magnitude: real, speed: real)
    requires 0.0 < magnitude && 0.0 < speed
    ensures var vx, vy := Velocity(moveX, magnitude, speed), Velocity(moveY, magnitude, speed);
      vx * moveY == vy * moveX &&
      (0.0 < vx <==> 0.0 < moveX) && (vx < 0.0 <==> moveX < 0.0) &&
      (0.0 < vy <==> 0.0 < moveY) && (vy < 0.0 <==> moveY < 0.0)
  {
  }

  /** A single arrow key moves by exactly the speed along its axis: each of
      the four unit vectors has length 1, so the velocity is the speed (or
      its negation) along that axis and 0 across it. */
  lemma UnitMoveVelocity(sqrt: real -> real, speed: real)
    requires IsSqrt(sqrt)
    ensures Magnitude(sqrt, 1.0, 0.0) == 1.0 && Magnitude(sqrt, -1.0, 0.0) == 1.0
    ensures Magnitude(sqrt, 0.0, 1.0) == 1.0 && Magnitude(sqrt, 0.0, -1.0) == 1.0
    ensures Velocity(1.0, 1.0, speed) == speed && Velocity(-1.0, 1.0, speed) == -speed
    ensures Velocity(0.0, 1.0, speed) == 0.0
  {
  }

  /** The clamp puts any box no larger than the arena inside it, and leaves
      a box that is already inside exactly where it is. */
  lemma ClampInArena(b: Rect)
    requires b.width <= ArenaWidth && b.height <= ArenaHeight
    ensures InArena(Clamp(b))
    ensures Clamp(b).width == b.width && Clamp(b).height == b.height
    ensures InArena(b) ==> Clamp(b) == b
  {
  }

  /** With obstacles that keep their margin, clamping a clear box keeps it
      clear: a coordinate the clamp changes lies on an arena edge, where no
      obstacle reaches. */
  lemma ClampKeepsClear(b: Rect, obstacles: seq<Rect>)
    requires 0.0 <= b.width <= ArenaWidth && 0.0 <= b.height <= ArenaHeight
    requires KeepsMargin(obstacles, b.width, b.height)
    requires !HitsAny(b, obstacles)
    ensures !HitsAny(Clamp(b), obstacles)
  {
    var c := Clamp(b);
    forall i | 0 <= i < |obstacles|
      ensures !IsColliding(c, obstacles[i])
    {
      var o := obstacles[i];
      assert !IsColliding(b, o);
      if c.x != b.x {
        assert c.x == 0.0 || c.x == ArenaWidth - b.width;
      } else if c.y != b.y {
        assert c.y == 0.0 || c.y == ArenaHeight - b.height;
      } else {
        assert c == b;
      }
    }
  }

  /** Without the margin the clamp can push the player into an obstacle:
      a player at (1, 100) moving by (-3, 4) slides left past the arena
      edge clear of the obstacle, and the clamp then puts it back at x = 0,
      inside the obstacle. */
  lemma ClampCanEnterObstacle()
    ensures var start, obstacles := Rect(1.0, 100.0, 40.0, 40.0), [Rect(39.0, 141.0, 61.0, 59.0)];
      InArena(start) && !HitsAny(start, obstacles) &&
      HitsAny(Moved(start, 5.0, true, -3.0, 4.0, 5.0, obstacles), obstacles)
  {
    var start, obstacles := Rect(1.0, 100.0, 40.0, 40.0), [Rect(39.0, 141.0, 61.0, 59.0)];
    assert Velocity(-3.0, 5.0, 5.0) == -3.0 && Velocity(4.0, 5.0, 5.0) == 4.0;
    assert !HitsAny(Rect(-2.0, 100.0, 40.0, 40.0), obstacles);
    assert !HitsAny(Rect(-2.0, 104.0, 40.0, 40.0), obstacles);
    assert Moved(start, 5.0, true, -3.0, 4.0, 5.0, obstacles) == Rect(0.0, 104.0, 40.0, 40.0);
    assert IsColliding(Rect(0.0, 104.0, 40.0, 40.0), obstacles[0]);
  }

  /** A player move keeps the player inside the arena and, with obstacles
      that keep their margin, clear of every obstacle. */
  lemma PlayerMoveKeepsInvariant(box: Rect, speed: real, moveX: real, moveY: real,
                                 magnitude: real, obstacles: seq<Rect>)
    requires 0.0 <= box.width <= ArenaWidth && 0.0 <= box.height <= ArenaHeight
    requires KeepsMargin(obstacles, box.width, box.height)
    requires InArena(box) && !HitsAny(box, obstacles)
    ensures var r := Moved(box, speed, true, moveX, moveY, magnitude, obstacles);
      InArena(r) && !HitsAny(r, obstacles) && r.width == box.width && r.height == box.height
  {
    if magnitude != 0.0 {
      var resolved := Resolve(box, Velocity(moveX, magnitude, speed),
                              Velocity(moveY, magnitude, speed), obstacles);
      ResolveKeepsClear(box, Velocity(moveX, magnitude, speed),
                        Velocity(moveY, magnitude, speed), obstacles);
      XStepOutcome(box, Velocity(moveX, magnitude, speed), obstacles);
      YStepOutcome(XStep(box, Velocity(moveX, magnitude, speed), obstacles),
                   Velocity(moveY, magnitude, speed), obstacles);
      ClampInArena(resolved);
      ClampKeepsClear(resolved, obstacles);
    }
  }

  /** An unclamped move (the ghost's) keeps a clear box clear and keeps its
      size. */
  lemma GhostMoveKeepsClear(box: Rect, speed: real, moveX: real, moveY: real,
                            magnitude: real, obstacles: seq<Rect>)
    requires !HitsAny(box, obstacles)
    ensures var r := Moved(box, speed, false, moveX, moveY, magnitude, obstacles);
      !HitsAny(r, obstacles) && r.width == box.width && r.height == box.height
  {
    if magnitude != 0.0 {
      ResolveKeepsClear(box, Velocity(moveX, magnitude, speed),
                        Velocity(moveY, magnitude, speed), obstacles);
      XStepOutcome(box, Velocity(moveX, magnitude, speed), obstacles);
      YStepOutcome(XStep(box, Velocity(moveX, magnitude, speed), obstacles),
                   Velocity(moveY, magnitude, speed), obstacles);
    }
  }

  /** The ghost is not clamped: a 50x50 box at (748, 500) moving right at
      speed 3.6 ends past the right edge of the arena, where the same move
      with the clamp would have stopped it. */
  lemma GhostCanLeaveArena()
    ensures var start := Rect(748.0, 500.0, 50.0, 50.0);
      InArena(start) &&
      !InArena(Moved(start, 3.6, false, 1.0, 0.0, 1.0, [])) &&
      InArena(Moved(start, 3.6, true, 1.0, 0.0, 1.0, []))
  {
    var start := Rect(748.0, 500.0, 50.0, 50.0);
    assert !HitsAny(start.(x := 751.6), []);
    assert Moved(start, 3.6, false, 1.0, 0.0, 1.0, []) == start.(x := 751.6);
  }
}
