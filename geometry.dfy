/** Axis-aligned rectangles and the strict overlap test shared by every
    collision check of the game. */
module Geometry {

  /** An axis-aligned box: top-left corner (x, y), then its extent. */
  datatype Rect = Rect(x: real, y: real, width: real, height: real)

  /** The overlap test `isColliding`: the projections of the two boxes
      overlap strictly on both axes, so boxes that only share an edge do
      not collide. */
  predicate IsColliding(a: Rect, b: Rect)
  {
    a.x < b.x + b.width &&
    a.x + a.width > b.x &&
    a.y < b.y + b.height &&
    a.y + a.height > b.y
  }

  /** The point (px, py) lies in the open interior of r. */
  ghost predicate Inside(r: Rect, px: real, py: real)
  {
    r.x < px < r.x + r.width && r.y < py < r.y + r.height
  }

  function Max(a: real, b: real): real { if a < b then b else a }
  function Min(a: real, b: real): real { if a < b then a else b }

  /** Reference meaning of the test: two boxes of positive size collide
      exactly when some point lies inside both of them. */
  lemma CollidingIffSharedInteriorPoint(a: Rect, b: Rect)
    requires a.width > 0.0 && a.height > 0.0 && b.width > 0.0 && b.height > 0.0
    ensures IsColliding(a, b) <==> exists px, py :: Inside(a, px, py) && Inside(b, px, py)
  {
    if IsColliding(a, b) {
      var px := (Max(a.x, b.x) + Min(a.x + a.width, b.x + b.width)) / 2.0;
      var py := (Max(a.y, b.y) + Min(a.y + a.height, b.y + b.height)) / 2.0;
      assert Inside(a, px, py) && Inside(b, px, py);
    }
  }

  /** Boxes that touch along an edge, on either axis and from either
      side, do not collide. */
  lemma TouchingEdgesDoNotCollide(a: Rect, b: Rect)
    requires a.x + a.width == b.x || b.x + b.width == a.x ||
             a.y + a.height == b.y || b.y + b.height == a.y
    ensures !IsColliding(a, b) && !IsColliding(b, a)
  {
  }

  /** The box collides with at least one of the obstacles (the outcome of
      one pass of the obstacle loop). */
  predicate HitsAny(box: Rect, obstacles: seq<Rect>)
  {
    exists i :: 0 <= i < |obstacles| && IsColliding(box, obstacles[i])
  }
}
