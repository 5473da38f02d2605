/** Integer rectangles (SDL_Rect) and the collision primitives that the player
    and the enemy share: the strict overlap test, SDL's intersection test and
    the minimum-overlap push-out against a platform.
    Screen coordinates: the origin is the top-left corner and y grows downward. */
module Geometry {

  /** An SDL_Rect: top-left corner, width and height. */
  datatype Rect = Rect(x: int, y: int, w: int, h: int)

  /** The pixel (px, py) lies in r: a rectangle covers the half-open ranges
      [x, x + w) and [y, y + h). */
  predicate Covers(r: Rect, px: int, py: int) {
    r.x <= px < r.x + r.w && r.y <= py < r.y + r.h
  }

  /** Reference meaning of "the rectangles intersect": some pixel lies in both. */
  ghost predicate SharePixel(a: Rect, b: Rect) {
    exists px, py :: Covers(a, px, py) && Covers(b, px, py)
  }

  /** SDL's empty-rectangle rule: no width or no height. */
  predicate IsEmpty(r: Rect) {
    r.w <= 0 || r.h <= 0
  }

  /** checkCollision of the player and of the enemy: both projections overlap
      with strict inequalities, so rectangles that only share an edge do not
      collide. No emptiness check is made. */
  predicate Overlaps(a: Rect, b: Rect)
    ensures Overlaps(a, b) <==> OverlapX(a, b) > 0 && OverlapY(a, b) > 0
  {
    a.x < b.x + b.w && a.x + a.w > b.x && a.y < b.y + b.h && a.y + a.h > b.y
  }

  /** SDL_HasIntersection, abstracted: false when either rectangle is empty,
      otherwise the strict overlap test. */
  predicate HasIntersection(a: Rect, b: Rect)
    ensures IsEmpty(a) || IsEmpty(b) ==> !HasIntersection(a, b)
    ensures HasIntersection(a, b) ==> Overlaps(a, b) && OverlapX(a, b) > 0 && OverlapY(a, b) > 0
  {
    !IsEmpty(a) && !IsEmpty(b) && Overlaps(a, b)
  }

  lemma OverlapsSymmetric(a: Rect, b: Rect)
    ensures Overlaps(a, b) == Overlaps(b, a)
  {
  }

  /** Two rectangles that meet along an edge do not collide. */
  lemma TouchingDoesNotOverlap(a: Rect, b: Rect)
    requires a.x + a.w == b.x || b.x + b.w == a.x || a.y + a.h == b.y || b.y + b.h == a.y
    ensures !Overlaps(a, b)
  {
  }

  /** For non-empty rectangles the strict overlap test is exactly "they have a
      pixel in common". */
  lemma OverlapsIffSharePixel(a: Rect, b: Rect)
    requires !IsEmpty(a) && !IsEmpty(b)
    ensures Overlaps(a, b) <==> SharePixel(a, b)
  {
    if Overlaps(a, b) {
      var px := if a.x < b.x then b.x else a.x;
      var py := if a.y < b.y then b.y else a.y;
      assert Covers(a, px, py) && Covers(b, px, py);
    }
  }

  /** SDL_HasIntersection is exactly "some pixel lies in both", empty
      rectangles included. */
  lemma HasIntersectionIffSharePixel(a: Rect, b: Rect)
    ensures HasIntersection(a, b) <==> SharePixel(a, b)
  {
    if !IsEmpty(a) && !IsEmpty(b) {
      OverlapsIffSharePixel(a, b);
    }
  }

  /** checkCollision and SDL_HasIntersection differ on empty rectangles: a
      zero-size rectangle strictly inside another one "collides" with it. */
  lemma EmptyRectangleCanOverlap()
    ensures Overlaps(Rect(5, 5, 0, 0), Rect(0, 0, 10, 10))
    ensures !HasIntersection(Rect(5, 5, 0, 0), Rect(0, 0, 10, 10))
  {
  }

  function Min(a: int, b: int): int {
    if a < b then a else b
  }

  /** overlapX of resolveCollision: how far a reaches into b along x, from
      whichever side is shorter. Positive exactly when the x-projections
      overlap strictly. */
  function OverlapX(a: Rect, b: Rect): (d: int)
    ensures d > 0 <==> a.x < b.x + b.w && a.x + a.w > b.x
  {
    Min(a.x + a.w - b.x, b.x + b.w - a.x)
  }

  /** overlapY of resolveCollision, the same measure along y. */
  function OverlapY(a: Rect, b: Rect): (d: int)
    ensures d > 0 <==> a.y < b.y + b.h && a.y + a.h > b.y
  {
    Min(a.y + a.h - b.y, b.y + b.h - a.y)
  }

  /** The push-out is horizontal when the x-overlap is strictly the smaller
      one; ties resolve vertically. */
  predicate PushesHorizontally(a: Rect, b: Rect) {
    OverlapX(a, b) < OverlapY(a, b)
  }

  /** New x of the body after a horizontal push-out: against b's left edge
      when the body's left edge is left of b's, else against b's right edge.
      The pushed body touches b and does not overlap it. */
  function PushedX(a: Rect, b: Rect): (x: int)
    ensures x + a.w == b.x || x == b.x + b.w
    ensures !Overlaps(a.(x := x), b)
  {
    if a.x < b.x then b.x - a.w else b.x + b.w
  }

  /** New y of the body after a vertical push-out: on top of b when the
      body's top is above b's top, else just below b. The pushed body touches
      b and does not overlap it. */
  function PushedY(a: Rect, b: Rect): (y: int)
    ensures y + a.h == b.y || y == b.y + b.h
    ensures !Overlaps(a.(y := y), b)
  {
    if a.y < b.y then b.y - a.h else b.y + b.h
  }
}
