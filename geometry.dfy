/**
 * Rectangles, the Renderable accessors and the strict axis-aligned overlap test
 * shared by the overworld state and the resource renderer.
 */
module Geometry {
  /** SDL_FRect: floating-point rectangle (coordinates modelled as reals). */
  datatype FRect = FRect(x: real, y: real, w: real, h: real)

  /** SDL_Rect: integer rectangle (source rectangles inside a tileset image). */
  datatype IRect = IRect(x: int, y: int, w: int, h: int)

  /** Renderable::originX: the horizontal centre of the destination rectangle. */
  function OriginX(dest: FRect): real { dest.x + dest.w / 2.0 }

  /** Renderable::originY: the vertical centre of the destination rectangle. */
  function OriginY(dest: FRect): real { dest.y + dest.h / 2.0 }

  /** The origin is the centre: equally far from both edges, and inside the box when the size is not negative. */
  lemma OriginIsCentre(dest: FRect)
    ensures OriginX(dest) - dest.x == (dest.x + dest.w) - OriginX(dest)
    ensures OriginY(dest) - dest.y == (dest.y + dest.h) - OriginY(dest)
    ensures dest.w >= 0.0 ==> dest.x <= OriginX(dest) <= dest.x + dest.w
    ensures dest.h >= 0.0 ==> dest.y <= OriginY(dest) <= dest.y + dest.h
  {
  }

  /**
   * CollisionCheckF: false as soon as one box lies entirely above, below, left or
   * right of the other (touching counts as apart), true otherwise.
   */
  function CollisionCheckF(a: FRect, b: FRect): bool
  {
    var left1, right1, top1, bottom1 := a.x, a.x + a.w, a.y, a.y + a.h;
    var left2, right2, top2, bottom2 := b.x, b.x + b.w, b.y, b.y + b.h;
    if bottom1 <= top2 then false
    else if top1 >= bottom2 then false
    else if right1 <= left2 then false
    else if left1 >= right2 then false
    else true
  }

  /** A point strictly inside a rectangle (edges excluded). */
  ghost predicate StrictlyInside(px: real, py: real, r: FRect)
  {
    r.x < px < r.x + r.w && r.y < py < r.y + r.h
  }

  /** Reference meaning of a collision: some point lies strictly inside both boxes. */
  ghost predicate ShareInteriorPoint(a: FRect, b: FRect)
  {
    exists px: real, py: real {:trigger StrictlyInside(px, py, a)} ::
      StrictlyInside(px, py, a) && StrictlyInside(px, py, b)
  }

  /** A shared interior point always makes the test report a collision, whatever the sizes. */
  lemma SharedPointCollides(a: FRect, b: FRect, px: real, py: real)
    requires StrictlyInside(px, py, a) && StrictlyInside(px, py, b)
    ensures CollisionCheckF(a, b)
  {
  }

  /** For boxes of positive size the test is exactly "the interiors intersect". */
  lemma CollisionIffSharedPoint(a: FRect, b: FRect)
    requires a.w > 0.0 && a.h > 0.0 && b.w > 0.0 && b.h > 0.0
    ensures CollisionCheckF(a, b) <==> ShareInteriorPoint(a, b)
  {
    if CollisionCheckF(a, b) {
      var lo := if a.x < b.x then b.x else a.x;
      var hi := if a.x + a.w < b.x + b.w then a.x + a.w else b.x + b.w;
      var top := if a.y < b.y then b.y else a.y;
      var bottom := if a.y + a.h < b.y + b.h then a.y + a.h else b.y + b.h;
      var px, py := (lo + hi) / 2.0, (top + bottom) / 2.0;
      assert StrictlyInside(px, py, a) && StrictlyInside(px, py, b);
    }
    if ShareInteriorPoint(a, b) {
      var px: real, py: real :| StrictlyInside(px, py, a) && StrictlyInside(px, py, b);
      SharedPointCollides(a, b, px, py);
    }
  }

  /** Boxes that only share a vertical or horizontal edge do not collide. */
  lemma TouchingEdgesDoNotCollide(a: FRect, b: FRect)
    requires a.x + a.w == b.x || b.x + b.w == a.x || a.y + a.h == b.y || b.y + b.h == a.y
    ensures !CollisionCheckF(a, b)
  {
  }

  /** The test does not depend on the order of its arguments. */
  lemma CollisionSymmetric(a: FRect, b: FRect)
    ensures CollisionCheckF(a, b) == CollisionCheckF(b, a)
  {
  }

  /** A zero-width box still collides with a box that straddles its edge: the test is not "interiors meet" then. */
  lemma ZeroWidthBoxCollides()
    ensures CollisionCheckF(FRect(5.0, 0.0, 0.0, 10.0), FRect(0.0, 0.0, 10.0, 10.0))
    ensures !ShareInteriorPoint(FRect(5.0, 0.0, 0.0, 10.0), FRect(0.0, 0.0, 10.0, 10.0))
  {
  }
}
