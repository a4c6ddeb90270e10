/** Integer rectangles and the rectangle-intersection test used for collisions.
    Positions in the rest of the model are kept in tenths of a pixel; a collision
    rectangle is built in whole pixels, the way pygame.Rect truncates. */
module Geometry {

  /** Sub-pixel resolution of every position, speed and size in the model. */
  const Scale: int := 10

  /** Whole pixels of a value kept in tenths, truncated toward zero (Python's int()). */
  function Trunc(v: int): (r: int)
    ensures v >= 0 ==> 0 <= Scale * r <= v < Scale * r + Scale
    ensures v < 0 ==> Scale * r - Scale < v <= Scale * r <= 0
  {
    if v >= 0 then v / Scale else -((-v) / Scale)
  }

  /** A rectangle with its top-left corner at (x, y) and signed size w by h, in pixels. */
  datatype Rect = Rect(x: int, y: int, w: int, h: int)

  function Left(r: Rect): int { if r.w < 0 then r.x + r.w else r.x }
  function Right(r: Rect): int { if r.w < 0 then r.x else r.x + r.w }
  function Top(r: Rect): int { if r.h < 0 then r.y + r.h else r.y }
  function Bottom(r: Rect): int { if r.h < 0 then r.y else r.y + r.h }

  /** Rect.colliderect: a rectangle of zero width or height meets nothing; otherwise
      the two rectangles must overlap strictly on both axes, so shared edges do not count. */
  predicate Colliderect(a: Rect, b: Rect)
  {
    a.w != 0 && a.h != 0 && b.w != 0 && b.h != 0 &&
    Left(a) < Right(b) && Top(a) < Bottom(b) && Right(a) > Left(b) && Bottom(a) > Top(b)
  }

  /** The pixel whose top-left corner is (px, py) lies inside r. */
  predicate Covers(r: Rect, px: int, py: int)
  {
    Left(r) <= px < Right(r) && Top(r) <= py < Bottom(r)
  }

  /** Two rectangles collide exactly when some pixel lies in both, that is, when
      their intersection has positive area. */
  lemma ColliderectIffSharedPixel(a: Rect, b: Rect)
    ensures Colliderect(a, b) <==> exists px, py :: Covers(a, px, py) && Covers(b, px, py)
  {
    if Colliderect(a, b) {
      var px := if Left(a) < Left(b) then Left(b) else Left(a);
      var py := if Top(a) < Top(b) then Top(b) else Top(a);
      assert Covers(a, px, py) && Covers(b, px, py);
    }
    if exists px, py :: Covers(a, px, py) && Covers(b, px, py) {
      var px, py :| Covers(a, px, py) && Covers(b, px, py);
      assert Left(a) < Right(a) && Left(b) < Right(b);
      assert Top(a) < Bottom(a) && Top(b) < Bottom(b);
    }
  }

  /** Which rectangle asks does not matter. */
  lemma ColliderectSymmetric(a: Rect, b: Rect)
    ensures Colliderect(a, b) <==> Colliderect(b, a)
  {
  }

  /** Rectangles that only share an edge, on either axis, do not collide. */
  lemma EdgeContactIsNoCollision(a: Rect, b: Rect)
    requires Right(a) == Left(b) || Right(b) == Left(a) || Bottom(a) == Top(b) || Bottom(b) == Top(a)
    ensures !Colliderect(a, b)
  {
  }
}
