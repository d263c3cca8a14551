/**
 * The collision manager: a strict axis-aligned overlap test and the
 * intersection rectangle of two overlapping boxes.
 */
module Collision {
  import opened Types

  /** True when the two boxes share interior area; touching edges do not count. */
  function CheckCollision(a: Rectangle, b: Rectangle): (hit: bool)
    ensures hit ==> a.x < b.Right() && b.x < a.Right()
    ensures hit ==> a.y < b.Bottom() && b.y < a.Bottom()
    ensures hit ==> a.width > 0.0 || b.width > 0.0
    ensures hit ==> a.height > 0.0 || b.height > 0.0
  {
    a.x < b.x + b.width &&
    a.x + a.width > b.x &&
    a.y < b.y + b.height &&
    a.y + a.height > b.y
  }

  /** `inner` lies within `outer` (edges may coincide). */
  predicate Within(inner: Rectangle, outer: Rectangle)
  {
    outer.x <= inner.x && inner.Right() <= outer.Right() &&
    outer.y <= inner.y && inner.Bottom() <= outer.Bottom()
  }

  /** The intersection of two boxes, or None exactly when they do not collide. */
  function GetOverlap(a: Rectangle, b: Rectangle): (r: Option<Rectangle>)
    ensures r.None? <==> !CheckCollision(a, b)
    ensures r.Some? ==> Within(r.value, a) && Within(r.value, b)
    ensures r.Some? && a.width > 0.0 && a.height > 0.0 && b.width > 0.0 && b.height > 0.0 ==>
              r.value.width > 0.0 && r.value.height > 0.0
  {
    if !CheckCollision(a, b) then None
    else
      var left := Max(a.x, b.x);
      var right := Min(a.x + a.width, b.x + b.width);
      var top := Max(a.y, b.y);
      var bottom := Min(a.y + a.height, b.y + b.height);
      Some(Rectangle(left, top, right - left, bottom - top))
  }

  lemma CollisionSymmetric(a: Rectangle, b: Rectangle)
    ensures CheckCollision(a, b) == CheckCollision(b, a)
  {
  }

  /** Boxes that meet only along a vertical or a horizontal edge do not collide. */
  lemma SharedEdgeIsNoCollision(a: Rectangle, b: Rectangle)
    requires a.Right() == b.x || b.Right() == a.x || a.Bottom() == b.y || b.Bottom() == a.y
    ensures !CheckCollision(a, b)
  {
  }

  /** A box collides with itself exactly when it has positive width and height. */
  lemma SelfCollision(r: Rectangle)
    ensures CheckCollision(r, r) <==> r.width > 0.0 && r.height > 0.0
  {
  }

  /**
   * A zero-size box (such as a digger's underground bounds) collides with `r`
   * exactly when its corner lies strictly inside `r`.
   */
  lemma PointCollision(px: real, py: real, r: Rectangle)
    ensures CheckCollision(Rectangle(px, py, 0.0, 0.0), r) <==>
            r.x < px < r.Right() && r.y < py < r.Bottom()
  {
  }

  lemma OverlapSymmetric(a: Rectangle, b: Rectangle)
    ensures GetOverlap(a, b) == GetOverlap(b, a)
  {
  }
}
