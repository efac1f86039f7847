/** The value types of System.Drawing that every component works with: an integer point
    and an integer rectangle with its derived edges, emptiness test, strict overlap test
    and intersection. Coordinates are unbounded integers: the pixel values the widgets
    handle stay far from the 32-bit limits, so wrap-around is not modelled. */
module Drawing {

  datatype Point = Point(x: int, y: int)

  datatype Rect = Rect(x: int, y: int, width: int, height: int)
  {
    /** Rectangle.Right */
    function Right(): int { x + width }

    /** Rectangle.Bottom */
    function Bottom(): int { y + height }

    /** Rectangle.IsEmpty: all four fields are zero; a zero-width rectangle placed away
        from the origin is not empty. */
    predicate IsEmpty() { x == 0 && y == 0 && width == 0 && height == 0 }

    /** Rectangle.IntersectsWith: the interiors overlap; rectangles that only touch
        along an edge do not intersect. */
    predicate IntersectsWith(other: Rect)
    {
      other.x < Right() && x < other.Right() && other.y < Bottom() && y < other.Bottom()
    }
  }

  /** Rectangle.Empty */
  const Empty := Rect(0, 0, 0, 0)

  function Min(a: int, b: int): int { if a <= b then a else b }

  function Max(a: int, b: int): int { if a >= b then a else b }

  function Abs(a: int): int { if a >= 0 then a else -a }

  /** `inner` lies inside `outer` (edges may coincide). */
  predicate Within(inner: Rect, outer: Rect)
  {
    outer.x <= inner.x && inner.Right() <= outer.Right() &&
    outer.y <= inner.y && inner.Bottom() <= outer.Bottom()
  }

  /** `r` in the coordinates of `origin`'s top-left corner: the crop-relative highlight of
      the viewer and the slice-local removals of the partial trim selector. */
  function RelativeTo(origin: Rect, r: Rect): (l: Rect)
    ensures l.width == r.width && l.height == r.height
    ensures l.x + origin.x == r.x && l.y + origin.y == r.y
  {
    Rect(r.x - origin.x, r.y - origin.y, r.width, r.height)
  }

  lemma EmptyIsOnlyEmpty(r: Rect)
    ensures r.IsEmpty() <==> r == Empty
  {
  }

  /** Rectangle.Intersect: the max/min box of the two rectangles when they overlap or
      touch (touching gives a zero width or height), and Rectangle.Empty otherwise. */
  function Intersect(a: Rect, b: Rect): (r: Rect)
    ensures r.width >= 0 && r.height >= 0
    ensures r == Empty || (Within(r, a) && Within(r, b))
    ensures a.IntersectsWith(b) && a.width > 0 && a.height > 0 && b.width > 0 && b.height > 0 ==>
              r.width > 0 && r.height > 0
    ensures !a.IntersectsWith(b) ==> r.width == 0 || r.height == 0
  {
    var x1 := Max(a.x, b.x);
    var x2 := Min(a.Right(), b.Right());
    var y1 := Max(a.y, b.y);
    var y2 := Min(a.Bottom(), b.Bottom());
    if x2 >= x1 && y2 >= y1 then Rect(x1, y1, x2 - x1, y2 - y1) else Empty
  }

  /** The intersection is the largest box inside both rectangles. */
  lemma IntersectIsLargest(a: Rect, b: Rect, c: Rect)
    requires c.width >= 0 && c.height >= 0
    requires Within(c, a) && Within(c, b)
    ensures Within(c, Intersect(a, b))
  {
    var x1, x2 := Max(a.x, b.x), Min(a.Right(), b.Right());
    var y1, y2 := Max(a.y, b.y), Min(a.Bottom(), b.Bottom());
    assert x1 <= c.x <= c.Right() <= x2;
    assert y1 <= c.y <= c.Bottom() <= y2;
    assert Intersect(a, b) == Rect(x1, y1, x2 - x1, y2 - y1);
  }

  lemma IntersectCommutes(a: Rect, b: Rect)
    ensures Intersect(a, b) == Intersect(b, a)
  {
    assert Max(a.x, b.x) == Max(b.x, a.x) && Max(a.y, b.y) == Max(b.y, a.y);
    assert Min(a.Right(), b.Right()) == Min(b.Right(), a.Right());
    assert Min(a.Bottom(), b.Bottom()) == Min(b.Bottom(), a.Bottom());
  }
}
