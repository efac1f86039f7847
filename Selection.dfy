/** Selection logic that the selector components share, each with its own copy in the
    source: the two-point rectangle normalisation, the keyboard adjustment modes, the
    one-pixel nudges of a rectangle (MultiRegion, HighlightRegions, TwoRegion) and the
    one-pixel nudges of a start/end point pair (PartialTrim, ImageRegion, SingleRegion). */
module Selection {
  import opened Drawing

  /** EnumAdjustmentMode, declared privately by every selector. */
  datatype AdjustmentMode = Move | Resize | AdjustEdges

  /** The keys the keyboard listener reports (EnumKey); `OtherKey` stands for the rest. */
  datatype Key =
    | Up | Down | Left | Right | PageUp | PageDown
    | F1 | F2 | F3 | F4 | F5 | F6 | F7 | F8 | F9 | F10 | F11 | F12
    | OtherKey

  /** The rectangle spanned by two clicked points: its corner is the component-wise
      minimum and its size the absolute differences. */
  function SelectionRectangle(p1: Point, p2: Point): (r: Rect)
    ensures r.width >= 0 && r.height >= 0
    ensures (r.x == p1.x && r.Right() == p2.x) || (r.x == p2.x && r.Right() == p1.x)
    ensures (r.y == p1.y && r.Bottom() == p2.y) || (r.y == p2.y && r.Bottom() == p1.y)
  {
    Rect(Min(p1.x, p2.x), Min(p1.y, p2.y), Abs(p1.x - p2.x), Abs(p1.y - p2.y))
  }

  /** The order of the two clicks does not matter. */
  lemma SelectionSymmetric(p1: Point, p2: Point)
    ensures SelectionRectangle(p1, p2) == SelectionRectangle(p2, p1)
  {
  }

  /** Seeding the two points from a rectangle's top-left and bottom-right corners gives
      that rectangle back whenever its width and height are not negative. */
  lemma SelectionOfCorners(r: Rect)
    requires r.width >= 0 && r.height >= 0
    ensures SelectionRectangle(Point(r.x, r.y), Point(r.Right(), r.Bottom())) == r
  {
  }

  /** Shifting both points by the same amount shifts the selection and keeps its size. */
  lemma SelectionTranslates(p1: Point, p2: Point, dx: int, dy: int)
    ensures var s := SelectionRectangle(p1, p2);
            SelectionRectangle(Point(p1.x + dx, p1.y + dy), Point(p2.x + dx, p2.y + dy))
              == Rect(s.x + dx, s.y + dy, s.width, s.height)
  {
  }

  // ---------------------------------------------------------------------------------
  // One-pixel nudges of a rectangle (the arrow handlers of MultiRegion, HighlightRegions
  // and TwoRegion). Left and Up shrink under Resize and AdjustEdges, never below 1.

  function NudgeLeft(r: Rect, mode: AdjustmentMode): (n: Rect)
    ensures n.y == r.y && n.height == r.height
    ensures mode == Move ==> n.width == r.width && n.Right() == r.Right() - 1
    ensures mode == Resize ==> n.x == r.x && n.width == Max(1, r.width - 1)
    ensures mode == AdjustEdges ==> n.x == r.x + 1 && n.width == Max(1, r.width - 1)
    ensures mode != Move ==> n.width >= 1
    ensures mode == AdjustEdges && r.width >= 2 ==> n.Right() == r.Right()
  {
    match mode
    case Move => r.(x := r.x - 1)
    case Resize => r.(width := Max(1, r.width - 1))
    case AdjustEdges => r.(x := r.x + 1, width := Max(1, r.width - 1))
  }

  function NudgeRight(r: Rect, mode: AdjustmentMode): (n: Rect)
    ensures n.y == r.y && n.height == r.height
    ensures mode == Move ==> n.width == r.width && n.x == r.x + 1
    ensures mode == Resize ==> n.x == r.x && n.Right() == r.Right() + 1
    ensures mode == AdjustEdges ==> n.Right() == r.Right() && n.x == r.x - 1
  {
    match mode
    case Move => r.(x := r.x + 1)
    case Resize => r.(width := r.width + 1)
    case AdjustEdges => r.(x := r.x - 1, width := r.width + 1)
  }

  function NudgeUp(r: Rect, mode: AdjustmentMode): (n: Rect)
    ensures n.x == r.x && n.width == r.width
    ensures mode == Move ==> n.height == r.height && n.Bottom() == r.Bottom() - 1
    ensures mode == Resize ==> n.y == r.y && n.height == Max(1, r.height - 1)
    ensures mode == AdjustEdges ==> n.y == r.y + 1 && n.height == Max(1, r.height - 1)
    ensures mode != Move ==> n.height >= 1
    ensures mode == AdjustEdges && r.height >= 2 ==> n.Bottom() == r.Bottom()
  {
    match mode
    case Move => r.(y := r.y - 1)
    case Resize => r.(height := Max(1, r.height - 1))
    case AdjustEdges => r.(y := r.y + 1, height := Max(1, r.height - 1))
  }

  function NudgeDown(r: Rect, mode: AdjustmentMode): (n: Rect)
    ensures n.x == r.x && n.width == r.width
    ensures mode == Move ==> n.height == r.height && n.y == r.y + 1
    ensures mode == Resize ==> n.y == r.y && n.Bottom() == r.Bottom() + 1
    ensures mode == AdjustEdges ==> n.Bottom() == r.Bottom() && n.y == r.y - 1
  {
    match mode
    case Move => r.(y := r.y + 1)
    case Resize => r.(height := r.height + 1)
    case AdjustEdges => r.(y := r.y - 1, height := r.height + 1)
  }

  /** Right undoes Left and Left undoes Right, in every mode, as long as the shrinking
      step does not hit the floor of 1. */
  lemma NudgeHorizontalInverse(r: Rect, mode: AdjustmentMode)
    ensures r.width >= 1 ==> NudgeLeft(NudgeRight(r, mode), mode) == r
    ensures r.width >= 2 || mode == Move ==> NudgeRight(NudgeLeft(r, mode), mode) == r
  {
  }

  lemma NudgeVerticalInverse(r: Rect, mode: AdjustmentMode)
    ensures r.height >= 1 ==> NudgeUp(NudgeDown(r, mode), mode) == r
    ensures r.height >= 2 || mode == Move ==> NudgeDown(NudgeUp(r, mode), mode) == r
  {
  }

  // ---------------------------------------------------------------------------------
  // One-pixel nudges of a start/end point pair (the arrow handlers of PartialTrim,
  // ImageRegion and SingleRegion). Move shifts both points, Resize only the end point,
  // AdjustEdges the point with the smaller coordinate on the pressed axis (or, on a
  // tie, the end point).

  datatype Corners = Corners(start: Point, end: Point)
  {
    function Selection(): Rect { SelectionRectangle(start, end) }
  }

  /** The points seeded from an initial rectangle: its top-left and bottom-right corners.
      Their selection is the rectangle again when its size is not negative. */
  function CornersOf(r: Rect): (c: Corners)
    ensures c.start == Point(r.x, r.y) && c.end == Point(r.Right(), r.Bottom())
    ensures r.width >= 0 && r.height >= 0 ==> c.Selection() == r
  {
    Corners(Point(r.x, r.y), Point(r.x + r.width, r.y + r.height))
  }

  function PointsLeft(c: Corners, mode: AdjustmentMode): (n: Corners)
    ensures n.start.y == c.start.y && n.end.y == c.end.y
    ensures mode == Move ==>
              n.Selection() == c.Selection().(x := c.Selection().x - 1)
    ensures mode == Resize ==> n.start == c.start && n.end.x == c.end.x - 1
    ensures mode == AdjustEdges ==>
              (n.start == c.start || n.end == c.end) &&
              (c.Selection().width > 0 ==> n.Selection() == c.Selection().(x := c.Selection().x + 1, width := c.Selection().width - 1)) &&
              (c.Selection().width == 0 ==> n.Selection() == c.Selection().(width := 1))
  {
    match mode
    case Move => Corners(Point(c.start.x - 1, c.start.y), Point(c.end.x - 1, c.end.y))
    case Resize => c.(end := Point(c.end.x - 1, c.end.y))
    case AdjustEdges =>
      if c.start.x < c.end.x then c.(start := Point(c.start.x + 1, c.start.y))
      else c.(end := Point(c.end.x + 1, c.end.y))
  }

  function PointsRight(c: Corners, mode: AdjustmentMode): (n: Corners)
    ensures n.start.y == c.start.y && n.end.y == c.end.y
    ensures mode == Move ==>
              n.Selection() == c.Selection().(x := c.Selection().x + 1)
    ensures mode == Resize ==> n.start == c.start && n.end.x == c.end.x + 1
    ensures mode == AdjustEdges ==>
              (n.start == c.start || n.end == c.end) &&
              n.Selection() == c.Selection().(x := c.Selection().x - 1, width := c.Selection().width + 1)
  {
    match mode
    case Move => Corners(Point(c.start.x + 1, c.start.y), Point(c.end.x + 1, c.end.y))
    case Resize => c.(end := Point(c.end.x + 1, c.end.y))
    case AdjustEdges =>
      if c.start.x < c.end.x then c.(start := Point(c.start.x - 1, c.start.y))
      else c.(end := Point(c.end.x - 1, c.end.y))
  }

  function PointsUp(c: Corners, mode: AdjustmentMode): (n: Corners)
    ensures n.start.x == c.start.x && n.end.x == c.end.x
    ensures mode == Move ==>
              n.Selection() == c.Selection().(y := c.Selection().y - 1)
    ensures mode == Resize ==> n.start == c.start && n.end.y == c.end.y - 1
    ensures mode == AdjustEdges ==>
              (n.start == c.start || n.end == c.end) &&
              (c.Selection().height > 0 ==> n.Selection() == c.Selection().(y := c.Selection().y + 1, height := c.Selection().height - 1)) &&
              (c.Selection().height == 0 ==> n.Selection() == c.Selection().(height := 1))
  {
    match mode
    case Move => Corners(Point(c.start.x, c.start.y - 1), Point(c.end.x, c.end.y - 1))
    case Resize => c.(end := Point(c.end.x, c.end.y - 1))
    case AdjustEdges =>
      if c.start.y < c.end.y then c.(start := Point(c.start.x, c.start.y + 1))
      else c.(end := Point(c.end.x, c.end.y + 1))
  }

  function PointsDown(c: Corners, mode: AdjustmentMode): (n: Corners)
    ensures n.start.x == c.start.x && n.end.x == c.end.x
    ensures mode == Move ==>
              n.Selection() == c.Selection().(y := c.Selection().y + 1)
    ensures mode == Resize ==> n.start == c.start && n.end.y == c.end.y + 1
    ensures mode == AdjustEdges ==>
              (n.start == c.start || n.end == c.end) &&
              n.Selection() == c.Selection().(y := c.Selection().y - 1, height := c.Selection().height + 1)
  {
    match mode
    case Move => Corners(Point(c.start.x, c.start.y + 1), Point(c.end.x, c.end.y + 1))
    case Resize => c.(end := Point(c.end.x, c.end.y + 1))
    case AdjustEdges =>
      if c.start.y < c.end.y then c.(start := Point(c.start.x, c.start.y - 1))
      else c.(end := Point(c.end.x, c.end.y - 1))
  }

  /** Left after Right restores the points exactly, and Right after Left restores the
      selection unless AdjustEdges met a zero width (under AdjustEdges the two X coordinates may
      trade places). */
  lemma PointsHorizontalInverse(c: Corners, mode: AdjustmentMode)
    ensures PointsLeft(PointsRight(c, mode), mode) == c
    ensures c.Selection().width > 0 || mode != AdjustEdges ==> PointsRight(PointsLeft(c, mode), mode).Selection() == c.Selection()
  {
  }

  lemma PointsVerticalInverse(c: Corners, mode: AdjustmentMode)
    ensures PointsUp(PointsDown(c, mode), mode) == c
    ensures c.Selection().height > 0 || mode != AdjustEdges ==> PointsDown(PointsUp(c, mode), mode).Selection() == c.Selection()
  {
  }
}
