/** The partial trim selector: a region is shown with zoomed views of its top and bottom
    slices; a first click picks the top or the bottom view, two further clicks mark a
    rectangle in that view, and confirming it records the rectangle, in image
    coordinates, as a top or a bottom removal. F1 hands all removals to the parent.
    The zoom level is a positive whole number here (the default is 4). */
module PartialTrimSelector {
  import opened Wrappers
  import opened Drawing
  import opened Selection
  import opened CropHelper

  /** EnumTrimViewModel: no view chosen yet, the top slice, or the bottom slice. */
  datatype TrimView = NoTrimView | Top | Bottom

  const DefaultZoomLevel: int := 4
  const DefaultAdjustmentMode: AdjustmentMode := Move
  const InvalidConfirmMode: string := "Invalid mode for confirming selection"
  const InvalidRebuildMode: string := "Invalid mode for rebuilding image"

  // ---------------------------------------------------------------------------------
  // Integer forms of the float arithmetic on the zoom level.

  /** Math.Round of n / d (ties to even, the default midpoint rule) for a positive d. */
  function RoundHalfEven(n: int, d: int): int
    requires d >= 1
  {
    var f := n / d;
    var r := n % d;
    if 2 * r < d then f
    else if 2 * r > d then f + 1
    else if f % 2 == 0 then f else f + 1
  }

  /** The rounded quotient is an integer nearest to n / d, and the even one on a tie. */
  lemma RoundHalfEvenIsNearest(n: int, d: int)
    requires d >= 1
    ensures 2 * Abs(n - d * RoundHalfEven(n, d)) <= d
    ensures 2 * Abs(n - d * RoundHalfEven(n, d)) == d ==> RoundHalfEven(n, d) % 2 == 0
  {
    var f := n / d;
    var r := n % d;
    assert n == d * f + r;
    if 2 * r <= d {
      assert n - d * f == r;
    }
    if 2 * r >= d {
      assert n - d * (f + 1) == r - d;
    }
  }

  /** The (int) cast of n / d: the quotient truncated toward zero, for a positive d. */
  function TruncDiv(n: int, d: int): int
    requires d >= 1
  {
    if n >= 0 then n / d else -((-n) / d)
  }

  /** The truncated quotient has the sign of n and the largest magnitude not past it. */
  lemma TruncDivTowardZero(n: int, d: int)
    requires d >= 1
    ensures Abs(d * TruncDiv(n, d)) <= Abs(n) < Abs(d * TruncDiv(n, d)) + d
    ensures n >= 0 ==> TruncDiv(n, d) >= 0
    ensures n <= 0 ==> TruncDiv(n, d) <= 0
  {
    var m := Abs(n);
    var q := m / d;
    assert m == d * q + m % d;
    assert q >= 0;
    assert d * q >= 0;
    if n < 0 {
      assert d * TruncDiv(n, d) == -(d * q);
    }
  }

  /** The height of each zoomed slice: the rounded height over the zoom, at least 1. */
  function ZoomHeight(regionHeight: int, zoomLevel: int): (z: int)
    requires zoomLevel >= 1
    ensures z >= 1
  {
    Max(1, RoundHalfEven(regionHeight, zoomLevel))
  }

  // ---------------------------------------------------------------------------------
  // Slice geometry (LoadZoomedViews, RebuildZoomedImage).

  function TopSlice(bounds: Rect, zoomHeight: int): (s: Rect)
    ensures s.x == bounds.x && s.width == bounds.width
    ensures s.y == bounds.y && s.height == zoomHeight
  {
    Rect(bounds.x, bounds.y, bounds.width, zoomHeight)
  }

  function BottomSlice(bounds: Rect, zoomHeight: int): (s: Rect)
    ensures s.x == bounds.x && s.width == bounds.width
    ensures s.Bottom() == bounds.Bottom() && s.height == zoomHeight
  {
    Rect(bounds.x, bounds.y + bounds.height - zoomHeight, bounds.width, zoomHeight)
  }

  /** The slice a view shows; there is none without a chosen view. */
  function SliceFor(view: TrimView, bounds: Rect, zoomLevel: int): (s: Result<Rect, string>)
    requires zoomLevel >= 1
    ensures view == NoTrimView <==> s == Failure(InvalidRebuildMode)
    ensures view == Top ==> s == Success(TopSlice(bounds, ZoomHeight(bounds.height, zoomLevel)))
    ensures view == Bottom ==> s == Success(BottomSlice(bounds, ZoomHeight(bounds.height, zoomLevel)))
  {
    match view
    case NoTrimView => Failure(InvalidRebuildMode)
    case Top => Success(TopSlice(bounds, ZoomHeight(bounds.height, zoomLevel)))
    case Bottom => Success(BottomSlice(bounds, ZoomHeight(bounds.height, zoomLevel)))
  }

  /** The view a click picks when none is chosen: the upper half of a slice height picks
      the top view. */
  function ViewForClick(clickedY: int, zoomHeight: int): (v: TrimView)
    requires zoomHeight >= 1
    ensures v != NoTrimView
    ensures v == Top <==> clickedY < zoomHeight / 2
  {
    if clickedY < zoomHeight / 2 then Top else Bottom
  }

  // ---------------------------------------------------------------------------------
  // Translating a confirmed selection from view to image coordinates.

  /** ConfirmCurrentSelection as written: the bottom view's origin is taken as the
      region's bottom less the TRUNCATED height over the zoom. */
  function TranslateAsWritten(view: TrimView, bounds: Rect, zoomLevel: int, local: Rect): (r: Result<Rect, string>)
    requires zoomLevel >= 1
    ensures view == NoTrimView <==> r == Failure(InvalidConfirmMode)
    ensures view == Top ==> r == Success(Rect(bounds.x + local.x, bounds.y + local.y, local.width, local.height))
    ensures view == Bottom ==>
              r == Success(Rect(bounds.x + local.x, bounds.y + bounds.height - TruncDiv(bounds.height, zoomLevel) + local.y, local.width, local.height))
  {
    match view
    case NoTrimView => Failure(InvalidConfirmMode)
    case Top => Success(Rect(bounds.x + local.x, bounds.y + local.y, local.width, local.height))
    case Bottom =>
      Success(Rect(bounds.x + local.x, bounds.y + bounds.height - TruncDiv(bounds.height, zoomLevel) + local.y, local.width, local.height))
  }

  /** ConfirmCurrentSelection corrected: the selection is moved by the origin of the
      slice the view shows, the same slice the zoomed views are cut from. */
  function Translate(view: TrimView, bounds: Rect, zoomLevel: int, local: Rect): (r: Result<Rect, string>)
    requires zoomLevel >= 1
    ensures view == NoTrimView <==> r == Failure(InvalidConfirmMode)
    ensures view == Top ==> r.Success? && r.value.x == bounds.x + local.x && r.value.y == bounds.y + local.y
    ensures r.Success? ==> r.value.width == local.width && r.value.height == local.height
    ensures view == Bottom ==>
              r.Success? && r.value.x == bounds.x + local.x &&
              r.value.y == bounds.Bottom() - ZoomHeight(bounds.height, zoomLevel) + local.y
  {
    match SliceFor(view, bounds, zoomLevel)
    case Failure(_) => Failure(InvalidConfirmMode)
    case Success(slice) => Success(Rect(slice.x + local.x, slice.y + local.y, local.width, local.height))
  }

  /** The corrected translation is undone exactly by the localisation RebuildZoomedImage
      applies to the removals of that view. */
  lemma TranslateRoundTrip(view: TrimView, bounds: Rect, zoomLevel: int, local: Rect)
    requires zoomLevel >= 1
    requires view != NoTrimView
    ensures RelativeTo(SliceFor(view, bounds, zoomLevel).value, Translate(view, bounds, zoomLevel, local).value) == local
  {
  }

  /** The two translations agree on the top view and whenever the quotient rounds down. */
  lemma TranslationsAgreeWhenRoundingDown(view: TrimView, bounds: Rect, zoomLevel: int, local: Rect)
    requires zoomLevel >= 1
    requires bounds.height >= zoomLevel
    requires RoundHalfEven(bounds.height, zoomLevel) == TruncDiv(bounds.height, zoomLevel)
    ensures TranslateAsWritten(view, bounds, zoomLevel, local) == Translate(view, bounds, zoomLevel, local)
  {
  }

  /** With a region 11 rows high at zoom 4, the slice is 3 rows (11/4 = 2.75 rounds up)
      but the written translation uses 2: a selection at the bottom view's row 0 lands
      on row 1 of that view. */
  lemma TranslateAsWrittenMissesBottomSlice()
    ensures ZoomHeight(11, 4) == 3
    ensures TranslateAsWritten(Bottom, Rect(0, 0, 50, 11), 4, Rect(5, 0, 10, 1)) == Success(Rect(5, 9, 10, 1))
    ensures RelativeTo(BottomSlice(Rect(0, 0, 50, 11), 3), Rect(5, 9, 10, 1)) == Rect(5, 1, 10, 1)
    ensures Translate(Bottom, Rect(0, 0, 50, 11), 4, Rect(5, 0, 10, 1)) == Success(Rect(5, 8, 10, 1))
  {
    assert 11 / 4 == 2 && 11 % 4 == 3;
    assert RoundHalfEven(11, 4) == 3;
    assert TruncDiv(11, 4) == 2;
  }

  // ---------------------------------------------------------------------------------

  class PartialTrimSelectorComponent {
    // parameters
    var imagePath: string
    var regionBounds: Rect
    var zoomLevel: int
    // state
    var currentMode: TrimView
    var adjustmentMode: AdjustmentMode
    var startPoint: Option<Point>
    var endPoint: Option<Point>
    var topRemovals: seq<Rect>
    var bottomRemovals: seq<Rect>
    var lastImagePath: Option<string>
    var previousBounds: Rect
    var referenceImage: Option<ImageString>
    var regionImage: Option<ImageString>
    var topImageData: Option<ImageString>
    var bottomImageData: Option<ImageString>
    /** The lists passed to OnTrimsConfirmed, in order. */
    var trimsConfirmed: seq<seq<Rect>>
    const cropHelper: ImageCropHelper

    /** The zoom is a positive whole number and an end point is only placed after a
        start point. */
    ghost predicate Valid()
      reads this
    {
      zoomLevel >= 1 && (endPoint.Some? ==> startPoint.Some?)
    }

    function Points(): (c: Option<Corners>)
      reads this
      ensures c.Some? <==> startPoint.Some? && endPoint.Some?
      ensures c.Some? ==> c.value.start == startPoint.value && c.value.end == endPoint.value
    {
      if startPoint.Some? && endPoint.Some? then Some(Corners(startPoint.value, endPoint.value)) else None
    }

    constructor ()
      ensures Valid() && fresh(cropHelper)
      ensures zoomLevel == DefaultZoomLevel && currentMode == NoTrimView && adjustmentMode == DefaultAdjustmentMode
      ensures startPoint == None && endPoint == None && topRemovals == [] && bottomRemovals == []
      ensures lastImagePath == None && previousBounds == Empty && trimsConfirmed == []
    {
      imagePath, regionBounds, zoomLevel := "", Empty, DefaultZoomLevel;
      currentMode, adjustmentMode := NoTrimView, DefaultAdjustmentMode;
      startPoint, endPoint, topRemovals, bottomRemovals := None, None, [], [];
      lastImagePath, previousBounds := None, Empty;
      referenceImage, regionImage, topImageData, bottomImageData := None, None, None, None;
      trimsConfirmed := [];
      cropHelper := new ImageCropHelper();
    }

    /** Keys_KeyUp */
    method KeyUp(key: Key)
      requires Valid()
      modifies this`startPoint, this`endPoint, this`trimsConfirmed, this`adjustmentMode
      ensures Valid()
      ensures key == Left && old(Points()).Some? ==> Points() == Some(PointsLeft(old(Points()).value, adjustmentMode))
      ensures key == Right && old(Points()).Some? ==> Points() == Some(PointsRight(old(Points()).value, adjustmentMode))
      ensures key == Up && old(Points()).Some? ==> Points() == Some(PointsUp(old(Points()).value, adjustmentMode))
      ensures key == Down && old(Points()).Some? ==> Points() == Some(PointsDown(old(Points()).value, adjustmentMode))
      ensures old(Points()).None? || !(key in {Left, Right, Up, Down}) ==>
                startPoint == old(startPoint) && endPoint == old(endPoint)
      ensures key == F1 ==> trimsConfirmed == old(trimsConfirmed) + [topRemovals + bottomRemovals]
      ensures key != F1 ==> trimsConfirmed == old(trimsConfirmed)
      ensures key == F4 ==> adjustmentMode == Move
      ensures key == F5 ==> adjustmentMode == Resize
      ensures key == F6 ==> adjustmentMode == AdjustEdges
      ensures !(key in {F4, F5, F6}) ==> adjustmentMode == old(adjustmentMode)
    {
      match key {
        case Down => DownArrowClicked();
        case Up => UpArrowClicked();
        case Left => LeftArrowClicked();
        case Right => RightArrowClicked();
        case F1 => ConfirmAllTrims();
        case F4 => SetMode(Move);
        case F5 => SetMode(Resize);
        case F6 => SetMode(AdjustEdges);
        case _ =>
      }
    }

    /** Sets the parameters and runs OnParametersSet: a new image, or bounds other than
        the recorded ones, repopulate the views and drop every removal. */
    method OnParametersSet(path: string, bounds: Rect, zoom: int, fileExists: bool, bitmapWidth: int, bitmapHeight: int)
      requires Valid() && zoom >= 1
      modifies this`imagePath, this`regionBounds, this`zoomLevel, this`lastImagePath, cropHelper
      modifies this`referenceImage, this`previousBounds, this`topImageData, this`bottomImageData
      modifies this`topRemovals, this`bottomRemovals, this`regionImage
      ensures Valid()
      ensures imagePath == path && regionBounds == bounds && zoomLevel == zoom
      ensures ShouldLoad(path, fileExists, old(lastImagePath)) ==>
                lastImagePath == Some(path) && cropHelper.State() == LoadedImage(path, bitmapWidth, bitmapHeight)
      ensures !ShouldLoad(path, fileExists, old(lastImagePath)) ==>
                lastImagePath == old(lastImagePath) && cropHelper.State() == old(cropHelper.State())
      ensures ShouldLoad(path, fileExists, old(lastImagePath)) || old(previousBounds) != bounds ==>
                previousBounds == bounds && topRemovals == [] && bottomRemovals == [] &&
                referenceImage == Some(cropHelper.CropImageBase64(bounds)) &&
                regionImage == Some(cropHelper.CropImageBase64(bounds)) &&
                topImageData == Some(cropHelper.CropImageBase64(TopSlice(bounds, ZoomHeight(bounds.height, zoom)))) &&
                bottomImageData == Some(cropHelper.CropImageBase64(BottomSlice(bounds, ZoomHeight(bounds.height, zoom))))
      ensures !ShouldLoad(path, fileExists, old(lastImagePath)) && old(previousBounds) == bounds ==>
                previousBounds == old(previousBounds) &&
                topRemovals == old(topRemovals) && bottomRemovals == old(bottomRemovals) &&
                referenceImage == old(referenceImage) && regionImage == old(regionImage) &&
                topImageData == old(topImageData) && bottomImageData == old(bottomImageData)
    {
      imagePath, regionBounds, zoomLevel := path, bounds, zoom;
      var regionChanged := previousBounds != regionBounds;
      if ShouldLoad(imagePath, fileExists, lastImagePath) {
        lastImagePath := Some(imagePath);
        cropHelper.LoadImage(imagePath, bitmapWidth, bitmapHeight);
        PopulateInitialRegions();
        return;
      }
      if regionChanged {
        PopulateInitialRegions();
      }
    }

    method PopulateInitialRegions()
      requires Valid()
      modifies this`referenceImage, this`previousBounds, this`topImageData, this`bottomImageData
      modifies this`topRemovals, this`bottomRemovals, this`regionImage
      ensures previousBounds == regionBounds && topRemovals == [] && bottomRemovals == []
      ensures referenceImage == Some(cropHelper.CropImageBase64(regionBounds))
      ensures regionImage == Some(cropHelper.CropImageBase64(regionBounds))
      ensures topImageData == Some(cropHelper.CropImageBase64(TopSlice(regionBounds, ZoomHeight(regionBounds.height, zoomLevel))))
      ensures bottomImageData == Some(cropHelper.CropImageBase64(BottomSlice(regionBounds, ZoomHeight(regionBounds.height, zoomLevel))))
    {
      referenceImage := Some(cropHelper.CropImageBase64(regionBounds));
      previousBounds := regionBounds;
      LoadZoomedViews();
      ClearRegions();
    }

    /** ConfirmAllTrims: the top removals, then the bottom removals, in order. */
    method ConfirmAllTrims()
      modifies this`trimsConfirmed
      ensures trimsConfirmed == old(trimsConfirmed) + [topRemovals + bottomRemovals]
    {
      var bounds: seq<Rect> := [];
      bounds := bounds + topRemovals;
      assert bounds == topRemovals;
      bounds := bounds + bottomRemovals;
      trimsConfirmed := trimsConfirmed + [bounds];
    }

    method ClearRegions()
      modifies this`topRemovals, this`bottomRemovals, this`regionImage
      ensures topRemovals == [] && bottomRemovals == []
      ensures regionImage == Some(cropHelper.CropImageBase64(regionBounds))
    {
      topRemovals := [];
      bottomRemovals := [];
      regionImage := Some(cropHelper.CropImageBase64(regionBounds));
    }

    method ClearCurrentSelection()
      modifies this`startPoint, this`endPoint
      ensures startPoint == None && endPoint == None
    {
      startPoint := None;
      endPoint := None;
    }

    method LoadZoomedViews()
      requires Valid()
      modifies this`topImageData, this`bottomImageData
      ensures topImageData == Some(cropHelper.CropImageBase64(TopSlice(regionBounds, ZoomHeight(regionBounds.height, zoomLevel))))
      ensures bottomImageData == Some(cropHelper.CropImageBase64(BottomSlice(regionBounds, ZoomHeight(regionBounds.height, zoomLevel))))
    {
      var zoomHeight := Max(1, RoundHalfEven(regionBounds.height, zoomLevel));
      var topSlice := Rect(regionBounds.x, regionBounds.y, regionBounds.width, zoomHeight);
      var bottomSlice := Rect(regionBounds.x, regionBounds.y + regionBounds.height - zoomHeight, regionBounds.width, zoomHeight);
      topImageData := Some(cropHelper.CropImageBase64(topSlice));
      bottomImageData := Some(cropHelper.CropImageBase64(bottomSlice));
    }

    /** HandleImageClick: without a chosen view the click only chooses one; otherwise the
        first click places the start point, the second the end point. */
    method HandleImageClick(offsetX: int, offsetY: int)
      requires Valid()
      modifies this`currentMode, this`startPoint, this`endPoint
      ensures Valid()
      ensures old(currentMode) == NoTrimView ==>
                currentMode == ViewForClick(offsetY, ZoomHeight(regionBounds.height, zoomLevel)) &&
                startPoint == old(startPoint) && endPoint == old(endPoint)
      ensures old(currentMode) != NoTrimView ==> currentMode == old(currentMode)
      ensures old(currentMode) != NoTrimView && old(startPoint).None? ==>
                startPoint == Some(Point(offsetX, offsetY)) && endPoint == old(endPoint)
      ensures old(currentMode) != NoTrimView && old(startPoint).Some? && old(endPoint).None? ==>
                startPoint == old(startPoint) && endPoint == Some(Point(offsetX, offsetY))
      ensures old(currentMode) != NoTrimView && old(startPoint).Some? && old(endPoint).Some? ==>
                startPoint == old(startPoint) && endPoint == old(endPoint)
    {
      var clickedY := offsetY;
      if currentMode == NoTrimView {
        var zoomHeight := Max(1, RoundHalfEven(regionBounds.height, zoomLevel));
        if clickedY < zoomHeight / 2 {
          currentMode := Top;
        } else {
          currentMode := Bottom;
        }
        return;
      }
      if startPoint.None? {
        startPoint := Some(Point(offsetX, clickedY));
      } else if endPoint.None? {
        endPoint := Some(Point(offsetX, clickedY));
      }
    }

    method SetMode(newMode: AdjustmentMode)
      modifies this`adjustmentMode
      ensures adjustmentMode == newMode
    {
      adjustmentMode := newMode;
    }

    method LeftArrowClicked()
      modifies this`startPoint, this`endPoint
      ensures old(Points()).None? ==> startPoint == old(startPoint) && endPoint == old(endPoint)
      ensures old(Points()).Some? ==> Points() == Some(PointsLeft(old(Points()).value, adjustmentMode))
    {
      if startPoint.None? || endPoint.None? {
        return;
      }
      match adjustmentMode {
        case Move =>
          startPoint := Some(Point(startPoint.value.x - 1, startPoint.value.y));
          endPoint := Some(Point(endPoint.value.x - 1, endPoint.value.y));
        case Resize =>
          endPoint := Some(Point(endPoint.value.x - 1, endPoint.value.y));
        case AdjustEdges =>
          if startPoint.value.x < endPoint.value.x {
            startPoint := Some(Point(startPoint.value.x + 1, startPoint.value.y));
          } else {
            endPoint := Some(Point(endPoint.value.x + 1, endPoint.value.y));
          }
      }
    }

    method RightArrowClicked()
      modifies this`startPoint, this`endPoint
      ensures old(Points()).None? ==> startPoint == old(startPoint) && endPoint == old(endPoint)
      ensures old(Points()).Some? ==> Points() == Some(PointsRight(old(Points()).value, adjustmentMode))
    {
      if startPoint.None? || endPoint.None? {
        return;
      }
      match adjustmentMode {
        case Move =>
          startPoint := Some(Point(startPoint.value.x + 1, startPoint.value.y));
          endPoint := Some(Point(endPoint.value.x + 1, endPoint.value.y));
        case Resize =>
          endPoint := Some(Point(endPoint.value.x + 1, endPoint.value.y));
        case AdjustEdges =>
          if startPoint.value.x < endPoint.value.x {
            startPoint := Some(Point(startPoint.value.x - 1, startPoint.value.y));
          } else {
            endPoint := Some(Point(endPoint.value.x - 1, endPoint.value.y));
          }
      }
    }

    method UpArrowClicked()
      modifies this`startPoint, this`endPoint
      ensures old(Points()).None? ==> startPoint == old(startPoint) && endPoint == old(endPoint)
      ensures old(Points()).Some? ==> Points() == Some(PointsUp(old(Points()).value, adjustmentMode))
    {
      if startPoint.None? || endPoint.None? {
        return;
      }
      match adjustmentMode {
        case Move =>
          startPoint := Some(Point(startPoint.value.x, startPoint.value.y - 1));
          endPoint := Some(Point(endPoint.value.x, endPoint.value.y - 1));
        case Resize =>
          endPoint := Some(Point(endPoint.value.x, endPoint.value.y - 1));
        case AdjustEdges =>
          if startPoint.value.y < endPoint.value.y {
            startPoint := Some(Point(startPoint.value.x, startPoint.value.y + 1));
          } else {
            endPoint := Some(Point(endPoint.value.x, endPoint.value.y + 1));
          }
      }
    }

    method DownArrowClicked()
      modifies this`startPoint, this`endPoint
      ensures old(Points()).None? ==> startPoint == old(startPoint) && endPoint == old(endPoint)
      ensures old(Points()).Some? ==> Points() == Some(PointsDown(old(Points()).value, adjustmentMode))
    {
      if startPoint.None? || endPoint.None? {
        return;
      }
      match adjustmentMode {
        case Move =>
          startPoint := Some(Point(startPoint.value.x, startPoint.value.y + 1));
          endPoint := Some(Point(endPoint.value.x, endPoint.value.y + 1));
        case Resize =>
          endPoint := Some(Point(endPoint.value.x, endPoint.value.y + 1));
        case AdjustEdges =>
          if startPoint.value.y < endPoint.value.y {
            startPoint := Some(Point(startPoint.value.x, startPoint.value.y - 1));
          } else {
            endPoint := Some(Point(endPoint.value.x, endPoint.value.y - 1));
          }
      }
    }

    /** ConfirmCurrentSelection, with the corrected translation: nothing without both
        points; without a chosen view the error is reported and nothing changes;
        otherwise the translated selection is appended to the view's removals and the
        points are cleared. */
    method ConfirmCurrentSelection() returns (error: Option<string>)
      requires Valid()
      modifies this`topRemovals, this`bottomRemovals, this`startPoint, this`endPoint
      ensures Valid()
      ensures old(Points()).None? || currentMode == NoTrimView ==>
                topRemovals == old(topRemovals) && bottomRemovals == old(bottomRemovals) &&
                startPoint == old(startPoint) && endPoint == old(endPoint)
      ensures error.Some? <==> old(Points()).Some? && currentMode == NoTrimView
      ensures error.Some? ==> error.value == InvalidConfirmMode
      ensures old(Points()).Some? && currentMode == Top ==>
                topRemovals == old(topRemovals) + [Translate(Top, regionBounds, zoomLevel, old(Points()).value.Selection()).value] &&
                bottomRemovals == old(bottomRemovals) && startPoint == None && endPoint == None
      ensures old(Points()).Some? && currentMode == Bottom ==>
                bottomRemovals == old(bottomRemovals) + [Translate(Bottom, regionBounds, zoomLevel, old(Points()).value.Selection()).value] &&
                topRemovals == old(topRemovals) && startPoint == None && endPoint == None
    {
      error := None;
      if startPoint.None? || endPoint.None? {
        return;
      }
      var x := Min(startPoint.value.x, endPoint.value.x);
      var y := Min(startPoint.value.y, endPoint.value.y);
      var width := Abs(endPoint.value.x - startPoint.value.x);
      var height := Abs(endPoint.value.y - startPoint.value.y);
      var localRect := Rect(x, y, width, height);
      var translated := Translate(currentMode, regionBounds, zoomLevel, localRect);
      if translated.Failure? {
        error := Some(translated.error);
        return;
      }
      if currentMode == Top {
        topRemovals := topRemovals + [translated.value];
      } else if currentMode == Bottom {
        bottomRemovals := bottomRemovals + [translated.value];
      }
      startPoint := None;
      endPoint := None;
    }

    /** ShowPreview: back to the whole-region view with no points; returns the white
        fills it paints, in region coordinates (the painting itself is left out). */
    method ShowPreview() returns (fills: seq<Rect>)
      modifies this`currentMode, this`startPoint, this`endPoint
      ensures currentMode == NoTrimView && startPoint == None && endPoint == None
      ensures |fills| == |topRemovals| + |bottomRemovals|
      ensures forall i :: 0 <= i < |fills| ==> fills[i] == RelativeTo(regionBounds, (topRemovals + bottomRemovals)[i])
    {
      currentMode := NoTrimView;
      ClearCurrentSelection();
      fills := LocalFills(regionBounds, topRemovals + bottomRemovals);
    }

    /** RebuildZoomedImage's geometry: the slice of the view and the white fills it
        paints, in slice coordinates. */
    method RebuildZoomedImage(view: TrimView) returns (slice: Result<Rect, string>, fills: seq<Rect>)
      requires Valid()
      ensures slice == SliceFor(view, regionBounds, zoomLevel)
      ensures view == NoTrimView ==> fills == []
      ensures view != NoTrimView ==>
                var removals := if view == Top then topRemovals else bottomRemovals;
                |fills| == |removals| &&
                forall i :: 0 <= i < |fills| ==> fills[i] == RelativeTo(slice.value, removals[i])
    {
      slice := SliceFor(view, regionBounds, zoomLevel);
      if slice.Failure? {
        fills := [];
        return;
      }
      var removals := if view == Top then topRemovals else bottomRemovals;
      fills := LocalFills(slice.value, removals);
    }
  }

  /** The removals moved into the coordinates of `origin`, one by one. */
  method LocalFills(origin: Rect, removals: seq<Rect>) returns (fills: seq<Rect>)
    ensures |fills| == |removals|
    ensures forall i :: 0 <= i < |fills| ==> fills[i] == RelativeTo(origin, removals[i])
  {
    fills := [];
    var i := 0;
    while i < |removals|
      invariant 0 <= i <= |removals|
      invariant |fills| == i
      invariant forall k :: 0 <= k < i ==> fills[k] == RelativeTo(origin, removals[k])
    {
      var rect := removals[i];
      var localX := rect.x - origin.x;
      var localY := rect.y - origin.y;
      fills := fills + [Rect(localX, localY, rect.width, rect.height)];
      i := i + 1;
    }
  }
}
