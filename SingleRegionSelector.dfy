/** The single region selector: the same two-point selection as the image region
    selector, with the crop helper scaling the selection to the natural image size, and
    with the seeded points following later changes of the initial rectangle. Its
    adjustment mode is always AdjustEdges. */
module SingleRegionSelector {
  import opened Wrappers
  import opened Drawing
  import opened Selection
  import opened CropHelper

  /** The mode the component starts in; it offers no way to change it. */
  const DefaultMode: AdjustmentMode := AdjustEdges

  class SingleRegionSelectorComponent {
    // parameters
    var imagePath: string
    var initialCropRectangle: Option<Rect>
    // state
    var startPoint: Option<Point>
    var endPoint: Option<Point>
    var lastImagePath: Option<string>
    var previousInitial: Option<Rect>
    var naturalImageWidth: int
    var naturalImageHeight: int
    /** The rendered size of the image element, as the page reports it. */
    var renderedImageWidth: int
    var renderedImageHeight: int
    const currentMode: AdjustmentMode
    const cropHelper: ImageCropHelper

    /** An end point is only ever placed after a start point. */
    ghost predicate Valid()
      reads this
    {
      endPoint.Some? ==> startPoint.Some?
    }

    /** Both points, once both are placed. */
    function Points(): (c: Option<Corners>)
      reads this
      ensures c.Some? <==> startPoint.Some? && endPoint.Some?
      ensures c.Some? ==> c.value.start == startPoint.value && c.value.end == endPoint.value
    {
      if startPoint.Some? && endPoint.Some? then Some(Corners(startPoint.value, endPoint.value)) else None
    }

    constructor ()
      ensures Valid() && fresh(cropHelper)
      ensures startPoint == None && endPoint == None && lastImagePath == None && previousInitial == None
      ensures currentMode == DefaultMode
    {
      imagePath, initialCropRectangle := "", None;
      startPoint, endPoint, lastImagePath, previousInitial := None, None, None, None;
      naturalImageWidth, naturalImageHeight := 0, 0;
      renderedImageWidth, renderedImageHeight := 0, 0;
      currentMode := DefaultMode;
      cropHelper := new ImageCropHelper();
    }

    /** Sets the parameters and runs OnParametersSet. A new image records the initial
        rectangle and seeds the points from it, or clears them; on the same image a changed
        initial rectangle is recorded and, when there is one, re-seeds the points. */
    method OnParametersSet(path: string, initial: Option<Rect>, fileExists: bool, bitmapWidth: int, bitmapHeight: int)
      requires Valid()
      modifies this, cropHelper
      ensures Valid()
      ensures imagePath == path && initialCropRectangle == initial
      ensures renderedImageWidth == old(renderedImageWidth) && renderedImageHeight == old(renderedImageHeight)
      ensures ShouldLoad(path, fileExists, old(lastImagePath)) ==>
                lastImagePath == Some(path) && previousInitial == initial &&
                naturalImageWidth == bitmapWidth && naturalImageHeight == bitmapHeight &&
                cropHelper.State() == LoadedImage(path, bitmapWidth, bitmapHeight) &&
                (initial.Some? ==> Points() == Some(CornersOf(initial.value))) &&
                (initial.None? ==> startPoint == None && endPoint == None)
      ensures !ShouldLoad(path, fileExists, old(lastImagePath)) ==>
                lastImagePath == old(lastImagePath) &&
                naturalImageWidth == old(naturalImageWidth) && naturalImageHeight == old(naturalImageHeight) &&
                cropHelper.State() == old(cropHelper.State()) && previousInitial == initial
      ensures !ShouldLoad(path, fileExists, old(lastImagePath)) && (old(previousInitial) == initial || initial.None?) ==>
                startPoint == old(startPoint) && endPoint == old(endPoint)
      ensures !ShouldLoad(path, fileExists, old(lastImagePath)) && old(previousInitial) != initial && initial.Some? ==>
                Points() == Some(CornersOf(initial.value))
    {
      imagePath, initialCropRectangle := path, initial;
      if ShouldLoad(imagePath, fileExists, lastImagePath) {
        lastImagePath := Some(imagePath);
        previousInitial := initialCropRectangle;
        naturalImageWidth, naturalImageHeight := bitmapWidth, bitmapHeight;
        cropHelper.LoadImage(imagePath, bitmapWidth, bitmapHeight);
        match initialCropRectangle {
          case Some(rect) =>
            startPoint := Some(Point(rect.x, rect.y));
            endPoint := Some(Point(rect.x + rect.width, rect.y + rect.height));
          case None =>
            startPoint := None;
            endPoint := None;
        }
        return;
      }
      if previousInitial != initialCropRectangle {
        previousInitial := initialCropRectangle;
        if initialCropRectangle.Some? {
          var rect := initialCropRectangle.value;
          startPoint := Some(Point(rect.x, rect.y));
          endPoint := Some(Point(rect.x + rect.width, rect.y + rect.height));
        }
      }
    }

    /** The page reports the rendered size after the first render. */
    method SetRenderedSize(width: int, height: int)
      modifies this`renderedImageWidth, this`renderedImageHeight
      ensures renderedImageWidth == width && renderedImageHeight == height
    {
      renderedImageWidth, renderedImageHeight := width, height;
    }

    /** The first click places the start point, the second the end point, later clicks
        change nothing. */
    method HandleClick(point: Point)
      requires Valid()
      modifies this`startPoint, this`endPoint
      ensures Valid()
      ensures old(startPoint).None? ==> startPoint == Some(point) && endPoint == old(endPoint)
      ensures old(startPoint).Some? && old(endPoint).None? ==> startPoint == old(startPoint) && endPoint == Some(point)
      ensures old(startPoint).Some? && old(endPoint).Some? ==> startPoint == old(startPoint) && endPoint == old(endPoint)
    {
      if startPoint.None? {
        startPoint := Some(point);
      } else if endPoint.None? {
        endPoint := Some(point);
      }
    }

    method ClearSelection()
      modifies this`startPoint, this`endPoint
      ensures Valid()
      ensures startPoint == None && endPoint == None
    {
      startPoint := None;
      endPoint := None;
    }

    /** The selection: none until both points are placed, then the rectangle they span. */
    function GetSelectionRectangle(): (r: Option<Rect>)
      reads this
      ensures r.Some? <==> startPoint.Some? && endPoint.Some?
      ensures r.Some? ==> r.value.width >= 0 && r.value.height >= 0
      ensures r.Some? ==> r.value == Points().value.Selection()
    {
      if startPoint.Some? && endPoint.Some? then Some(SelectionRectangle(startPoint.value, endPoint.value)) else None
    }

    /** GetScaledCropRectangle: the crop helper's scaling of the selection from the
        rendered size to the natural size. */
    function GetScaledCropRectangle(): (s: ScaledRect)
      reads this, cropHelper
      ensures s == NoRect <==> GetSelectionRectangle().None?
      ensures GetSelectionRectangle().Some? && (renderedImageWidth == 0 || renderedImageHeight == 0) ==>
                s == AsGiven(GetSelectionRectangle().value)
      ensures GetSelectionRectangle().Some? && renderedImageWidth != 0 && renderedImageHeight != 0 ==>
                s == ToNatural(GetSelectionRectangle().value, cropHelper.naturalWidth, cropHelper.naturalHeight,
                               renderedImageWidth, renderedImageHeight)
    {
      cropHelper.ScaleRectangleToNatural(GetSelectionRectangle(), renderedImageWidth, renderedImageHeight)
    }

    /** LeftArrowClicked: nothing without both points, else the points nudged left. */
    method LeftArrowClicked()
      modifies this`startPoint, this`endPoint
      ensures old(Points()).None? ==> startPoint == old(startPoint) && endPoint == old(endPoint)
      ensures old(Points()).Some? ==> Points() == Some(PointsLeft(old(Points()).value, currentMode))
    {
      if startPoint.None? || endPoint.None? {
        return;
      }
      match currentMode {
        case Move =>
          startPoint := Some(Point(startPoint.value.x - 1, startPoint.value.y));
          endPoint := Some(Point(endPoint.value.x - 1, endPoint.value.y));
        case Resize =>
          endPoint := Some(Point(endPoint.value.x - 1, endPoint.value.y));
        case AdjustEdges =>
          if startPoint.value.x < endPoint.value.x {
            startPoint := Some(Point(startPoint.value.x + 1, startPoint.value.y));
          } else {
            endPoint := Some(Point(endPoint.value.x + 1, endPoint.value.y));
          }
      }
    }

    method RightArrowClicked()
      modifies this`startPoint, this`endPoint
      ensures old(Points()).None? ==> startPoint == old(startPoint) && endPoint == old(endPoint)
      ensures old(Points()).Some? ==> Points() == Some(PointsRight(old(Points()).value, currentMode))
    {
      if startPoint.None? || endPoint.None? {
        return;
      }
      match currentMode {
        case Move =>
          startPoint := Some(Point(startPoint.value.x + 1, startPoint.value.y));
          endPoint := Some(Point(endPoint.value.x + 1, endPoint.value.y));
        case Resize =>
          endPoint := Some(Point(endPoint.value.x + 1, endPoint.value.y));
        case AdjustEdges =>
          if startPoint.value.x < endPoint.value.x {
            startPoint := Some(Point(startPoint.value.x - 1, startPoint.value.y));
          } else {
            endPoint := Some(Point(endPoint.value.x - 1, endPoint.value.y));
          }
      }
    }

    method UpArrowClicked()
      modifies this`startPoint, this`endPoint
      ensures old(Points()).None? ==> startPoint == old(startPoint) && endPoint == old(endPoint)
      ensures old(Points()).Some? ==> Points() == Some(PointsUp(old(Points()).value, currentMode))
    {
      if startPoint.None? || endPoint.None? {
        return;
      }
      match currentMode {
        case Move =>
          startPoint := Some(Point(startPoint.value.x, startPoint.value.y - 1));
          endPoint := Some(Point(endPoint.value.x, endPoint.value.y - 1));
        case Resize =>
          endPoint := Some(Point(endPoint.value.x, endPoint.value.y - 1));
        case AdjustEdges =>
          if startPoint.value.y < endPoint.value.y {
            startPoint := Some(Point(startPoint.value.x, startPoint.value.y + 1));
          } else {
            endPoint := Some(Point(endPoint.value.x, endPoint.value.y + 1));
          }
      }
    }

    method DownArrowClicked()
      modifies this`startPoint, this`endPoint
      ensures old(Points()).None? ==> startPoint == old(startPoint) && endPoint == old(endPoint)
      ensures old(Points()).Some? ==> Points() == Some(PointsDown(old(Points()).value, currentMode))
    {
      if startPoint.None? || endPoint.None? {
        return;
      }
      match currentMode {
        case Move =>
          startPoint := Some(Point(startPoint.value.x, startPoint.value.y + 1));
          endPoint := Some(Point(endPoint.value.x, endPoint.value.y + 1));
        case Resize =>
          endPoint := Some(Point(endPoint.value.x, endPoint.value.y + 1));
        case AdjustEdges =>
          if startPoint.value.y < endPoint.value.y {
            startPoint := Some(Point(startPoint.value.x, startPoint.value.y - 1));
          } else {
            endPoint := Some(Point(endPoint.value.x, endPoint.value.y - 1));
          }
      }
    }
  }
}
