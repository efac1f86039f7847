/** The two-region selector: a step machine picks a first and then a second rectangle by
    two clicks each, optionally with a fixed left edge, top and width; the arrow keys nudge
    whichever rectangle is active; the result is handed out as an entry that resets the
    machine. */
module TwoRegionSelector {
  import opened Wrappers
  import opened Drawing
  import opened Selection
  import opened CropHelper

  /** EnumRegionStep */
  datatype RegionStep = SelectingFirst | SelectingSecond | Done

  /** TwoRegionImageEntry: the image and the two rectangles, either possibly missing. */
  datatype TwoRegionImageEntry = TwoRegionImageEntry(imageFile: string, firstRegion: Option<Rect>, secondRegion: Option<Rect>)

  const DefaultMode: AdjustmentMode := Move
  const NoSuggestionError: string := "At least one region must be provided for suggestions."

  /** The step after loading an image with the review regions in place. */
  function StepFor(first: Option<Rect>, second: Option<Rect>): (s: RegionStep)
    ensures s == Done <==> first.Some? && second.Some?
    ensures s == SelectingSecond <==> first.Some? && second.None?
    ensures s == SelectingFirst <==> first.None?
  {
    if first.Some? && second.Some? then Done
    else if first.Some? then SelectingSecond
    else SelectingFirst
  }

  /** GetSelectionRectangle: the rectangle spanned by the points, with the desired width
      replacing the spanned width when one is set. */
  function DesiredSelection(p1: Point, p2: Point, desiredWidth: int): (r: Rect)
    ensures r.x == SelectionRectangle(p1, p2).x && r.y == SelectionRectangle(p1, p2).y
    ensures r.height == SelectionRectangle(p1, p2).height
    ensures desiredWidth > 0 ==> r.width == desiredWidth
    ensures desiredWidth <= 0 ==> r == SelectionRectangle(p1, p2)
  {
    var w := if desiredWidth > 0 then desiredWidth else Abs(p1.x - p2.x);
    Rect(Min(p1.x, p2.x), Min(p1.y, p2.y), w, Abs(p1.y - p2.y))
  }

  /** GetActiveRectangle: the second rectangle while selecting it, otherwise the first,
      otherwise Rectangle.Empty. */
  function ActiveRectangle(step: RegionStep, first: Option<Rect>, second: Option<Rect>): (r: Rect)
    ensures step == SelectingSecond && second.Some? ==> r == second.value
    ensures !(step == SelectingSecond && second.Some?) && first.Some? ==> r == first.value
    ensures !(step == SelectingSecond && second.Some?) && first.None? ==> r == Empty
  {
    if step == SelectingSecond && second.Some? then second.value
    else if first.Some? then first.value
    else Empty
  }

  /** SetActiveRectangle: overwrites the active rectangle, and only one that exists. */
  function SetActive(step: RegionStep, first: Option<Rect>, second: Option<Rect>, rect: Rect): (p: (Option<Rect>, Option<Rect>))
    ensures p.0.Some? == first.Some? && p.1.Some? == second.Some?
    ensures p.0 == first || p.1 == second
    ensures first.None? && !(step == SelectingSecond && second.Some?) ==> p == (first, second)
  {
    if step == SelectingSecond && second.Some? then (first, Some(rect))
    else if first.Some? then (Some(rect), second)
    else (first, second)
  }

  /** Writing a rectangle back as the active one makes it the active one, when there is
      one to overwrite, and writing back the active rectangle changes nothing. */
  lemma SetActiveThenActive(step: RegionStep, first: Option<Rect>, second: Option<Rect>, rect: Rect)
    ensures first.Some? || (step == SelectingSecond && second.Some?) ==>
              var p := SetActive(step, first, second, rect);
              ActiveRectangle(step, p.0, p.1) == rect
    ensures SetActive(step, first, second, ActiveRectangle(step, first, second)) == (first, second)
  {
  }

  /** SetMode as written: the forced Resize is overwritten by the requested mode unless
      the step is Done. */
  function SetModeAsWritten(mode: AdjustmentMode, step: RegionStep, forcedResize: bool, newMode: AdjustmentMode): (m: AdjustmentMode)
    ensures step == Done ==> m == (if forcedResize then Resize else mode)
    ensures step != Done ==> m == newMode
  {
    var forced := if forcedResize then Resize else mode;
    if step == Done then forced
    else if forced != newMode then newMode else forced
  }

  /** SetMode corrected: with a desired left edge and width the mode stays Resize; in Done
      no requested mode is applied. */
  function SetModeCorrected(mode: AdjustmentMode, step: RegionStep, forcedResize: bool, newMode: AdjustmentMode): (m: AdjustmentMode)
    ensures forcedResize ==> m == Resize
    ensures !forcedResize && step == Done ==> m == mode
    ensures !forcedResize && step != Done ==> m == newMode
  {
    if forcedResize then Resize
    else if step == Done then mode
    else newMode
  }

  /** The written SetMode leaves Resize for the requested mode: with a desired left edge
      and width while selecting the first region, F1 switches to Move. */
  lemma SetModeAsWrittenDropsForcedResize()
    ensures SetModeAsWritten(Resize, SelectingFirst, true, Move) == Move
    ensures SetModeCorrected(Resize, SelectingFirst, true, Move) == Resize
  {
  }

  /** The two agree whenever no Resize is forced, and in Done. */
  lemma SetModeVersionsAgree(mode: AdjustmentMode, step: RegionStep, forcedResize: bool, newMode: AdjustmentMode)
    requires !forcedResize || step == Done
    ensures SetModeAsWritten(mode, step, forcedResize, newMode) == SetModeCorrected(mode, step, forcedResize, newMode)
  {
  }

  class TwoRegionSelectorComponent {
    // parameters
    var imagePath: string
    var desiredWidth: int
    var desiredLeft: int
    var desiredTop: int
    var reviewFirstRegion: Option<Rect>
    var reviewSecondRegion: Option<Rect>
    // state
    var firstRectangle: Option<Rect>
    var secondRectangle: Option<Rect>
    var naturalImageWidth: int
    var naturalImageHeight: int
    var currentStep: RegionStep
    var currentMode: AdjustmentMode
    var startPoint: Option<Point>
    var endPoint: Option<Point>
    var lastImagePath: Option<string>
    /** The rendered size of the image element, as the page reports it. */
    var renderedImageWidth: int
    var renderedImageHeight: int
    /** How many times OnReviewAffirmed was invoked. */
    var reviewAffirmed: nat
    const cropHelper: ImageCropHelper

    /** The second click clears both points at once, so no end point is ever kept. */
    ghost predicate Valid()
      reads this
    {
      endPoint.None?
    }

    /** Whether SetMode must keep the mode at Resize. */
    predicate ForcedResize()
      reads this
    {
      desiredLeft > 0 && desiredWidth > 0
    }

    /** The rectangle the arrows act on: the second while it is being selected, else the
        first, else Rectangle.Empty. */
    function GetActiveRectangle(): (r: Rect)
      reads this
      ensures currentStep == SelectingSecond && secondRectangle.Some? ==> r == secondRectangle.value
      ensures !(currentStep == SelectingSecond && secondRectangle.Some?) && firstRectangle.Some? ==> r == firstRectangle.value
      ensures !(currentStep == SelectingSecond && secondRectangle.Some?) && firstRectangle.None? ==> r == Empty
    {
      ActiveRectangle(currentStep, firstRectangle, secondRectangle)
    }

    constructor ()
      ensures Valid() && fresh(cropHelper)
      ensures firstRectangle == None && secondRectangle == None && startPoint == None
      ensures currentStep == SelectingFirst && currentMode == DefaultMode && lastImagePath == None
      ensures reviewAffirmed == 0
    {
      imagePath, desiredWidth, desiredLeft, desiredTop := "", 0, 0, 0;
      reviewFirstRegion, reviewSecondRegion := None, None;
      firstRectangle, secondRectangle := None, None;
      naturalImageWidth, naturalImageHeight := 0, 0;
      currentStep, currentMode := SelectingFirst, DefaultMode;
      startPoint, endPoint, lastImagePath := None, None, None;
      renderedImageWidth, renderedImageHeight, reviewAffirmed := 0, 0, 0;
      cropHelper := new ImageCropHelper();
    }

    /** Keys_KeyUp: nothing until a rectangle exists; the arrows nudge the active one,
        F1, F2 and F4 choose Move, Resize and AdjustEdges. */
    method KeyUp(key: Key)
      modifies this`firstRectangle, this`secondRectangle, this`currentMode, this`reviewAffirmed
      ensures old(firstRectangle).None? && old(secondRectangle).None? ==>
                firstRectangle == old(firstRectangle) && secondRectangle == old(secondRectangle) &&
                currentMode == old(currentMode) && reviewAffirmed == old(reviewAffirmed)
      ensures !(key in {Left, Right, Up, Down}) ==> firstRectangle == old(firstRectangle) && secondRectangle == old(secondRectangle)
      ensures !(key in {F1, F2, F4}) ==> currentMode == old(currentMode) && reviewAffirmed == old(reviewAffirmed)
      ensures (old(firstRectangle).Some? || old(secondRectangle).Some?) && key == F1 ==>
                currentMode == SetModeCorrected(old(currentMode), currentStep, ForcedResize(), Move)
      ensures (old(firstRectangle).Some? || old(secondRectangle).Some?) && key == F2 ==>
                currentMode == SetModeCorrected(old(currentMode), currentStep, ForcedResize(), Resize)
      ensures (old(firstRectangle).Some? || old(secondRectangle).Some?) && key == F4 ==>
                currentMode == SetModeCorrected(old(currentMode), currentStep, ForcedResize(), AdjustEdges)
      ensures (old(firstRectangle).Some? || old(secondRectangle).Some?) && key in {F1, F2, F4} ==>
                reviewAffirmed == old(reviewAffirmed) + (if currentStep == Done && key == F1 then 1 else 0)
      ensures (old(firstRectangle).Some? || old(secondRectangle).Some?) && key in {Left, Right, Up, Down} ==>
                var a := ActiveRectangle(currentStep, old(firstRectangle), old(secondRectangle));
                var nudged := match key
                  case Left => NudgeLeft(a, currentMode)
                  case Right => NudgeRight(a, currentMode)
                  case Up => NudgeUp(a, currentMode)
                  case _ => NudgeDown(a, currentMode);
                if a.IsEmpty() || (desiredLeft > 0 && key in {Left, Right})
                then firstRectangle == old(firstRectangle) && secondRectangle == old(secondRectangle)
                else (firstRectangle, secondRectangle) == SetActive(currentStep, old(firstRectangle), old(secondRectangle), nudged)
    {
      if firstRectangle.None? && secondRectangle.None? {
        return;
      }
      match key {
        case Down => DownArrowClicked();
        case Up => UpArrowClicked();
        case Left => LeftArrowClicked();
        case Right => RightArrowClicked();
        case F1 => SetMode(Move);
        case F2 => SetMode(Resize);
        case F4 => SetMode(AdjustEdges);
        case _ =>
      }
    }

    /** SetMode, with the forced Resize kept; a Move request in Done affirms the review. */
    method SetMode(newMode: AdjustmentMode)
      modifies this`currentMode, this`reviewAffirmed
      ensures currentMode == SetModeCorrected(old(currentMode), currentStep, ForcedResize(), newMode)
      ensures reviewAffirmed == old(reviewAffirmed) + (if currentStep == Done && newMode == Move then 1 else 0)
    {
      if ForcedResize() {
        currentMode := Resize;
      }
      if currentStep == Done {
        if newMode == Move {
          reviewAffirmed := reviewAffirmed + 1;
        }
        return;
      }
      if ForcedResize() {
        return;
      }
      if currentMode != newMode {
        currentMode := newMode;
      }
    }

    /** ApplySuggestions: at least one region is required; each given region is taken,
        and a second one moves the step to SelectingSecond. */
    method ApplySuggestions(firstRegion: Option<Rect>, secondRegion: Option<Rect>) returns (error: Option<string>)
      modifies this`firstRectangle, this`secondRectangle, this`currentStep
      ensures error.Some? <==> firstRegion.None? && secondRegion.None?
      ensures error.Some? ==> error.value == NoSuggestionError
      ensures firstRectangle == (if firstRegion.Some? then firstRegion else old(firstRectangle))
      ensures secondRectangle == (if secondRegion.Some? then secondRegion else old(secondRectangle))
      ensures currentStep == (if secondRegion.Some? then SelectingSecond else old(currentStep))
    {
      if firstRegion.None? && secondRegion.None? {
        return Some(NoSuggestionError);
      }
      error := None;
      if firstRegion.Some? {
        firstRectangle := firstRegion;
      }
      if secondRegion.Some? {
        secondRectangle := secondRegion;
        currentStep := SelectingSecond;
      }
    }

    /** Sets the parameters and runs OnParametersSetAsync: a desired left edge and width
        force Resize; a new image takes the review regions and derives the step. */
    method OnParametersSet(path: string, width: int, left: int, top: int, reviewFirst: Option<Rect>, reviewSecond: Option<Rect>,
                           fileExists: bool, bitmapWidth: int, bitmapHeight: int)
      modifies this`imagePath, this`desiredWidth, this`desiredLeft, this`desiredTop
      modifies this`reviewFirstRegion, this`reviewSecondRegion, this`currentMode
      modifies this`lastImagePath, this`naturalImageWidth, this`naturalImageHeight
      modifies this`firstRectangle, this`secondRectangle, this`currentStep, cropHelper
      ensures imagePath == path && desiredWidth == width && desiredLeft == left && desiredTop == top
      ensures reviewFirstRegion == reviewFirst && reviewSecondRegion == reviewSecond
      ensures currentMode == (if left > 0 && width > 0 then Resize else old(currentMode))
      ensures ShouldLoad(path, fileExists, old(lastImagePath)) ==>
                lastImagePath == Some(path) && cropHelper.State() == LoadedImage(path, bitmapWidth, bitmapHeight) &&
                naturalImageWidth == bitmapWidth && naturalImageHeight == bitmapHeight &&
                firstRectangle == reviewFirst && secondRectangle == reviewSecond &&
                currentStep == StepFor(reviewFirst, reviewSecond)
      ensures !ShouldLoad(path, fileExists, old(lastImagePath)) ==>
                lastImagePath == old(lastImagePath) && cropHelper.State() == old(cropHelper.State()) &&
                naturalImageWidth == old(naturalImageWidth) && naturalImageHeight == old(naturalImageHeight) &&
                firstRectangle == old(firstRectangle) && secondRectangle == old(secondRectangle) &&
                currentStep == old(currentStep)
    {
      imagePath, desiredWidth, desiredLeft, desiredTop := path, width, left, top;
      reviewFirstRegion, reviewSecondRegion := reviewFirst, reviewSecond;
      if ForcedResize() {
        currentMode := Resize;
      }
      if ShouldLoad(imagePath, fileExists, lastImagePath) {
        LoadReviewedImage(bitmapWidth, bitmapHeight);
      }
    }

    /** The loading branch of OnParametersSetAsync. */
    method LoadReviewedImage(bitmapWidth: int, bitmapHeight: int)
      modifies this`lastImagePath, this`naturalImageWidth, this`naturalImageHeight
      modifies this`firstRectangle, this`secondRectangle, this`currentStep, cropHelper
      ensures lastImagePath == Some(imagePath) && cropHelper.State() == LoadedImage(imagePath, bitmapWidth, bitmapHeight)
      ensures naturalImageWidth == bitmapWidth && naturalImageHeight == bitmapHeight
      ensures firstRectangle == reviewFirstRegion && secondRectangle == reviewSecondRegion
      ensures currentStep == StepFor(reviewFirstRegion, reviewSecondRegion)
    {
      lastImagePath := Some(imagePath);
      cropHelper.LoadImage(imagePath, bitmapWidth, bitmapHeight);
      naturalImageWidth, naturalImageHeight := cropHelper.GetNaturalSize().0, cropHelper.GetNaturalSize().1;
      firstRectangle := reviewFirstRegion;
      secondRectangle := reviewSecondRegion;
      if firstRectangle.Some? && secondRectangle.Some? {
        currentStep := Done;
      } else if firstRectangle.Some? {
        currentStep := SelectingSecond;
      } else {
        currentStep := SelectingFirst;
      }
    }

    method SetRenderedSize(width: int, height: int)
      modifies this`renderedImageWidth, this`renderedImageHeight
      ensures renderedImageWidth == width && renderedImageHeight == height
    {
      renderedImageWidth, renderedImageHeight := width, height;
    }

    /** GetScaledCropRectangle: none without a rectangle or a rendered size, else the
        rectangle scaled from the rendered to the natural size. */
    function GetScaledCropRectangle(rect: Option<Rect>): (s: ScaledRect)
      reads this
      ensures s == NoRect <==> rect.None? || renderedImageWidth == 0 || renderedImageHeight == 0
      ensures s != NoRect ==> s == ToNatural(rect.value, naturalImageWidth, naturalImageHeight, renderedImageWidth, renderedImageHeight)
    {
      if rect.None? || renderedImageWidth == 0 || renderedImageHeight == 0 then NoRect
      else ToNatural(rect.value, naturalImageWidth, naturalImageHeight, renderedImageWidth, renderedImageHeight)
    }

    /** GetTwoRegionEntry: hands out the pair and starts over. */
    method GetTwoRegionEntry() returns (output: TwoRegionImageEntry)
      modifies this`firstRectangle, this`secondRectangle, this`currentStep
      ensures output == TwoRegionImageEntry(imagePath, old(firstRectangle), old(secondRectangle))
      ensures firstRectangle == None && secondRectangle == None && currentStep == SelectingFirst
    {
      output := TwoRegionImageEntry(imagePath, firstRectangle, secondRectangle);
      firstRectangle := None;
      secondRectangle := None;
      currentStep := SelectingFirst;
    }

    /** HandleClick: the first click places the start point (on the desired left edge
        when one is set); the second stores the selection as the rectangle of the step
        and clears the points. */
    method HandleClick(clickedPoint: Point)
      requires Valid()
      modifies this`startPoint, this`endPoint, this`firstRectangle, this`secondRectangle
      ensures Valid()
      ensures old(startPoint).None? ==>
                startPoint == Some(if desiredLeft > 0 then Point(desiredLeft, clickedPoint.y) else clickedPoint) &&
                firstRectangle == old(firstRectangle) && secondRectangle == old(secondRectangle)
      ensures old(startPoint).Some? ==> startPoint == None
      ensures old(startPoint).Some? && currentStep == SelectingFirst ==>
                firstRectangle == Some(DesiredSelection(old(startPoint).value, clickedPoint, desiredWidth)) &&
                secondRectangle == old(secondRectangle)
      ensures old(startPoint).Some? && currentStep == SelectingSecond ==>
                secondRectangle == Some(DesiredSelection(old(startPoint).value, clickedPoint, desiredWidth)) &&
                firstRectangle == old(firstRectangle)
      ensures old(startPoint).Some? && currentStep == Done ==>
                firstRectangle == old(firstRectangle) && secondRectangle == old(secondRectangle)
    {
      if startPoint.None? {
        startPoint := Some(clickedPoint);
        if desiredLeft > 0 {
          startPoint := Some(Point(desiredLeft, startPoint.value.y));
        }
      } else if endPoint.None? {
        endPoint := Some(clickedPoint);
        var rect := DesiredSelection(startPoint.value, endPoint.value, desiredWidth);
        if currentStep == SelectingFirst {
          firstRectangle := Some(rect);
        } else if currentStep == SelectingSecond {
          secondRectangle := Some(rect);
        }
        startPoint := None;
        endPoint := None;
      }
    }

    /** ClearSelection: the start point returns to the desired corner (or none), the
        second rectangle goes, and the first goes too unless it came from review. */
    method ClearSelection()
      modifies this`startPoint, this`endPoint, this`firstRectangle, this`secondRectangle, this`currentStep
      ensures Valid()
      ensures startPoint == (if desiredLeft > 0 && desiredTop > 0 then Some(Point(desiredLeft, desiredTop)) else None)
      ensures secondRectangle == None
      ensures reviewFirstRegion.None? ==> firstRectangle == None && currentStep == SelectingFirst
      ensures reviewFirstRegion.Some? ==> firstRectangle == old(firstRectangle) && currentStep == SelectingSecond
    {
      if desiredLeft > 0 && desiredTop > 0 {
        startPoint := Some(Point(desiredLeft, desiredTop));
      } else {
        startPoint := None;
      }
      endPoint := None;
      if reviewFirstRegion.None? {
        firstRectangle := None;
        currentStep := SelectingFirst;
      } else {
        currentStep := SelectingSecond;
      }
      secondRectangle := None;
    }

    method SetActiveRectangle(rect: Rect)
      modifies this`firstRectangle, this`secondRectangle
      ensures (firstRectangle, secondRectangle) == SetActive(currentStep, old(firstRectangle), old(secondRectangle), rect)
    {
      if currentStep == SelectingSecond && secondRectangle.Some? {
        secondRectangle := Some(rect);
      } else if firstRectangle.Some? {
        firstRectangle := Some(rect);
      }
    }

    /** LeftArrowClicked: nothing on an empty active rectangle or with a desired left
        edge; otherwise the active rectangle nudged left is written back. */
    method LeftArrowClicked()
      modifies this`firstRectangle, this`secondRectangle
      ensures var a := ActiveRectangle(currentStep, old(firstRectangle), old(secondRectangle));
              if a.IsEmpty() || desiredLeft > 0 then firstRectangle == old(firstRectangle) && secondRectangle == old(secondRectangle)
              else (firstRectangle, secondRectangle) == SetActive(currentStep, old(firstRectangle), old(secondRectangle), NudgeLeft(a, currentMode))
    {
      var rect := GetActiveRectangle();
      if rect.IsEmpty() {
        return;
      }
      if desiredLeft > 0 {
        return;
      }
      match currentMode {
        case Move => rect := rect.(x := rect.x - 1);
        case Resize => rect := rect.(width := Max(1, rect.width - 1));
        case AdjustEdges =>
          rect := rect.(x := rect.x + 1);
          rect := rect.(width := Max(1, rect.width - 1));
      }
      SetActiveRectangle(rect);
    }

    method RightArrowClicked()
      modifies this`firstRectangle, this`secondRectangle
      ensures var a := ActiveRectangle(currentStep, old(firstRectangle), old(secondRectangle));
              if a.IsEmpty() || desiredLeft > 0 then firstRectangle == old(firstRectangle) && secondRectangle == old(secondRectangle)
              else (firstRectangle, secondRectangle) == SetActive(currentStep, old(firstRectangle), old(secondRectangle), NudgeRight(a, currentMode))
    {
      var rect := GetActiveRectangle();
      if rect.IsEmpty() {
        return;
      }
      if desiredLeft > 0 {
        return;
      }
      match currentMode {
        case Move => rect := rect.(x := rect.x + 1);
        case Resize => rect := rect.(width := rect.width + 1);
        case AdjustEdges =>
          rect := rect.(x := rect.x - 1);
          rect := rect.(width := rect.width + 1);
      }
      SetActiveRectangle(rect);
    }

    method UpArrowClicked()
      modifies this`firstRectangle, this`secondRectangle
      ensures var a := ActiveRectangle(currentStep, old(firstRectangle), old(secondRectangle));
              if a.IsEmpty() then firstRectangle == old(firstRectangle) && secondRectangle == old(secondRectangle)
              else (firstRectangle, secondRectangle) == SetActive(currentStep, old(firstRectangle), old(secondRectangle), NudgeUp(a, currentMode))
    {
      var rect := GetActiveRectangle();
      if rect.IsEmpty() {
        return;
      }
      match currentMode {
        case Move => rect := rect.(y := rect.y - 1);
        case Resize => rect := rect.(height := Max(1, rect.height - 1));
        case AdjustEdges =>
          rect := rect.(y := rect.y + 1);
          rect := rect.(height := Max(1, rect.height - 1));
      }
      SetActiveRectangle(rect);
    }

    method DownArrowClicked()
      modifies this`firstRectangle, this`secondRectangle
      ensures var a := ActiveRectangle(currentStep, old(firstRectangle), old(secondRectangle));
              if a.IsEmpty() then firstRectangle == old(firstRectangle) && secondRectangle == old(secondRectangle)
              else (firstRectangle, secondRectangle) == SetActive(currentStep, old(firstRectangle), old(secondRectangle), NudgeDown(a, currentMode))
    {
      var rect := GetActiveRectangle();
      if rect.IsEmpty() {
        return;
      }
      match currentMode {
        case Move => rect := rect.(y := rect.y + 1);
        case Resize => rect := rect.(height := rect.height + 1);
        case AdjustEdges =>
          rect := rect.(y := rect.y - 1);
          rect := rect.(height := rect.height + 1);
      }
      SetActiveRectangle(rect);
    }

    /** BeginSecondRegion: moves on once a first rectangle exists. */
    method BeginSecondRegion()
      modifies this`currentStep
      ensures currentStep == (if firstRectangle.Some? then SelectingSecond else old(currentStep))
    {
      if firstRectangle.Some? {
        currentStep := SelectingSecond;
      }
    }
  }
}
