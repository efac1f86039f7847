/** The multi-region selector: regions of an image are picked one after another by two
    clicks each and nudged with the arrow keys; function keys commit the current region,
    remove the last one, pick the rest of the image below the last one, and complete the
    list for the parent. With SelectEdgesOnly every region spans the full image width and
    only its top and bottom are chosen. */
module MultiRegionSelector {
  import opened Wrappers
  import opened Drawing
  import opened Selection
  import opened CropHelper

  const DefaultMode: AdjustmentMode := Move

  /** The component's state apart from its image. `completedLog` holds the lists passed
      to OnCompleted, in order. */
  datatype MultiState = MultiState(
    selectEdgesOnly: bool,
    showCropped: bool,
    regions: seq<Rect>,
    completed: bool,
    currentRegion: Rect,
    startPoint: Option<Point>,
    endPoint: Option<Point>,
    mode: AdjustmentMode,
    completedLog: seq<seq<Rect>>)

  /** Every handler that places an end point clears both points straight away. */
  predicate Valid(s: MultiState)
  {
    s.endPoint.None?
  }

  function ClearSelectionStep(s: MultiState): (r: MultiState)
    ensures r == s.(startPoint := None, endPoint := None, currentRegion := Empty)
  {
    s.(startPoint := None, endPoint := None, currentRegion := Empty)
  }

  /** StartNewRegion: commits a non-empty current region and clears the selection. */
  function StartNewRegionStep(s: MultiState): (r: MultiState)
    ensures s.currentRegion.IsEmpty() ==> r == s
    ensures !s.currentRegion.IsEmpty() ==>
              r == s.(regions := s.regions + [s.currentRegion], startPoint := None, endPoint := None, currentRegion := Empty)
  {
    if s.currentRegion.IsEmpty() then s
    else ClearSelectionStep(s.(regions := s.regions + [s.currentRegion]))
  }

  /** RemoveLastRegion: drops the last region, only when there is one and the list is
      not completed. */
  function RemoveLastRegionStep(s: MultiState): (r: MultiState)
    ensures |s.regions| == 0 || s.completed ==> r == s
    ensures |s.regions| > 0 && !s.completed ==>
              r == s.(regions := s.regions[..|s.regions| - 1], startPoint := None, endPoint := None, currentRegion := Empty)
  {
    if |s.regions| > 0 && !s.completed then ClearSelectionStep(s.(regions := s.regions[..|s.regions| - 1]))
    else s
  }

  /** Complete: with nothing chosen the whole image is the one region; a half-made
      selection blocks; otherwise the regions, with a non-empty current region added,
      are emitted. Neither `completed` nor the current region is reset. */
  function CompleteStep(s: MultiState, naturalWidth: int, naturalHeight: int): (r: MultiState)
    ensures s.currentRegion.IsEmpty() && |s.regions| == 0 ==>
              r == s.(completedLog := s.completedLog + [[Rect(0, 0, naturalWidth, naturalHeight)]])
    ensures !(s.currentRegion.IsEmpty() && |s.regions| == 0) && s.startPoint.Some? && s.endPoint.None? ==> r == s
    ensures !(s.currentRegion.IsEmpty() && |s.regions| == 0) && !(s.startPoint.Some? && s.endPoint.None?) ==>
              var emitted := if s.currentRegion.IsEmpty() then s.regions else s.regions + [s.currentRegion];
              r == s.(regions := emitted, completedLog := s.completedLog + [emitted])
  {
    if s.currentRegion.IsEmpty() && |s.regions| == 0 then
      s.(completedLog := s.completedLog + [[Rect(0, 0, naturalWidth, naturalHeight)]])
    else if s.startPoint.Some? && s.endPoint.None? then s
    else if s.currentRegion.IsEmpty() then s.(completedLog := s.completedLog + [s.regions])
    else
      var regions := s.regions + [s.currentRegion];
      s.(regions := regions, completedLog := s.completedLog + [regions])
  }

  /** CanChooseLastRegion, in the order the source tests; it comes down to SelectEdgesOnly
      with a current region (the later tests never yield true). */
  function CanChooseLastRegion(s: MultiState): (b: bool)
    ensures b <==> s.selectEdgesOnly && !s.currentRegion.IsEmpty()
  {
    if !s.selectEdgesOnly then false
    else if !s.currentRegion.IsEmpty() then true
    else if |s.regions| == 0 then false
    else if s.startPoint.Some? && s.endPoint.None? then false
    else if s.currentRegion.IsEmpty() then false
    else true
  }

  /** ChooseLastRegion: commits the current region and selects from its bottom-left
      corner to the image's bottom-right corner. (The source commits only a non-empty
      region, and StartNewRegion itself does nothing on an empty one.) */
  function ChooseLastRegionStep(s: MultiState, naturalWidth: int, naturalHeight: int): (r: MultiState)
    ensures !CanChooseLastRegion(s) ==> r == s
    ensures CanChooseLastRegion(s) ==>
              r.regions == s.regions + [s.currentRegion] &&
              r.currentRegion == SelectionRectangle(Point(s.currentRegion.x, s.currentRegion.Bottom()), Point(naturalWidth, naturalHeight)) &&
              r.startPoint == None && r.endPoint == None &&
              r.mode == s.mode && r.completedLog == s.completedLog && r.showCropped == s.showCropped &&
              r.completed == s.completed && r.selectEdgesOnly == s.selectEdgesOnly
  {
    if !CanChooseLastRegion(s) then s
    else
      var committed := StartNewRegionStep(s);
      var recent := committed.regions[|committed.regions| - 1];
      var rect := SelectionRectangle(Point(recent.x, recent.Bottom()), Point(naturalWidth, naturalHeight));
      committed.(currentRegion := rect, startPoint := None, endPoint := None)
  }

  /** AssistChooseNextRegion: with SelectEdgesOnly and no points, commits a current region
      and places the start point below the last region, or at the origin. */
  function AssistChooseNextRegionStep(s: MultiState): (r: MultiState)
    ensures !s.selectEdgesOnly || s.startPoint.Some? || s.endPoint.Some? ==> r == s
    ensures s.selectEdgesOnly && s.startPoint.None? && s.endPoint.None? ==>
              var committed := StartNewRegionStep(s);
              r == committed.(startPoint := Some(
                     if |committed.regions| == 0 then Point(0, 0)
                     else Point(committed.regions[|committed.regions| - 1].x, committed.regions[|committed.regions| - 1].Bottom())))
  {
    if !s.selectEdgesOnly then s
    else if s.startPoint.Some? || s.endPoint.Some? then s
    else
      var committed := if !s.currentRegion.IsEmpty() then StartNewRegionStep(s) else s;
      if |committed.regions| == 0 then committed.(startPoint := Some(Point(0, 0)))
      else
        var lasts := committed.regions[|committed.regions| - 1];
        committed.(startPoint := Some(Point(lasts.x, lasts.Bottom())))
  }

  /** HandleClick: the first click sets the start point (at x = 0 with SelectEdgesOnly);
      the second makes the selection the current region (out to the image's right edge
      with SelectEdgesOnly) and clears the points; with both set nothing changes. */
  function HandleClickStep(s: MultiState, clickedPoint: Point, naturalWidth: int): (r: MultiState)
    ensures s.startPoint.None? ==>
              r == s.(startPoint := Some(if s.selectEdgesOnly then Point(0, clickedPoint.y) else clickedPoint))
    ensures s.startPoint.Some? && s.endPoint.None? ==>
              var end := if s.selectEdgesOnly then Point(naturalWidth, clickedPoint.y) else clickedPoint;
              r == s.(currentRegion := SelectionRectangle(s.startPoint.value, end), startPoint := None, endPoint := None)
    ensures s.startPoint.Some? && s.endPoint.Some? ==> r == s
  {
    if s.startPoint.None? then
      s.(startPoint := Some(if s.selectEdgesOnly then Point(0, clickedPoint.y) else clickedPoint))
    else if s.endPoint.None? then
      var end := if s.selectEdgesOnly then Point(naturalWidth, clickedPoint.y) else clickedPoint;
      s.(currentRegion := SelectionRectangle(s.startPoint.value, end), startPoint := None, endPoint := None)
    else s
  }

  /** SetMode: SelectEdgesOnly turns every request into Resize. */
  function SetModeStep(s: MultiState, newMode: AdjustmentMode): (r: MultiState)
    ensures r == s.(mode := r.mode)
    ensures s.selectEdgesOnly ==> r.mode == Resize
    ensures !s.selectEdgesOnly ==> r.mode == newMode
  {
    var m := if s.selectEdgesOnly then Resize else newMode;
    if s.mode != m then s.(mode := m) else s
  }

  function ArrowLeft(s: MultiState): (r: MultiState)
    ensures s.selectEdgesOnly || s.currentRegion.IsEmpty() ==> r == s
    ensures !s.selectEdgesOnly && !s.currentRegion.IsEmpty() ==> r == s.(currentRegion := NudgeLeft(s.currentRegion, s.mode))
  {
    if s.selectEdgesOnly || s.currentRegion.IsEmpty() then s
    else s.(currentRegion := NudgeLeft(s.currentRegion, s.mode))
  }

  function ArrowRight(s: MultiState): (r: MultiState)
    ensures s.selectEdgesOnly || s.currentRegion.IsEmpty() ==> r == s
    ensures !s.selectEdgesOnly && !s.currentRegion.IsEmpty() ==> r == s.(currentRegion := NudgeRight(s.currentRegion, s.mode))
  {
    if s.selectEdgesOnly || s.currentRegion.IsEmpty() then s
    else s.(currentRegion := NudgeRight(s.currentRegion, s.mode))
  }

  function ArrowUp(s: MultiState): (r: MultiState)
    ensures s.currentRegion.IsEmpty() ==> r == s
    ensures !s.currentRegion.IsEmpty() ==> r == s.(currentRegion := NudgeUp(s.currentRegion, s.mode))
  {
    if s.currentRegion.IsEmpty() then s
    else s.(currentRegion := NudgeUp(s.currentRegion, s.mode))
  }

  /** DownArrowClicked: with SelectEdgesOnly a region that reaches the image's bottom does
      not move. */
  function ArrowDown(s: MultiState, naturalHeight: int): (r: MultiState)
    ensures s.currentRegion.IsEmpty() || (s.selectEdgesOnly && naturalHeight == s.currentRegion.Bottom()) ==> r == s
    ensures !s.currentRegion.IsEmpty() && !(s.selectEdgesOnly && naturalHeight == s.currentRegion.Bottom()) ==>
              r == s.(currentRegion := NudgeDown(s.currentRegion, s.mode))
  {
    if s.currentRegion.IsEmpty() then s
    else if s.selectEdgesOnly && naturalHeight == s.currentRegion.Bottom() then s
    else s.(currentRegion := NudgeDown(s.currentRegion, s.mode))
  }

  /** Keys_KeyUp */
  function KeyUpStep(s: MultiState, key: Key, naturalWidth: int, naturalHeight: int): (r: MultiState)
    ensures r.selectEdgesOnly == s.selectEdgesOnly
    ensures key != F6 ==> r.completedLog == s.completedLog
    ensures key == F6 ==> r.completedLog == s.completedLog || |r.completedLog| == |s.completedLog| + 1
  {
    if s.completed then s
    else if s.showCropped then (if key == F5 then s.(showCropped := false) else s)
    else match key
      case Down => ArrowDown(s, naturalHeight)
      case Up => ArrowUp(s)
      case Left => ArrowLeft(s)
      case Right => ArrowRight(s)
      case F1 => SetModeStep(s, Move)
      case F2 => SetModeStep(s, Resize)
      case F3 => SetModeStep(s, AdjustEdges)
      case F4 => StartNewRegionStep(s)
      case F5 => StartNewRegionStep(s).(showCropped := true)
      case F6 => CompleteStep(s, naturalWidth, naturalHeight)
      case F7 => RemoveLastRegionStep(s)
      case F8 => ChooseLastRegionStep(s, naturalWidth, naturalHeight)
      case F9 => AssistChooseNextRegionStep(s)
      case _ => s
  }

  /** OnParametersSetAsync on the state: points, completion and regions are cleared
      (the current region is kept), SelectEdgesOnly forces Resize and assists the first
      region. */
  function ParametersSetStep(s: MultiState, selectEdgesOnly: bool): (r: MultiState)
    ensures r.selectEdgesOnly == selectEdgesOnly && !r.completed && r.endPoint.None?
    ensures r.completedLog == s.completedLog && r.showCropped == s.showCropped
    ensures !selectEdgesOnly ==> r.regions == [] && r.startPoint.None? && r.currentRegion == s.currentRegion && r.mode == s.mode
    ensures selectEdgesOnly ==> r.mode == Resize
  {
    var reset := ParametersResetStep(s, selectEdgesOnly);
    if selectEdgesOnly then AssistChooseNextRegionStep(reset) else reset
  }

  /** The resets before the image is loaded. */
  function ParametersResetStep(s: MultiState, selectEdgesOnly: bool): (r: MultiState)
    ensures r.selectEdgesOnly == selectEdgesOnly && !r.completed
    ensures r.regions == [] && r.startPoint.None? && r.endPoint.None?
    ensures r.currentRegion == s.currentRegion && r.completedLog == s.completedLog && r.showCropped == s.showCropped
    ensures r.mode == (if selectEdgesOnly then Resize else s.mode)
  {
    var cleared := s.(selectEdgesOnly := selectEdgesOnly, startPoint := None, completed := false, regions := [], endPoint := None);
    if selectEdgesOnly then cleared.(mode := Resize) else cleared
  }

  // ---------------------------------------------------------------------------------
  // Properties of the key handling.

  /** Once completed, every key is ignored; while the cropped view shows, only F5 acts,
      and it only closes that view. */
  lemma KeysGated(s: MultiState, key: Key, naturalWidth: int, naturalHeight: int)
    ensures s.completed ==> KeyUpStep(s, key, naturalWidth, naturalHeight) == s
    ensures !s.completed && s.showCropped ==>
              KeyUpStep(s, key, naturalWidth, naturalHeight) == (if key == F5 then s.(showCropped := false) else s)
  {
  }

  /** No key sets `completed`, and every key keeps the end point cleared. */
  lemma KeyUpPreserves(s: MultiState, key: Key, naturalWidth: int, naturalHeight: int)
    requires Valid(s)
    ensures Valid(KeyUpStep(s, key, naturalWidth, naturalHeight))
    ensures KeyUpStep(s, key, naturalWidth, naturalHeight).completed == s.completed
  {
  }

  /** The region list changes only by appending the current region (F4, F5, F6, F8, F9)
      or by dropping its last element (F7). */
  lemma RegionsChangeOnlyByCurrentOrLast(s: MultiState, key: Key, naturalWidth: int, naturalHeight: int)
    ensures var r := KeyUpStep(s, key, naturalWidth, naturalHeight).regions;
            r == s.regions || r == s.regions + [s.currentRegion] ||
            (key == F7 && |s.regions| > 0 && r == s.regions[..|s.regions| - 1])
  {
  }

  /** Removing the last region right after committing one gives the list back. */
  lemma RemoveUndoesStart(s: MultiState)
    requires !s.currentRegion.IsEmpty() && !s.completed
    ensures RemoveLastRegionStep(StartNewRegionStep(s)).regions == s.regions
  {
    assert (s.regions + [s.currentRegion])[..|s.regions|] == s.regions;
  }

  /** With SelectEdgesOnly two clicks from scratch select the full image width between
      the two clicked rows. */
  lemma EdgesOnlyClicksSpanWidth(s: MultiState, p1: Point, p2: Point, naturalWidth: int)
    requires Valid(s) && s.selectEdgesOnly && s.startPoint.None? && naturalWidth >= 0
    ensures var r := HandleClickStep(HandleClickStep(s, p1, naturalWidth), p2, naturalWidth);
            r.currentRegion == Rect(0, Min(p1.y, p2.y), naturalWidth, Abs(p1.y - p2.y)) &&
            r.startPoint.None? && r.endPoint.None? && r.regions == s.regions
  {
  }

  /** Complete emits exactly the committed regions and appends a non-empty current
      region without clearing it, so completing twice repeats that region. */
  lemma CompleteTwiceRepeatsCurrent(s: MultiState, naturalWidth: int, naturalHeight: int)
    requires !s.currentRegion.IsEmpty() && s.startPoint.None?
    ensures var once := CompleteStep(s, naturalWidth, naturalHeight);
            var twice := CompleteStep(once, naturalWidth, naturalHeight);
            twice.completedLog == s.completedLog + [s.regions + [s.currentRegion], s.regions + [s.currentRegion, s.currentRegion]]
  {
    var once := CompleteStep(s, naturalWidth, naturalHeight);
    assert once.regions == s.regions + [s.currentRegion];
    assert once.regions + [s.currentRegion] == s.regions + [s.currentRegion, s.currentRegion];
  }

  /** On a new parameter set with SelectEdgesOnly, a current region left from before is
      committed as the first region and the next one starts below it. */
  lemma ParametersSetCommitsLeftoverRegion(s: MultiState)
    ensures var r := ParametersSetStep(s, true);
            (s.currentRegion.IsEmpty() ==> r.regions == [] && r.startPoint == Some(Point(0, 0))) &&
            (!s.currentRegion.IsEmpty() ==>
               r.regions == [s.currentRegion] && r.currentRegion == Empty &&
               r.startPoint == Some(Point(s.currentRegion.x, s.currentRegion.Bottom())))
  {
  }

  // ---------------------------------------------------------------------------------

  class MultiRegionSelectorComponent {
    // parameters
    var imagePath: string
    var selectEdgesOnly: bool
    // state
    var showCropped: bool
    var regions: seq<Rect>
    var completed: bool
    var currentRegion: Rect
    var startPoint: Option<Point>
    var endPoint: Option<Point>
    var currentMode: AdjustmentMode
    var completedLog: seq<seq<Rect>>
    var lastImagePath: Option<string>
    const cropHelper: ImageCropHelper

    function Model(): MultiState
      reads this
    {
      MultiState(selectEdgesOnly, showCropped, regions, completed, currentRegion, startPoint, endPoint, currentMode, completedLog)
    }

    constructor ()
      ensures fresh(cropHelper) && lastImagePath == None
      ensures Model() == MultiState(false, false, [], false, Empty, None, None, DefaultMode, [])
    {
      imagePath, selectEdgesOnly := "", false;
      showCropped, regions, completed, currentRegion := false, [], false, Empty;
      startPoint, endPoint, currentMode, completedLog := None, None, DefaultMode, [];
      lastImagePath := None;
      cropHelper := new ImageCropHelper();
    }

    method KeyUp(key: Key)
      modifies this`showCropped, this`regions, this`currentRegion, this`startPoint, this`endPoint
      modifies this`currentMode, this`completedLog
      ensures Model() == KeyUpStep(old(Model()), key, cropHelper.naturalWidth, cropHelper.naturalHeight)
    {
      if completed {
        return;
      }
      if showCropped {
        if key == F5 {
          showCropped := false;
        }
        return;
      }
      match key {
        case Down => DownArrowClicked();
        case Up => UpArrowClicked();
        case Left => LeftArrowClicked();
        case Right => RightArrowClicked();
        case F1 => SetMode(Move);
        case F2 => SetMode(Resize);
        case F3 => SetMode(AdjustEdges);
        case F4 => StartNewRegion();
        case F5 =>
          StartNewRegion();
          showCropped := true;
        case F6 => Complete();
        case F7 => RemoveLastRegion();
        case F8 => ChooseLastRegion();
        case F9 => AssistChooseNextRegion();
        case _ =>
      }
    }

    method ChooseLastRegion()
      modifies this`regions, this`currentRegion, this`startPoint, this`endPoint
      ensures Model() == ChooseLastRegionStep(old(Model()), cropHelper.naturalWidth, cropHelper.naturalHeight)
    {
      if !CanChooseLastRegion(Model()) {
        return;
      }
      if !currentRegion.IsEmpty() {
        StartNewRegion();
      }
      var width := cropHelper.GetNaturalSize().0;
      var height := cropHelper.GetNaturalSize().1;
      var recent := regions[|regions| - 1];
      startPoint := Some(Point(recent.x, recent.Bottom()));
      endPoint := Some(Point(width, height));
      currentRegion := SelectionRectangle(startPoint.value, endPoint.value);
      startPoint := None;
      endPoint := None;
    }

    method AssistChooseNextRegion()
      modifies this`regions, this`currentRegion, this`startPoint, this`endPoint
      ensures Model() == AssistChooseNextRegionStep(old(Model()))
    {
      if !selectEdgesOnly {
        return;
      }
      if startPoint.Some? || endPoint.Some? {
        return;
      }
      if !currentRegion.IsEmpty() {
        StartNewRegion();
      }
      if |regions| == 0 {
        startPoint := Some(Point(0, 0));
        return;
      }
      var lasts := regions[|regions| - 1];
      startPoint := Some(Point(lasts.x, lasts.Bottom()));
    }

    method RemoveLastRegion()
      modifies this`regions, this`currentRegion, this`startPoint, this`endPoint
      ensures Model() == RemoveLastRegionStep(old(Model()))
    {
      if |regions| > 0 && !completed {
        regions := regions[..|regions| - 1];
        ClearSelection();
      }
    }

    method StartNewRegion()
      modifies this`regions, this`currentRegion, this`startPoint, this`endPoint
      ensures Model() == StartNewRegionStep(old(Model()))
    {
      if currentRegion.IsEmpty() {
        return;
      }
      regions := regions + [currentRegion];
      ClearSelection();
    }

    method Complete()
      modifies this`regions, this`completedLog
      ensures Model() == CompleteStep(old(Model()), cropHelper.naturalWidth, cropHelper.naturalHeight)
    {
      if currentRegion.IsEmpty() && |regions| == 0 {
        var width := cropHelper.GetNaturalSize().0;
        var height := cropHelper.GetNaturalSize().1;
        var bounds := Rect(0, 0, width, height);
        completedLog := completedLog + [[bounds]];
        return;
      }
      if startPoint.Some? && endPoint.None? {
        return;
      }
      if currentRegion.IsEmpty() {
        completedLog := completedLog + [regions];
        return;
      }
      regions := regions + [currentRegion];
      completedLog := completedLog + [regions];
    }

    /** Sets the parameters and runs OnParametersSetAsync. */
    method OnParametersSet(path: string, edgesOnly: bool, fileExists: bool, bitmapWidth: int, bitmapHeight: int)
      modifies this`imagePath, this`selectEdgesOnly, this`regions, this`completed, this`currentRegion
      modifies this`startPoint, this`endPoint, this`currentMode, this`lastImagePath, cropHelper
      ensures imagePath == path
      ensures Model() == ParametersSetStep(old(Model()), edgesOnly)
      ensures ShouldLoad(path, fileExists, old(lastImagePath)) ==>
                lastImagePath == Some(path) && cropHelper.State() == LoadedImage(path, bitmapWidth, bitmapHeight)
      ensures !ShouldLoad(path, fileExists, old(lastImagePath)) ==>
                lastImagePath == old(lastImagePath) && cropHelper.State() == old(cropHelper.State())
    {
      imagePath := path;
      ResetForParameters(edgesOnly);
      if ShouldLoad(imagePath, fileExists, lastImagePath) {
        lastImagePath := Some(imagePath);
        cropHelper.LoadImage(imagePath, bitmapWidth, bitmapHeight);
      }
      if selectEdgesOnly {
        AssistChooseNextRegion();
      }
    }

    method ResetForParameters(edgesOnly: bool)
      modifies this`selectEdgesOnly, this`startPoint, this`completed, this`regions, this`endPoint, this`currentMode
      ensures Model() == ParametersResetStep(old(Model()), edgesOnly)
    {
      selectEdgesOnly := edgesOnly;
      startPoint := None;
      completed := false;
      regions := [];
      endPoint := None;
      if selectEdgesOnly {
        currentMode := Resize;
      }
    }

    method HandleClick(clickedPoint: Point)
      modifies this`currentRegion, this`startPoint, this`endPoint
      ensures Model() == HandleClickStep(old(Model()), clickedPoint, cropHelper.naturalWidth)
    {
      if startPoint.None? {
        startPoint := Some(clickedPoint);
        if selectEdgesOnly {
          startPoint := Some(Point(0, clickedPoint.y));
        }
      } else if endPoint.None? {
        endPoint := Some(clickedPoint);
        if selectEdgesOnly {
          var width := cropHelper.GetNaturalSize().0;
          endPoint := Some(Point(width, clickedPoint.y));
        }
        currentRegion := SelectionRectangle(startPoint.value, endPoint.value);
        startPoint := None;
        endPoint := None;
      }
    }

    method ClearSelection()
      modifies this`currentRegion, this`startPoint, this`endPoint
      ensures Model() == ClearSelectionStep(old(Model()))
    {
      startPoint := None;
      endPoint := None;
      currentRegion := Empty;
    }

    method SetMode(newMode: AdjustmentMode)
      modifies this`currentMode
      ensures Model() == SetModeStep(old(Model()), newMode)
    {
      var mode := newMode;
      if selectEdgesOnly {
        mode := Resize;
      }
      if currentMode != mode {
        currentMode := mode;
      }
    }

    method LeftArrowClicked()
      modifies this`currentRegion
      ensures Model() == ArrowLeft(old(Model()))
    {
      if selectEdgesOnly {
        return;
      }
      var rect := currentRegion;
      if rect.IsEmpty() {
        return;
      }
      match currentMode {
        case Move => rect := rect.(x := rect.x - 1);
        case Resize => rect := rect.(width := Max(1, rect.width - 1));
        case AdjustEdges =>
          rect := rect.(x := rect.x + 1);
          rect := rect.(width := Max(1, rect.width - 1));
      }
      currentRegion := rect;
    }

    method RightArrowClicked()
      modifies this`currentRegion
      ensures Model() == ArrowRight(old(Model()))
    {
      if selectEdgesOnly {
        return;
      }
      var rect := currentRegion;
      if rect.IsEmpty() {
        return;
      }
      match currentMode {
        case Move => rect := rect.(x := rect.x + 1);
        case Resize => rect := rect.(width := rect.width + 1);
        case AdjustEdges =>
          rect := rect.(x := rect.x - 1);
          rect := rect.(width := rect.width + 1);
      }
      currentRegion := rect;
    }

    method UpArrowClicked()
      modifies this`currentRegion
      ensures Model() == ArrowUp(old(Model()))
    {
      var rect := currentRegion;
      if rect.IsEmpty() {
        return;
      }
      match currentMode {
        case Move => rect := rect.(y := rect.y - 1);
        case Resize => rect := rect.(height := Max(1, rect.height - 1));
        case AdjustEdges =>
          rect := rect.(y := rect.y + 1);
          rect := rect.(height := Max(1, rect.height - 1));
      }
      currentRegion := rect;
    }

    method DownArrowClicked()
      modifies this`currentRegion
      ensures Model() == ArrowDown(old(Model()), cropHelper.naturalHeight)
    {
      var rect := currentRegion;
      if rect.IsEmpty() {
        return;
      }
      if selectEdgesOnly {
        var height := cropHelper.GetNaturalSize().1;
        if height == rect.Bottom() {
          return;
        }
      }
      match currentMode {
        case Move => rect := rect.(y := rect.y + 1);
        case Resize => rect := rect.(height := rect.height + 1);
        case AdjustEdges =>
          rect := rect.(y := rect.y - 1);
          rect := rect.(height := rect.height + 1);
      }
      currentRegion := rect;
    }
  }
}
