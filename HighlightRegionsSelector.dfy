/** The highlight-regions selector: inside one region of an image the user marks
    highlight rectangles by two clicks, nudges them with the arrow keys, may repeat one
    highlight for later images, may take a suggestion just below the previous image's
    highlight, and completes the list for the parent. Regions recorded as repeated for
    this image and bounds are added automatically when the parameters are set. */
module HighlightRegionsSelector {
  import opened Wrappers
  import opened Drawing
  import opened Selection
  import opened CropHelper

  const DefaultMode: AdjustmentMode := Move
  const RepeatedColor := "rgba(0, 0, 0, 0.15);"
  const HighlightColor := "rgba(0, 0, 255, 0.15);"

  /** RepeatedRegionModel: a highlight to reuse for an image path and region bounds. */
  datatype RepeatedRegion = RepeatedRegion(imagePath: string, originalBounds: Rect, repeatedHighlight: Rect)

  /** ImageHightlightResult: what OnCompleted receives. */
  datatype HighlightResult = HighlightResult(highlightedRegions: seq<Rect>, repeatedRegions: seq<RepeatedRegion>)

  /** The component's parameters and state apart from its image; `completedLog` holds the
      results passed to OnCompleted, in order. */
  datatype RegionsState = RegionsState(
    desiredImagePath: string,
    bounds: Rect,
    repeatRegionList: seq<RepeatedRegion>,
    previousHighlightRegion: Rect,
    regions: seq<Rect>,
    completed: bool,
    currentRegion: Rect,
    startPoint: Option<Point>,
    endPoint: Option<Point>,
    mode: AdjustmentMode,
    currentRepeatList: seq<RepeatedRegion>,
    alreadyRepeated: bool,
    alreadySuggested: bool,
    lastSuggestion: Rect,
    completedLog: seq<HighlightResult>)

  /** The parameters the parent sets: image path, bounds, repeat list and previous highlight. */
  function Params(s: RegionsState): (string, Rect, seq<RepeatedRegion>, Rect)
  {
    (s.desiredImagePath, s.bounds, s.repeatRegionList, s.previousHighlightRegion)
  }

  /** IsProperRectangleEqual: all four fields agree. */
  function IsProperRectangleEqual(original: Rect, repeat: Rect): (b: bool)
    ensures b <==> original == repeat
  {
    original.x == repeat.x && original.y == repeat.y &&
    original.width == repeat.width && original.height == repeat.height
  }

  /** Whether some entry of `list` repeats the highlight `item`. */
  function AnyRepeats(list: seq<RepeatedRegion>, item: Rect): (b: bool)
    ensures b <==> exists i :: 0 <= i < |list| && list[i].repeatedHighlight == item
  {
    if |list| == 0 then false
    else
      if IsProperRectangleEqual(list[0].repeatedHighlight, item) then true
      else
        var b := AnyRepeats(list[1..], item);
        assert forall i :: 1 <= i < |list| ==> list[i] == list[1..][i - 1];
        b
  }

  /** GetHighlightColor: the repeated colour exactly when the region is a repeated
      highlight of either repeat list. */
  function GetHighlightColor(s: RegionsState, item: Rect): (color: string)
    ensures color == RepeatedColor || color == HighlightColor
    ensures color == RepeatedColor <==>
              (exists i :: 0 <= i < |s.repeatRegionList| && s.repeatRegionList[i].repeatedHighlight == item) ||
              (exists i :: 0 <= i < |s.currentRepeatList| && s.currentRepeatList[i].repeatedHighlight == item)
  {
    var isRepeated := AnyRepeats(s.repeatRegionList, item) || AnyRepeats(s.currentRepeatList, item);
    if isRepeated then RepeatedColor else HighlightColor
  }

  /** The test PossibleAutomateRepeatedRegions applies to each entry. */
  predicate MatchesImage(item: RepeatedRegion, lastImagePath: Option<string>, bounds: Rect): (b: bool)
    ensures b <==> lastImagePath == Some(item.imagePath) && item.originalBounds == bounds
  {
    Some(item.imagePath) == lastImagePath && IsProperRectangleEqual(bounds, item.originalBounds)
  }

  /** The index FirstOrDefault finds: the first matching entry, if any. */
  function FirstMatch(list: seq<RepeatedRegion>, lastImagePath: Option<string>, bounds: Rect): (r: Option<nat>)
    ensures r.None? <==> forall j :: 0 <= j < |list| ==> !MatchesImage(list[j], lastImagePath, bounds)
    ensures r.Some? ==> r.value < |list| && MatchesImage(list[r.value], lastImagePath, bounds)
    ensures r.Some? ==> forall j :: 0 <= j < r.value ==> !MatchesImage(list[j], lastImagePath, bounds)
  {
    if |list| == 0 then None
    else if MatchesImage(list[0], lastImagePath, bounds) then Some(0)
    else
      var rest := FirstMatch(list[1..], lastImagePath, bounds);
      assert forall j :: 1 <= j < |list| ==> list[j] == list[1..][j - 1];
      if rest.None? then None else Some(rest.value + 1)
  }

  /** ClearSelection(manuallyDone): empties the points and the current region; clearing a
      suggestion by hand allows another one. */
  function ClearSelectionStep(s: RegionsState, manuallyDone: bool): (r: RegionsState)
    ensures r.startPoint.None? && r.endPoint.None? && r.currentRegion == Empty
    ensures r.alreadySuggested == (s.alreadySuggested && !(manuallyDone && s.currentRegion == s.lastSuggestion))
    ensures r == s.(startPoint := None, endPoint := None, currentRegion := Empty, alreadySuggested := r.alreadySuggested)
  {
    var cleared := s.(startPoint := None, endPoint := None);
    var reenabled := if IsProperRectangleEqual(cleared.currentRegion, cleared.lastSuggestion) && manuallyDone
                     then cleared.(alreadySuggested := false) else cleared;
    reenabled.(currentRegion := Empty)
  }

  /** StartNewRegion: commits a non-empty current region. */
  function StartNewRegionStep(s: RegionsState): (r: RegionsState)
    ensures s.currentRegion.IsEmpty() ==> r == s
    ensures !s.currentRegion.IsEmpty() ==>
              r == s.(regions := s.regions + [s.currentRegion], startPoint := None, endPoint := None, currentRegion := Empty)
  {
    if s.currentRegion.IsEmpty() then s
    else ClearSelectionStep(s.(regions := s.regions + [s.currentRegion]), false)
  }

  /** The suggestion: the previous image's highlight moved down by its own height. */
  function Suggestion(previous: Rect): (r: Rect)
    ensures r.x == previous.x && r.width == previous.width && r.height == previous.height
    ensures r.y == previous.Bottom()
  {
    Rect(previous.x, previous.y + previous.height, previous.width, previous.height)
  }

  /** ProcessPossibleSuggestion: at most once until re-enabled; commits a current region,
      then proposes the suggestion unless the previous highlight is empty. */
  function ProcessPossibleSuggestionStep(s: RegionsState): (r: RegionsState)
    ensures s.alreadySuggested ==> r == s
    ensures !s.alreadySuggested && s.previousHighlightRegion.IsEmpty() ==> r == StartNewRegionStep(s)
    ensures !s.alreadySuggested && !s.previousHighlightRegion.IsEmpty() ==>
              r == StartNewRegionStep(s).(alreadySuggested := true,
                                          currentRegion := Suggestion(s.previousHighlightRegion),
                                          lastSuggestion := Suggestion(s.previousHighlightRegion))
  {
    if s.alreadySuggested then s
    else
      var committed := if !s.currentRegion.IsEmpty() then StartNewRegionStep(s) else s;
      if committed.previousHighlightRegion.IsEmpty() then committed
      else
        var p := committed.previousHighlightRegion;
        committed.(alreadySuggested := true,
                   currentRegion := Rect(p.x, p.y + p.height, p.width, p.height),
                   lastSuggestion := Rect(p.x, p.y + p.height, p.width, p.height))
  }

  /** SetRepeatedRegion: records the current region, once, for this image and bounds. */
  function SetRepeatedRegionStep(s: RegionsState): (r: RegionsState)
    ensures s.alreadyRepeated || s.currentRegion.IsEmpty() ==> r == s
    ensures !s.alreadyRepeated && !s.currentRegion.IsEmpty() ==>
              r == s.(alreadyRepeated := true,
                      currentRepeatList := s.currentRepeatList + [RepeatedRegion(s.desiredImagePath, s.bounds, s.currentRegion)])
  {
    if s.alreadyRepeated then s
    else if s.currentRegion.IsEmpty() then s
    else
      var repeat := RepeatedRegion(s.desiredImagePath, s.bounds, s.currentRegion);
      s.(alreadyRepeated := true, currentRepeatList := s.currentRepeatList + [repeat])
  }

  /** FinalSend: emits the regions with the repeat list and marks the selector completed. */
  function FinalSendStep(s: RegionsState, regions: seq<Rect>): (r: RegionsState)
    ensures r.completed
    ensures r.completedLog == s.completedLog + [HighlightResult(regions, s.currentRepeatList)]
    ensures r.regions == s.regions && r.currentRepeatList == s.currentRepeatList && r.currentRegion == Empty
    ensures r.startPoint.None? && r.endPoint.None?
    ensures r == s.(completed := true, startPoint := None, endPoint := None, currentRegion := Empty,
                    completedLog := r.completedLog)
  {
    var result := HighlightResult(regions, s.currentRepeatList);
    var done := ClearSelectionStep(s.(completed := true), false);
    done.(completedLog := done.completedLog + [result])
  }

  /** Complete: needs at least one region and no half-made selection; emits the regions
      with a non-empty current region added. */
  function CompleteStep(s: RegionsState): (r: RegionsState)
    ensures (s.currentRegion.IsEmpty() && |s.regions| == 0) || (s.startPoint.Some? && s.endPoint.None?) ==> r == s
    ensures !(s.currentRegion.IsEmpty() && |s.regions| == 0) && !(s.startPoint.Some? && s.endPoint.None?) ==>
              var emitted := if s.currentRegion.IsEmpty() then s.regions else s.regions + [s.currentRegion];
              r.completed && r.regions == emitted && r.currentRegion == Empty &&
              r.completedLog == s.completedLog + [HighlightResult(emitted, s.currentRepeatList)] &&
              r.currentRepeatList == s.currentRepeatList && r.alreadyRepeated == s.alreadyRepeated &&
              r == s.(regions := emitted, completed := true, startPoint := None, endPoint := None,
                      currentRegion := Empty, completedLog := r.completedLog)
  {
    if s.currentRegion.IsEmpty() && |s.regions| == 0 then s
    else if s.startPoint.Some? && s.endPoint.None? then s
    else if s.currentRegion.IsEmpty() then FinalSendStep(s, s.regions)
    else
      var committed := ClearSelectionStep(s.(regions := s.regions + [s.currentRegion]), false);
      FinalSendStep(committed, committed.regions)
  }

  /** HandleClick: the first click sets the start point, the second makes the selection
      the current region and clears both points. */
  function HandleClickStep(s: RegionsState, clickedPoint: Point): (r: RegionsState)
    ensures s.startPoint.None? ==> r == s.(startPoint := Some(clickedPoint))
    ensures s.startPoint.Some? && s.endPoint.None? ==>
              r == s.(currentRegion := SelectionRectangle(s.startPoint.value, clickedPoint), startPoint := None, endPoint := None)
    ensures s.startPoint.Some? && s.endPoint.Some? ==> r == s
  {
    if s.startPoint.None? then s.(startPoint := Some(clickedPoint))
    else if s.endPoint.None? then
      s.(currentRegion := SelectionRectangle(s.startPoint.value, clickedPoint), startPoint := None, endPoint := None)
    else s
  }

  /** An arrow key: a non-empty current region is nudged in the current mode. */
  function ArrowStep(s: RegionsState, key: Key): (r: RegionsState)
    requires key in {Left, Right, Up, Down}
    ensures s.currentRegion.IsEmpty() ==> r == s
    ensures !s.currentRegion.IsEmpty() ==> r == s.(currentRegion := r.currentRegion)
    ensures !s.currentRegion.IsEmpty() ==>
              r.currentRegion == (match key
                                   case Left => NudgeLeft(s.currentRegion, s.mode)
                                   case Right => NudgeRight(s.currentRegion, s.mode)
                                   case Up => NudgeUp(s.currentRegion, s.mode)
                                   case _ => NudgeDown(s.currentRegion, s.mode))
  {
    if s.currentRegion.IsEmpty() then s
    else if key == Left then s.(currentRegion := NudgeLeft(s.currentRegion, s.mode))
    else if key == Right then s.(currentRegion := NudgeRight(s.currentRegion, s.mode))
    else if key == Up then s.(currentRegion := NudgeUp(s.currentRegion, s.mode))
    else s.(currentRegion := NudgeDown(s.currentRegion, s.mode))
  }

  /** Keys_KeyUp */
  function KeyUpStep(s: RegionsState, key: Key): (r: RegionsState)
    ensures Params(r) == Params(s)
    ensures key != F6 ==> r.completedLog == s.completedLog
  {
    if s.completed then s
    else match key
      case Down => ArrowStep(s, Down)
      case Up => ArrowStep(s, Up)
      case Left => ArrowStep(s, Left)
      case Right => ArrowStep(s, Right)
      case F1 => s.(mode := Move)
      case F2 => s.(mode := Resize)
      case F3 => s.(mode := AdjustEdges)
      case F4 => StartNewRegionStep(s)
      case F5 => SetRepeatedRegionStep(s)
      case F6 => CompleteStep(s)
      case F7 => ProcessPossibleSuggestionStep(s)
      case _ => s
  }

  /** A run of keys pressed one after another. */
  function KeysStep(s: RegionsState, keys: seq<Key>): (r: RegionsState)
    ensures Params(r) == Params(s)
    ensures (forall i :: 0 <= i < |keys| ==> keys[i] != F6) ==> r.completedLog == s.completedLog
    decreases |keys|
  {
    if |keys| == 0 then s else KeysStep(KeyUpStep(s, keys[0]), keys[1..])
  }

  /** The resets at the start of OnParametersSet: points, completion, regions, the repeat
      list and the suggestion (the current region and `alreadyRepeated` are kept). */
  function ParametersResetStep(s: RegionsState, path: string, bounds: Rect, repeatRegionList: seq<RepeatedRegion>,
                               previousHighlightRegion: Rect): (r: RegionsState)
    ensures Params(r) == (path, bounds, repeatRegionList, previousHighlightRegion)
    ensures !r.completed && r.startPoint.None? && r.endPoint.None? && r.regions == [] && r.currentRepeatList == []
    ensures !r.alreadySuggested && r.lastSuggestion == Empty
    ensures r.currentRegion == s.currentRegion && r.alreadyRepeated == s.alreadyRepeated &&
            r.mode == s.mode && r.completedLog == s.completedLog
  {
    s.(desiredImagePath := path, bounds := bounds, repeatRegionList := repeatRegionList,
       previousHighlightRegion := previousHighlightRegion,
       startPoint := None, completed := false, regions := [], currentRepeatList := [],
       endPoint := None, lastSuggestion := Empty, alreadySuggested := false)
  }

  /** PossibleAutomateRepeatedRegions: the highlight of the first repeat entry for the
      last loaded image and the current bounds is added and marks the region repeated. */
  function AutomateRepeatedStep(s: RegionsState, lastImagePath: Option<string>): (r: RegionsState)
    ensures var m := FirstMatch(s.repeatRegionList, lastImagePath, s.bounds);
            (m.None? ==> r == s) &&
            (m.Some? ==> r == s.(alreadyRepeated := true, regions := s.regions + [s.repeatRegionList[m.value].repeatedHighlight]))
  {
    if |s.repeatRegionList| == 0 then s
    else match FirstMatch(s.repeatRegionList, lastImagePath, s.bounds)
      case None => s
      case Some(i) => s.(alreadyRepeated := true, regions := s.regions + [s.repeatRegionList[i].repeatedHighlight])
  }

  /** OnParametersSet on the state. */
  function ParametersSetStep(s: RegionsState, path: string, bounds: Rect, repeatRegionList: seq<RepeatedRegion>,
                             previousHighlightRegion: Rect, lastImagePath: Option<string>): (r: RegionsState)
    ensures Params(r) == (path, bounds, repeatRegionList, previousHighlightRegion)
    ensures !r.completed && r.startPoint.None? && r.endPoint.None? && !r.alreadySuggested
    ensures |r.regions| <= 1 && r.completedLog == s.completedLog
  {
    AutomateRepeatedStep(ParametersResetStep(s, path, bounds, repeatRegionList, previousHighlightRegion), lastImagePath)
  }

  /** After a parameter set the regions are exactly the first matching repeat, if any. */
  lemma ParametersSetSeedsRepeat(s: RegionsState, path: string, bounds: Rect, repeatRegionList: seq<RepeatedRegion>,
                                 previousHighlightRegion: Rect, lastImagePath: Option<string>)
    ensures var r := ParametersSetStep(s, path, bounds, repeatRegionList, previousHighlightRegion, lastImagePath);
            var m := FirstMatch(repeatRegionList, lastImagePath, bounds);
            !r.completed && r.currentRepeatList == [] && !r.alreadySuggested && r.currentRegion == s.currentRegion &&
            (m.None? ==> r.regions == [] && r.alreadyRepeated == s.alreadyRepeated) &&
            (m.Some? ==> r.regions == [repeatRegionList[m.value].repeatedHighlight] && r.alreadyRepeated)
  {
  }

  // ---------------------------------------------------------------------------------
  // Properties of the key handling.

  /** One key adds at most the current region to the repeat list, and only while no
      repeat was recorded; once recorded, the flag stays set. */
  lemma KeyUpRepeatsAtMostOnce(s: RegionsState, key: Key)
    ensures var r := KeyUpStep(s, key);
            (s.alreadyRepeated ==> r.alreadyRepeated && r.currentRepeatList == s.currentRepeatList) &&
            (r.currentRepeatList == s.currentRepeatList ||
             (!s.alreadyRepeated && r.alreadyRepeated &&
              r.currentRepeatList == s.currentRepeatList + [RepeatedRegion(s.desiredImagePath, s.bounds, s.currentRegion)]))
  {
  }

  /** Over any run of keys the repeat list only grows, and by at most one entry, none at
      all once a repeat is recorded. */
  lemma {:induction false} KeysRepeatAtMostOnce(s: RegionsState, keys: seq<Key>)
    ensures var r := KeysStep(s, keys);
            |s.currentRepeatList| <= |r.currentRepeatList| <= |s.currentRepeatList| + (if s.alreadyRepeated then 0 else 1) &&
            r.currentRepeatList[..|s.currentRepeatList|] == s.currentRepeatList
    decreases |keys|
  {
    if |keys| > 0 {
      var next := KeyUpStep(s, keys[0]);
      KeyUpRepeatsAtMostOnce(s, keys[0]);
      KeysRepeatAtMostOnce(next, keys[1..]);
      var r := KeysStep(next, keys[1..]);
      assert r == KeysStep(s, keys);
      assert next.currentRepeatList[..|s.currentRepeatList|] == s.currentRepeatList;
      assert r.currentRepeatList[..|s.currentRepeatList|] == r.currentRepeatList[..|next.currentRepeatList|][..|s.currentRepeatList|];
    } else {
      assert s.currentRepeatList[..|s.currentRepeatList|] == s.currentRepeatList;
    }
  }

  /** No key re-enables the suggestion once it was given (only a manual clear of the
      suggested region does), so F7 keeps doing nothing. */
  lemma {:induction false} KeysSuggestAtMostOnce(s: RegionsState, keys: seq<Key>)
    requires s.alreadySuggested
    ensures KeysStep(s, keys).alreadySuggested
    ensures ProcessPossibleSuggestionStep(KeysStep(s, keys)) == KeysStep(s, keys)
    decreases |keys|
  {
    if |keys| > 0 {
      KeysSuggestAtMostOnce(KeyUpStep(s, keys[0]), keys[1..]);
    }
  }

  /** Clearing the suggested region by hand lets F7 suggest again. */
  lemma ManualClearReenablesSuggestion(s: RegionsState)
    requires s.currentRegion == s.lastSuggestion && !s.previousHighlightRegion.IsEmpty()
    ensures var r := ProcessPossibleSuggestionStep(ClearSelectionStep(s, true));
            r.alreadySuggested && r.currentRegion == Suggestion(s.previousHighlightRegion) && r.regions == s.regions
  {
  }

  /** After completion every run of keys is ignored. */
  lemma {:induction false} CompletedIgnoresKeys(s: RegionsState, keys: seq<Key>)
    requires s.completed
    ensures KeysStep(s, keys) == s
    decreases |keys|
  {
    if |keys| > 0 {
      CompletedIgnoresKeys(KeyUpStep(s, keys[0]), keys[1..]);
    }
  }

  // ---------------------------------------------------------------------------------

  class HighlightRegionsSelectorComponent {
    // parameters
    var originalImagePath: string
    var bounds: Rect
    var repeatRegionList: seq<RepeatedRegion>
    var previousHighlightRegion: Rect
    // state
    var desiredImagePath: string
    var regions: seq<Rect>
    var completed: bool
    var currentRegion: Rect
    var startPoint: Option<Point>
    var endPoint: Option<Point>
    var currentMode: AdjustmentMode
    var currentRepeatList: seq<RepeatedRegion>
    var alreadyRepeated: bool
    var alreadySuggested: bool
    var lastSuggestion: Rect
    var completedLog: seq<HighlightResult>
    var lastImagePath: Option<string>
    var imageData: ImageString
    const cropHelper: ImageCropHelper

    function Model(): RegionsState
      reads this
    {
      RegionsState(desiredImagePath, bounds, repeatRegionList, previousHighlightRegion, regions, completed,
                   currentRegion, startPoint, endPoint, currentMode, currentRepeatList, alreadyRepeated,
                   alreadySuggested, lastSuggestion, completedLog)
    }

    constructor ()
      ensures fresh(cropHelper) && lastImagePath == None && imageData == EmptyString
      ensures Model() == RegionsState("", Empty, [], Empty, [], false, Empty, None, None, DefaultMode, [],
                                       false, false, Empty, [])
    {
      originalImagePath, bounds, repeatRegionList, previousHighlightRegion := "", Empty, [], Empty;
      desiredImagePath, regions, completed, currentRegion := "", [], false, Empty;
      startPoint, endPoint, currentMode, currentRepeatList := None, None, DefaultMode, [];
      alreadyRepeated, alreadySuggested, lastSuggestion, completedLog := false, false, Empty, [];
      lastImagePath, imageData := None, EmptyString;
      cropHelper := new ImageCropHelper();
    }

    method KeyUp(key: Key)
      modifies this`regions, this`completed, this`currentRegion, this`startPoint, this`endPoint, this`currentMode
      modifies this`currentRepeatList, this`alreadyRepeated, this`alreadySuggested, this`lastSuggestion, this`completedLog
      ensures Model() == KeyUpStep(old(Model()), key)
    {
      if completed {
        return;
      }
      match key {
        case Down => DownArrowClicked();
        case Up => UpArrowClicked();
        case Left => LeftArrowClicked();
        case Right => RightArrowClicked();
        case F1 => SetMode(Move);
        case F2 => SetMode(Resize);
        case F3 => SetMode(AdjustEdges);
        case F4 => StartNewRegion();
        case F5 => SetRepeatedRegion();
        case F6 => Complete();
        case F7 => ProcessPossibleSuggestion();
        case _ =>
      }
    }

    method ProcessPossibleSuggestion()
      modifies this`regions, this`currentRegion, this`startPoint, this`endPoint, this`alreadySuggested, this`lastSuggestion
      ensures Model() == ProcessPossibleSuggestionStep(old(Model()))
    {
      if alreadySuggested {
        return;
      }
      if !currentRegion.IsEmpty() {
        StartNewRegion();
      }
      if previousHighlightRegion.IsEmpty() {
        return;
      }
      alreadySuggested := true;
      var p := previousHighlightRegion;
      currentRegion := Rect(p.x, p.y + p.height, p.width, p.height);
      lastSuggestion := Rect(p.x, p.y + p.height, p.width, p.height);
    }

    method SetRepeatedRegion()
      modifies this`alreadyRepeated, this`currentRepeatList
      ensures Model() == SetRepeatedRegionStep(old(Model()))
    {
      if alreadyRepeated {
        return;
      }
      if currentRegion.IsEmpty() {
        return;
      }
      alreadyRepeated := true;
      var repeat := RepeatedRegion(desiredImagePath, bounds, currentRegion);
      currentRepeatList := currentRepeatList + [repeat];
    }

    method StartNewRegion()
      modifies this`regions, this`currentRegion, this`startPoint, this`endPoint, this`alreadySuggested
      ensures Model() == StartNewRegionStep(old(Model()))
    {
      if currentRegion.IsEmpty() {
        return;
      }
      regions := regions + [currentRegion];
      ClearSelection(false);
    }

    method FinalSend(emitted: seq<Rect>)
      modifies this`completed, this`currentRegion, this`startPoint, this`endPoint, this`alreadySuggested, this`completedLog
      ensures Model() == FinalSendStep(old(Model()), emitted)
    {
      var result := HighlightResult(emitted, currentRepeatList);
      completed := true;
      ClearSelection(false);
      completedLog := completedLog + [result];
    }

    method Complete()
      modifies this`regions, this`completed, this`currentRegion, this`startPoint, this`endPoint
      modifies this`alreadySuggested, this`completedLog
      ensures Model() == CompleteStep(old(Model()))
    {
      if currentRegion.IsEmpty() && |regions| == 0 {
        return;
      }
      if startPoint.Some? && endPoint.None? {
        return;
      }
      if currentRegion.IsEmpty() {
        FinalSend(regions);
        return;
      }
      regions := regions + [currentRegion];
      ClearSelection(false);
      FinalSend(regions);
    }

    /** Sets the parameters and runs OnParametersSet. */
    method OnParametersSet(path: string, regionBounds: Rect, repeats: seq<RepeatedRegion>, previous: Rect,
                           fileExists: bool, bitmapWidth: int, bitmapHeight: int)
      modifies this`originalImagePath, this`bounds, this`repeatRegionList, this`previousHighlightRegion
      modifies this`desiredImagePath, this`regions, this`completed, this`startPoint, this`endPoint
      modifies this`currentRepeatList, this`alreadyRepeated, this`alreadySuggested, this`lastSuggestion
      modifies this`lastImagePath, this`imageData, cropHelper
      ensures originalImagePath == path
      ensures ShouldLoad(path, fileExists, old(lastImagePath)) ==>
                lastImagePath == Some(path) && cropHelper.State() == LoadedImage(path, bitmapWidth, bitmapHeight)
      ensures !ShouldLoad(path, fileExists, old(lastImagePath)) ==>
                lastImagePath == old(lastImagePath) && cropHelper.State() == old(cropHelper.State())
      ensures imageData == cropHelper.CropImageBase64(regionBounds)
      ensures Model() == ParametersSetStep(old(Model()), path, regionBounds, repeats, previous, lastImagePath)
    {
      originalImagePath := path;
      ResetForParameters(originalImagePath, regionBounds, repeats, previous);
      LoadRegionImage(fileExists, bitmapWidth, bitmapHeight);
      PossibleAutomateRepeatedRegions();
    }

    /** The resets at the start of OnParametersSet, with the new parameters in place. */
    method ResetForParameters(path: string, regionBounds: Rect, repeats: seq<RepeatedRegion>, previous: Rect)
      modifies this`bounds, this`repeatRegionList, this`previousHighlightRegion
      modifies this`desiredImagePath, this`regions, this`completed, this`startPoint, this`endPoint
      modifies this`currentRepeatList, this`lastSuggestion, this`alreadySuggested
      ensures Model() == ParametersResetStep(old(Model()), path, regionBounds, repeats, previous)
    {
      SetParameters(path, regionBounds, repeats, previous);
      ResetSelection();
    }

    method SetParameters(path: string, regionBounds: Rect, repeats: seq<RepeatedRegion>, previous: Rect)
      modifies this`bounds, this`repeatRegionList, this`previousHighlightRegion, this`desiredImagePath
      ensures desiredImagePath == path && bounds == regionBounds
      ensures repeatRegionList == repeats && previousHighlightRegion == previous
    {
      bounds := regionBounds;
      repeatRegionList := repeats;
      previousHighlightRegion := previous;
      desiredImagePath := path;
    }

    /** The selection state OnParametersSet clears. */
    method ResetSelection()
      modifies this`regions, this`completed, this`startPoint, this`endPoint
      modifies this`currentRepeatList, this`lastSuggestion, this`alreadySuggested
      ensures startPoint == None && endPoint == None && !completed && regions == []
      ensures currentRepeatList == [] && lastSuggestion == Empty && !alreadySuggested
    {
      startPoint := None;
      completed := false;
      regions := [];
      currentRepeatList := [];
      endPoint := None;
      lastSuggestion := Empty;
      alreadySuggested := false;
    }

    /** Loads the image when the path calls for it, then crops the region's image. */
    method LoadRegionImage(fileExists: bool, bitmapWidth: int, bitmapHeight: int)
      modifies this`lastImagePath, this`imageData, cropHelper
      ensures ShouldLoad(desiredImagePath, fileExists, old(lastImagePath)) ==>
                lastImagePath == Some(desiredImagePath) &&
                cropHelper.State() == LoadedImage(desiredImagePath, bitmapWidth, bitmapHeight)
      ensures !ShouldLoad(desiredImagePath, fileExists, old(lastImagePath)) ==>
                lastImagePath == old(lastImagePath) && cropHelper.State() == old(cropHelper.State())
      ensures imageData == cropHelper.CropImageBase64(bounds)
    {
      if ShouldLoad(desiredImagePath, fileExists, lastImagePath) {
        lastImagePath := Some(desiredImagePath);
        cropHelper.LoadImage(desiredImagePath, bitmapWidth, bitmapHeight);
      }
      imageData := cropHelper.CropImageBase64(bounds);
    }

    /** Adds the highlight of the first repeat entry for the last loaded image and the
        current bounds, searching the list in order. */
    method PossibleAutomateRepeatedRegions()
      modifies this`alreadyRepeated, this`regions
      ensures Model() == AutomateRepeatedStep(old(Model()), lastImagePath)
    {
      if |repeatRegionList| == 0 {
        return;
      }
      var i := 0;
      while i < |repeatRegionList| && !MatchesImage(repeatRegionList[i], lastImagePath, bounds)
        invariant 0 <= i <= |repeatRegionList|
        invariant forall j :: 0 <= j < i ==> !MatchesImage(repeatRegionList[j], lastImagePath, bounds)
      {
        i := i + 1;
      }
      if i < |repeatRegionList| {
        alreadyRepeated := true;
        regions := regions + [repeatRegionList[i].repeatedHighlight];
      }
    }

    method HandleClick(clickedPoint: Point)
      modifies this`currentRegion, this`startPoint, this`endPoint
      ensures Model() == HandleClickStep(old(Model()), clickedPoint)
    {
      if startPoint.None? {
        startPoint := Some(clickedPoint);
      } else if endPoint.None? {
        endPoint := Some(clickedPoint);
        currentRegion := SelectionRectangle(startPoint.value, endPoint.value);
        startPoint := None;
        endPoint := None;
      }
    }

    method ClearSelection(manuallyDone: bool)
      modifies this`currentRegion, this`startPoint, this`endPoint, this`alreadySuggested
      ensures Model() == ClearSelectionStep(old(Model()), manuallyDone)
    {
      startPoint := None;
      endPoint := None;
      if IsProperRectangleEqual(currentRegion, lastSuggestion) && manuallyDone {
        alreadySuggested := false;
      }
      currentRegion := Empty;
    }

    method SetMode(newMode: AdjustmentMode)
      modifies this`currentMode
      ensures Model() == old(Model()).(mode := newMode)
    {
      if currentMode != newMode {
        currentMode := newMode;
      }
    }

    method LeftArrowClicked()
      modifies this`currentRegion
      ensures Model() == ArrowStep(old(Model()), Left)
    {
      var rect := currentRegion;
      if rect.IsEmpty() {
        return;
      }
      match currentMode {
        case Move => rect := rect.(x := rect.x - 1);
        case Resize => rect := rect.(width := Max(1, rect.width - 1));
        case AdjustEdges =>
          rect := rect.(x := rect.x + 1);
          rect := rect.(width := Max(1, rect.width - 1));
      }
      currentRegion := rect;
    }

    method RightArrowClicked()
      modifies this`currentRegion
      ensures Model() == ArrowStep(old(Model()), Right)
    {
      var rect := currentRegion;
      if rect.IsEmpty() {
        return;
      }
      match currentMode {
        case Move => rect := rect.(x := rect.x + 1);
        case Resize => rect := rect.(width := rect.width + 1);
        case AdjustEdges =>
          rect := rect.(x := rect.x - 1);
          rect := rect.(width := rect.width + 1);
      }
      currentRegion := rect;
    }

    method UpArrowClicked()
      modifies this`currentRegion
      ensures Model() == ArrowStep(old(Model()), Up)
    {
      var rect := currentRegion;
      if rect.IsEmpty() {
        return;
      }
      match currentMode {
        case Move => rect := rect.(y := rect.y - 1);
        case Resize => rect := rect.(height := Max(1, rect.height - 1));
        case AdjustEdges =>
          rect := rect.(y := rect.y + 1);
          rect := rect.(height := Max(1, rect.height - 1));
      }
      currentRegion := rect;
    }

    method DownArrowClicked()
      modifies this`currentRegion
      ensures Model() == ArrowStep(old(Model()), Down)
    {
      var rect := currentRegion;
      if rect.IsEmpty() {
        return;
      }
      match currentMode {
        case Move => rect := rect.(y := rect.y + 1);
        case Resize => rect := rect.(height := rect.height + 1);
        case AdjustEdges =>
          rect := rect.(y := rect.y - 1);
          rect := rect.(height := rect.height + 1);
      }
      currentRegion := rect;
    }
  }
}
