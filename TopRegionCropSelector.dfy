/** The top-region crop selector: a nullable crop height, seeded from the suggested trim
    height on every parameter set or picked by one click, then nudged by Up/Down; every
    change is reported to the parent. The remaining image is the region below that height. */
module TopRegionCropSelector {
  import opened Wrappers
  import opened Drawing
  import opened Selection
  import opened CropHelper
  import RectangleExtensions

  /** GetTrimmedRegion: the region without its first `cropHeight` rows; no range check. */
  function TrimmedRegion(bounds: Rect, cropHeight: int): (r: Rect)
    ensures r.x == bounds.x && r.width == bounds.width
    ensures r.y == bounds.y + cropHeight && r.Bottom() == bounds.Bottom()
  {
    Rect(bounds.x, bounds.y + cropHeight, bounds.width, bounds.height - cropHeight)
  }

  /** Within the region's rows the trim is the checked TrimFromTop; outside them the
      checked helper refuses what this one computes anyway. */
  lemma TrimmedRegionIsTrimFromTop(bounds: Rect, cropHeight: int)
    ensures 0 <= cropHeight < bounds.height ==>
              RectangleExtensions.TrimFromTop(bounds, cropHeight) == Success(TrimmedRegion(bounds, cropHeight))
    ensures !(0 <= cropHeight < bounds.height) ==> RectangleExtensions.TrimFromTop(bounds, cropHeight).Failure?
  {
  }

  /** Trimming by the opposite height gives the region back, and trims add up. */
  lemma TrimsUndo(bounds: Rect, cropHeight: int, more: int)
    ensures TrimmedRegion(TrimmedRegion(bounds, cropHeight), -cropHeight) == bounds
    ensures TrimmedRegion(TrimmedRegion(bounds, cropHeight), more) == TrimmedRegion(bounds, cropHeight + more)
  {
  }

  class TopRegionCropSelectorComponent {
    // parameters
    var imagePath: string
    var regionBounds: Rect
    var suggestedTrimHeight: Option<int>
    // state
    var lastImagePath: Option<string>
    var cropHeightSelected: Option<int>
    var desiredImageData: Option<ImageString>
    /** The values passed to OnTrimHeightChanged, in order. */
    var trimHeightChanges: seq<int>
    const cropHelper: ImageCropHelper

    constructor ()
      ensures fresh(cropHelper)
      ensures cropHeightSelected == None && lastImagePath == None && desiredImageData == None
      ensures suggestedTrimHeight == None && trimHeightChanges == []
    {
      imagePath, regionBounds, suggestedTrimHeight := "", Empty, None;
      lastImagePath, cropHeightSelected, desiredImageData, trimHeightChanges := None, None, None, [];
      cropHelper := new ImageCropHelper();
    }

    /** Keys_KeyUp, with DownArrowClicked and UpArrowClicked. */
    method KeyUp(key: Key)
      modifies this
      ensures old(cropHeightSelected).None? || (key != Down && key != Up) ==>
                cropHeightSelected == old(cropHeightSelected) && trimHeightChanges == old(trimHeightChanges)
      ensures old(cropHeightSelected).Some? && key == Down ==>
                cropHeightSelected == Some(old(cropHeightSelected).value + 1) &&
                trimHeightChanges == old(trimHeightChanges) + [cropHeightSelected.value]
      ensures old(cropHeightSelected).Some? && key == Up ==>
                cropHeightSelected == Some(old(cropHeightSelected).value - 1) &&
                trimHeightChanges == old(trimHeightChanges) + [cropHeightSelected.value]
      ensures imagePath == old(imagePath) && regionBounds == old(regionBounds) && suggestedTrimHeight == old(suggestedTrimHeight)
      ensures lastImagePath == old(lastImagePath) && desiredImageData == old(desiredImageData)
    {
      if cropHeightSelected.None? {
        return;
      }
      match key {
        case Down =>
          cropHeightSelected := Some(cropHeightSelected.value + 1);
          trimHeightChanges := trimHeightChanges + [cropHeightSelected.value];
        case Up =>
          cropHeightSelected := Some(cropHeightSelected.value - 1);
          trimHeightChanges := trimHeightChanges + [cropHeightSelected.value];
        case _ =>
      }
    }

    /** Sets the parameters and runs OnParametersSetAsync. */
    method OnParametersSet(path: string, bounds: Rect, suggested: Option<int>, fileExists: bool, bitmapWidth: int, bitmapHeight: int)
      modifies this, cropHelper
      ensures imagePath == path && regionBounds == bounds && suggestedTrimHeight == suggested
      ensures cropHeightSelected == suggested
      ensures trimHeightChanges == old(trimHeightChanges)
      ensures ShouldLoad(path, fileExists, old(lastImagePath)) ==>
                lastImagePath == Some(path) && cropHelper.State() == LoadedImage(path, bitmapWidth, bitmapHeight) &&
                desiredImageData == Some(cropHelper.CropImageBase64(bounds))
      ensures !ShouldLoad(path, fileExists, old(lastImagePath)) ==>
                lastImagePath == old(lastImagePath) && cropHelper.State() == old(cropHelper.State()) &&
                desiredImageData == old(desiredImageData)
    {
      imagePath, regionBounds, suggestedTrimHeight := path, bounds, suggested;
      cropHeightSelected := suggestedTrimHeight;
      if ShouldLoad(imagePath, fileExists, lastImagePath) {
        lastImagePath := Some(imagePath);
        cropHelper.LoadImage(imagePath, bitmapWidth, bitmapHeight);
        desiredImageData := Some(cropHelper.CropImageBase64(regionBounds));
      }
    }

    /** GetTrimmedRegion: only called with a height selected (the source dereferences the
        nullable height). The region loses its first rows and keeps its bottom edge; within
        the region's rows that is what the checked TrimFromTop returns. */
    function GetTrimmedRegion(): (r: Rect)
      reads this
      requires cropHeightSelected.Some?
      ensures r.x == regionBounds.x && r.width == regionBounds.width && r.Bottom() == regionBounds.Bottom()
      ensures r.y == regionBounds.y + cropHeightSelected.value
      ensures 0 <= cropHeightSelected.value < regionBounds.height ==>
                RectangleExtensions.TrimFromTop(regionBounds, cropHeightSelected.value) == Success(r)
    {
      TrimmedRegionIsTrimFromTop(regionBounds, cropHeightSelected.value);
      TrimmedRegion(regionBounds, cropHeightSelected.value)
    }

    /** GetRemainingImageBase64: blank until a height is selected. */
    function GetRemainingImage(): (s: ImageString)
      reads this, cropHelper
      ensures cropHeightSelected.None? ==> s == EmptyString && s.Content() == Blank
      ensures cropHeightSelected.Some? ==> s.Content() == CropOf(cropHelper.State(), TrimmedRegion(regionBounds, cropHeightSelected.value))
    {
      if cropHeightSelected.None? then EmptyString else cropHelper.CropImageBase64(GetTrimmedRegion())
    }

    /** HandleClick: `offsetY` is the click's vertical offset, already truncated to an int. */
    method HandleClick(offsetY: int)
      modifies this
      ensures suggestedTrimHeight.Some? ==>
                cropHeightSelected == old(cropHeightSelected) && trimHeightChanges == old(trimHeightChanges)
      ensures suggestedTrimHeight.None? ==>
                cropHeightSelected == Some(offsetY) && trimHeightChanges == old(trimHeightChanges) + [offsetY]
      ensures imagePath == old(imagePath) && regionBounds == old(regionBounds) && suggestedTrimHeight == old(suggestedTrimHeight)
      ensures lastImagePath == old(lastImagePath) && desiredImageData == old(desiredImageData)
    {
      if suggestedTrimHeight.Some? {
        return;
      }
      cropHeightSelected := Some(offsetY);
      trimHeightChanges := trimHeightChanges + [offsetY];
    }
  }
}
