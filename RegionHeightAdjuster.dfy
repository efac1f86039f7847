/** The height adjuster: Up, PageUp and Down change a signed adjustment of the region's
    height by -1, -10 and +1; each change re-crops the adjusted region unless the height
    would drop below one row; F1 reports the adjustment to the parent. */
module RegionHeightAdjuster {
  import opened Wrappers
  import opened Drawing
  import opened Selection
  import opened CropHelper

  /** The region shown for reference: the bounds with InitialExtraHeight added at the bottom. */
  function ReferenceBounds(bounds: Rect, initialExtraHeight: int): (r: Rect)
    ensures r.x == bounds.x && r.y == bounds.y && r.width == bounds.width
    ensures r.Bottom() == bounds.Bottom() + initialExtraHeight
  {
    Rect(bounds.x, bounds.y, bounds.width, bounds.height + initialExtraHeight)
  }

  /** The adjusted region, or None when the adjusted height would be below one row. */
  function AdjustedBounds(bounds: Rect, heightAdjustment: int): (r: Option<Rect>)
    ensures r.None? <==> bounds.height + heightAdjustment < 1
    ensures r.Some? ==>
              r.value.x == bounds.x && r.value.y == bounds.y && r.value.width == bounds.width &&
              r.value.Bottom() == bounds.Bottom() + heightAdjustment && r.value.height >= 1
  {
    var newHeight := bounds.height + heightAdjustment;
    if newHeight < 1 then None else Some(Rect(bounds.x, bounds.y, bounds.width, newHeight))
  }

  /** Adjusting back by the opposite amount recovers a region that had at least one row. */
  lemma AdjustmentReverses(bounds: Rect, heightAdjustment: int)
    requires bounds.height >= 1
    requires AdjustedBounds(bounds, heightAdjustment).Some?
    ensures AdjustedBounds(AdjustedBounds(bounds, heightAdjustment).value, -heightAdjustment) == Some(bounds)
  {
  }

  /** The change each key makes to the adjustment. */
  function KeyDelta(key: Key): (d: int)
    ensures key == Up ==> d == -1
    ensures key == PageUp ==> d == -10
    ensures key == Down ==> d == 1
    ensures key != Up && key != PageUp && key != Down ==> d == 0
  {
    match key
    case Up => -1
    case PageUp => -10
    case Down => 1
    case _ => 0
  }

  class RegionHeightAdjusterComponent {
    // parameters
    var imagePath: string
    var regionBounds: Rect
    var initialExtraHeight: int
    // state
    var heightAdjustment: int
    var previousBounds: Rect
    var lastImagePath: Option<string>
    var referenceExpandedImage: Option<ImageString>
    var adjustedRegionImage: Option<ImageString>
    /** The values passed to OnSave, in order. */
    var saved: seq<int>
    const cropHelper: ImageCropHelper

    constructor ()
      ensures fresh(cropHelper)
      ensures heightAdjustment == 0 && previousBounds == Empty && lastImagePath == None && saved == []
      ensures referenceExpandedImage == None && adjustedRegionImage == None
    {
      imagePath, regionBounds, initialExtraHeight := "", Empty, 0;
      heightAdjustment, previousBounds, lastImagePath := 0, Empty, None;
      referenceExpandedImage, adjustedRegionImage, saved := None, None, [];
      cropHelper := new ImageCropHelper();
    }

    /** Keys_KeyUp: the counter changes even when the adjusted region is refused. */
    method KeyUp(key: Key)
      modifies this
      ensures heightAdjustment == old(heightAdjustment) + KeyDelta(key)
      ensures previousBounds == old(previousBounds) && lastImagePath == old(lastImagePath)
      ensures referenceExpandedImage == old(referenceExpandedImage)
      ensures imagePath == old(imagePath) && regionBounds == old(regionBounds) && initialExtraHeight == old(initialExtraHeight)
      ensures key == F1 ==> saved == old(saved) + [old(heightAdjustment)]
      ensures key != F1 ==> saved == old(saved)
      ensures KeyDelta(key) != 0 && AdjustedBounds(regionBounds, heightAdjustment).Some? ==>
                adjustedRegionImage == Some(cropHelper.CropImageBase64(AdjustedBounds(regionBounds, heightAdjustment).value))
      ensures KeyDelta(key) == 0 || AdjustedBounds(regionBounds, heightAdjustment).None? ==>
                adjustedRegionImage == old(adjustedRegionImage)
    {
      match key {
        case Up =>
          heightAdjustment := heightAdjustment - 1;
          PopulateAdjustedRegion();
        case PageUp =>
          heightAdjustment := heightAdjustment - 10;
          PopulateAdjustedRegion();
        case Down =>
          heightAdjustment := heightAdjustment + 1;
          PopulateAdjustedRegion();
        case F1 =>
          saved := saved + [heightAdjustment];
        case _ =>
      }
    }

    /** Sets the parameters and runs OnParametersSet. */
    method OnParametersSet(path: string, bounds: Rect, extraHeight: int, fileExists: bool, bitmapWidth: int, bitmapHeight: int)
      modifies this, cropHelper
      ensures imagePath == path && regionBounds == bounds && initialExtraHeight == extraHeight
      ensures saved == old(saved)
      ensures ShouldLoad(path, fileExists, old(lastImagePath)) ==>
                lastImagePath == Some(path) && cropHelper.State() == LoadedImage(path, bitmapWidth, bitmapHeight)
      ensures !ShouldLoad(path, fileExists, old(lastImagePath)) ==>
                lastImagePath == old(lastImagePath) && cropHelper.State() == old(cropHelper.State())
      ensures ShouldLoad(path, fileExists, old(lastImagePath)) || old(previousBounds) != bounds ==>
                heightAdjustment == 0 && previousBounds == bounds &&
                referenceExpandedImage == Some(cropHelper.CropImageBase64(ReferenceBounds(bounds, extraHeight))) &&
                adjustedRegionImage == Some(cropHelper.CropImageBase64(bounds))
      ensures !ShouldLoad(path, fileExists, old(lastImagePath)) && old(previousBounds) == bounds ==>
                heightAdjustment == old(heightAdjustment) && previousBounds == old(previousBounds) &&
                referenceExpandedImage == old(referenceExpandedImage) && adjustedRegionImage == old(adjustedRegionImage)
    {
      imagePath, regionBounds, initialExtraHeight := path, bounds, extraHeight;
      var regionChanged := previousBounds != regionBounds;
      if ShouldLoad(imagePath, fileExists, lastImagePath) {
        lastImagePath := Some(imagePath);
        cropHelper.LoadImage(imagePath, bitmapWidth, bitmapHeight);
        PopulateInitialRegions();
        return;
      }
      if regionChanged {
        PopulateInitialRegions();
      }
    }

    method PopulateInitialRegions()
      modifies this
      ensures heightAdjustment == 0 && previousBounds == regionBounds
      ensures referenceExpandedImage == Some(cropHelper.CropImageBase64(ReferenceBounds(regionBounds, initialExtraHeight)))
      ensures adjustedRegionImage == Some(cropHelper.CropImageBase64(regionBounds))
      ensures imagePath == old(imagePath) && regionBounds == old(regionBounds) && initialExtraHeight == old(initialExtraHeight)
      ensures lastImagePath == old(lastImagePath) && saved == old(saved)
    {
      previousBounds := regionBounds;
      heightAdjustment := 0;
      referenceExpandedImage := Some(cropHelper.CropImageBase64(ReferenceBounds(regionBounds, initialExtraHeight)));
      adjustedRegionImage := Some(cropHelper.CropImageBase64(regionBounds));
    }

    method PopulateAdjustedRegion()
      modifies this`adjustedRegionImage
      ensures AdjustedBounds(regionBounds, heightAdjustment).None? ==> adjustedRegionImage == old(adjustedRegionImage)
      ensures AdjustedBounds(regionBounds, heightAdjustment).Some? ==>
                adjustedRegionImage == Some(cropHelper.CropImageBase64(AdjustedBounds(regionBounds, heightAdjustment).value))
    {
      var newHeight := regionBounds.height + heightAdjustment;
      if newHeight < 1 {
        return;
      }
      var adjustedBounds := Rect(regionBounds.x, regionBounds.y, regionBounds.width, newHeight);
      adjustedRegionImage := Some(cropHelper.CropImageBase64(adjustedBounds));
    }
  }
}
