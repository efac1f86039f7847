/** The width adjuster: Left and Right change how many pixels are added to the right of
    the region (never fewer than zero), each change re-crops the adjusted region, and F1
    reports the count to the parent. */
module RegionWidthAdjuster {
  import opened Wrappers
  import opened Drawing
  import opened Selection
  import opened CropHelper
  import RectangleExtensions

  /** The region shown for reference: the bounds with InitialExtraWidth added on the right. */
  function ReferenceRegion(bounds: Rect, initialExtraWidth: int): (r: Rect)
    ensures r.x == bounds.x && r.y == bounds.y && r.height == bounds.height
    ensures r.Right() == bounds.Right() + initialExtraWidth
  {
    Rect(bounds.x, bounds.y, bounds.width + initialExtraWidth, bounds.height)
  }

  /** The adjusted region: the recorded bounds widened by the requested pixels. */
  function AdjustedBounds(previousBounds: Rect, widthRequested: int): (r: Rect)
    ensures r.x == previousBounds.x && r.y == previousBounds.y && r.height == previousBounds.height
    ensures r.width == previousBounds.width + widthRequested
  {
    Rect(previousBounds.x, previousBounds.y, previousBounds.width + widthRequested, previousBounds.height)
  }

  /** Both regions are the widening of the bounds that RectangleExtensions performs. */
  lemma AdjustedIsWidening(bounds: Rect, pixels: int)
    requires pixels >= 0
    ensures RectangleExtensions.WidenToRight(bounds, pixels) == Success(AdjustedBounds(bounds, pixels))
    ensures ReferenceRegion(bounds, pixels) == AdjustedBounds(bounds, pixels)
  {
  }

  class RegionWidthAdjusterComponent {
    // parameters
    var imagePath: string
    var regionBounds: Rect
    var initialExtraWidth: int
    // state
    var previousBounds: Rect
    var widthRequested: int
    var lastImagePath: Option<string>
    var referenceExpandedImage: Option<ImageString>
    var adjustedRegionImage: Option<ImageString>
    /** The values passed to OnSave, in order. */
    var saved: seq<int>
    const cropHelper: ImageCropHelper

    /** The requested extra width is never negative. */
    ghost predicate Valid()
      reads this
    {
      widthRequested >= 0
    }

    constructor ()
      ensures Valid() && fresh(cropHelper)
      ensures widthRequested == 0 && previousBounds == Empty && lastImagePath == None && saved == []
      ensures referenceExpandedImage == None && adjustedRegionImage == None
    {
      imagePath, regionBounds, initialExtraWidth := "", Empty, 0;
      previousBounds, widthRequested, lastImagePath := Empty, 0, None;
      referenceExpandedImage, adjustedRegionImage, saved := None, None, [];
      cropHelper := new ImageCropHelper();
    }

    /** Keys_KeyUp */
    method KeyUp(key: Key)
      requires Valid()
      modifies this
      ensures Valid()
      ensures previousBounds == old(previousBounds) && lastImagePath == old(lastImagePath)
      ensures referenceExpandedImage == old(referenceExpandedImage)
      ensures imagePath == old(imagePath) && regionBounds == old(regionBounds) && initialExtraWidth == old(initialExtraWidth)
      ensures key == Left && old(widthRequested) == 0 ==>
                widthRequested == 0 && adjustedRegionImage == old(adjustedRegionImage)
      ensures key == Left && old(widthRequested) > 0 ==> widthRequested == old(widthRequested) - 1
      ensures key == Right ==> widthRequested == old(widthRequested) + 1
      ensures key == F1 ==> saved == old(saved) + [old(widthRequested)] && widthRequested == old(widthRequested)
      ensures key != F1 ==> saved == old(saved)
      ensures widthRequested != old(widthRequested) ==>
                adjustedRegionImage == Some(cropHelper.CropImageBase64(AdjustedBounds(previousBounds, widthRequested)))
      ensures key != Left && key != Right ==>
                widthRequested == old(widthRequested) && adjustedRegionImage == old(adjustedRegionImage)
    {
      match key {
        case Left =>
          if widthRequested == 0 {
            return;
          }
          widthRequested := widthRequested - 1;
          PopulateAdjustedRegions();
        case Right =>
          widthRequested := widthRequested + 1;
          PopulateAdjustedRegions();
        case F1 =>
          saved := saved + [widthRequested];
        case _ =>
      }
    }

    /** Sets the parameters and runs OnParametersSet. `fileExists` stands for File.Exists
        and the bitmap size for the image LoadImage reads. */
    method OnParametersSet(path: string, bounds: Rect, extraWidth: int, fileExists: bool, bitmapWidth: int, bitmapHeight: int)
      requires Valid()
      modifies this, cropHelper
      ensures Valid()
      ensures imagePath == path && regionBounds == bounds && initialExtraWidth == extraWidth
      ensures saved == old(saved)
      ensures ShouldLoad(path, fileExists, old(lastImagePath)) ==>
                lastImagePath == Some(path) && cropHelper.State() == LoadedImage(path, bitmapWidth, bitmapHeight)
      ensures !ShouldLoad(path, fileExists, old(lastImagePath)) ==>
                lastImagePath == old(lastImagePath) && cropHelper.State() == old(cropHelper.State())
      ensures ShouldLoad(path, fileExists, old(lastImagePath)) || old(previousBounds) != bounds ==>
                widthRequested == 0 && previousBounds == bounds &&
                referenceExpandedImage == Some(cropHelper.CropImageBase64(ReferenceRegion(bounds, extraWidth))) &&
                adjustedRegionImage == Some(cropHelper.CropImageBase64(bounds))
      ensures !ShouldLoad(path, fileExists, old(lastImagePath)) && old(previousBounds) == bounds ==>
                widthRequested == old(widthRequested) && previousBounds == old(previousBounds) &&
                referenceExpandedImage == old(referenceExpandedImage) && adjustedRegionImage == old(adjustedRegionImage)
    {
      imagePath, regionBounds, initialExtraWidth := path, bounds, extraWidth;
      var regionChanged := previousBounds != regionBounds;
      if ShouldLoad(imagePath, fileExists, lastImagePath) {
        lastImagePath := Some(imagePath);
        cropHelper.LoadImage(imagePath, bitmapWidth, bitmapHeight);
        PopulateInitialRegions();
        return;
      }
      if regionChanged {
        PopulateInitialRegions();
      }
    }

    method PopulateInitialRegions()
      modifies this
      ensures widthRequested == 0 && previousBounds == regionBounds
      ensures referenceExpandedImage == Some(cropHelper.CropImageBase64(ReferenceRegion(regionBounds, initialExtraWidth)))
      ensures adjustedRegionImage == Some(cropHelper.CropImageBase64(regionBounds))
      ensures imagePath == old(imagePath) && regionBounds == old(regionBounds) && initialExtraWidth == old(initialExtraWidth)
      ensures lastImagePath == old(lastImagePath) && saved == old(saved)
    {
      referenceExpandedImage := Some(cropHelper.CropImageBase64(ReferenceRegion(regionBounds, initialExtraWidth)));
      adjustedRegionImage := Some(cropHelper.CropImageBase64(regionBounds));
      widthRequested := 0;
      previousBounds := regionBounds;
    }

    method PopulateAdjustedRegions()
      modifies this`adjustedRegionImage
      ensures adjustedRegionImage == Some(cropHelper.CropImageBase64(AdjustedBounds(previousBounds, widthRequested)))
    {
      adjustedRegionImage := Some(cropHelper.CropImageBase64(AdjustedBounds(previousBounds, widthRequested)));
    }
  }
}
