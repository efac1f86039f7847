/** The helper every component uses to read an image's natural size and to crop regions
    out of it. The bitmap itself is not modelled: loading takes the bitmap's size as an
    input, a crop is represented by the clipped rectangle it would encode, and scaling by
    rendered-to-natural ratios (double arithmetic) is kept as an unevaluated request. */
module CropHelper {
  import opened Wrappers
  import opened Drawing
  import opened Text

  /** What LoadImage records: the image path and its natural (bitmap) size. */
  datatype LoadedImage = LoadedImage(path: string, naturalWidth: int, naturalHeight: int)
  {
    function Bounds(): Rect { Rect(0, 0, naturalWidth, naturalHeight) }
  }

  /** What a crop string encodes: nothing ("") or the PNG of the pixels in `area`. */
  datatype Crop = Blank | Png(area: Rect)

  /** A string the components keep for display: the empty string, or the result of a
      CropImageBase64 call, recorded as the image loaded at the time and the requested
      rectangle. `Content` says what that string encodes. */
  datatype ImageString = EmptyString | Cropped(image: LoadedImage, request: Rect)
  {
    function Content(): (c: Crop)
    {
      match this
      case EmptyString => Blank
      case Cropped(image, request) => CropOf(image, request)
    }
  }

  /** The result of ScaleRectangleToNatural: null, the input returned as it was, or the
      input to be multiplied by natural/rendered ratios in double precision and truncated
      (that arithmetic is not evaluated here). */
  datatype ScaledRect =
    | NoRect
    | AsGiven(rect: Rect)
    | ToNatural(rendered: Rect, naturalWidth: int, naturalHeight: int, renderedWidth: int, renderedHeight: int)

  /** CropImageBase64 on a loaded image: nothing for no image or Rectangle.Empty, otherwise
      the request clipped to the image, and nothing if the clipped box has no area. */
  function CropOf(image: LoadedImage, naturalRect: Rect): (c: Crop)
    ensures image.path == "" || naturalRect == Empty ==> c == Blank
    ensures c.Png? ==> Within(c.area, image.Bounds()) && Within(c.area, naturalRect) &&
                       c.area.width > 0 && c.area.height > 0
  {
    if image.path == "" || naturalRect == Empty then Blank
    else
      var cropRect := Intersect(naturalRect, image.Bounds());
      if cropRect.width == 0 || cropRect.height == 0 then Blank else Png(cropRect)
  }

  /** What CropOf yields: nothing exactly when no image is loaded, the request is
      Rectangle.Empty or its clip to the image has no area; otherwise a crop of that clip,
      which lies inside both the image and the request. */
  lemma CropOfClipsToImage(image: LoadedImage, naturalRect: Rect)
    ensures var c := CropOf(image, naturalRect);
            (c.Blank? <==>
              image.path == "" || naturalRect == Empty ||
              Intersect(naturalRect, image.Bounds()).width == 0 ||
              Intersect(naturalRect, image.Bounds()).height == 0) &&
            (c.Png? ==>
              c.area == Intersect(naturalRect, image.Bounds()) &&
              Within(c.area, image.Bounds()) && Within(c.area, naturalRect) &&
              c.area.width > 0 && c.area.height > 0)
  {
  }

  /** ScaleRectangleToNatural's guards: null stays null, a zero rendered width or height
      returns the input unchanged, and otherwise the scaling request is formed. */
  function ScaleToNatural(image: LoadedImage, renderedRect: Option<Rect>, renderedWidth: int, renderedHeight: int): (s: ScaledRect)
    ensures renderedRect.None? <==> s == NoRect
    ensures renderedRect.Some? && (renderedWidth == 0 || renderedHeight == 0) ==> s == AsGiven(renderedRect.value)
    ensures s.ToNatural? ==>
              renderedWidth != 0 && renderedHeight != 0 && renderedRect == Some(s.rendered) &&
              s.naturalWidth == image.naturalWidth && s.naturalHeight == image.naturalHeight &&
              s.renderedWidth == renderedWidth && s.renderedHeight == renderedHeight
  {
    match renderedRect
    case None => NoRect
    case Some(r) =>
      if renderedWidth == 0 || renderedHeight == 0 then AsGiven(r)
      else ToNatural(r, image.naturalWidth, image.naturalHeight, renderedWidth, renderedHeight)
  }

  /** A crop request that already lies inside the image is used as it is. */
  lemma CropInsideImageIsExact(image: LoadedImage, naturalRect: Rect)
    requires image.path != ""
    requires naturalRect.width > 0 && naturalRect.height > 0
    requires Within(naturalRect, image.Bounds())
    ensures CropOf(image, naturalRect) == Png(naturalRect)
  {
  }

  /** Cropping the area of a crop again gives the same crop. */
  lemma CropIsIdempotent(image: LoadedImage, naturalRect: Rect)
    requires CropOf(image, naturalRect).Png?
    ensures CropOf(image, CropOf(image, naturalRect).area) == CropOf(image, naturalRect)
  {
    CropOfClipsToImage(image, naturalRect);
    var area := CropOf(image, naturalRect).area;
    CropInsideImageIsExact(image, area);
  }

  /** The guard every component applies before (re)loading its image: the path is not
      blank, the file exists, and the path differs from the one loaded last. */
  predicate ShouldLoad(path: string, fileExists: bool, lastImagePath: Option<string>): (b: bool)
    ensures b ==> fileExists && lastImagePath != Some(path)
    ensures b ==> exists i :: 0 <= i < |path| && !IsWhiteSpace(path[i])
  {
    !IsNullOrWhiteSpace(path) && fileExists && lastImagePath != Some(path)
  }

  class ImageCropHelper {
    var imagePath: string
    var naturalWidth: int
    var naturalHeight: int

    constructor ()
      ensures State() == LoadedImage("", 0, 0)
    {
      imagePath := "";
      naturalWidth := 0;
      naturalHeight := 0;
    }

    function State(): LoadedImage
      reads this
    {
      LoadedImage(imagePath, naturalWidth, naturalHeight)
    }

    /** LoadImage: records the path and the size of the bitmap read from it. */
    method LoadImage(path: string, bitmapWidth: int, bitmapHeight: int)
      modifies this
      ensures State() == LoadedImage(path, bitmapWidth, bitmapHeight)
      ensures GetNaturalSize() == (bitmapWidth, bitmapHeight)
    {
      imagePath := path;
      naturalWidth := bitmapWidth;
      naturalHeight := bitmapHeight;
    }

    function GetNaturalSize(): (int, int)
      reads this
    {
      (naturalWidth, naturalHeight)
    }

    function ScaleRectangleToNatural(renderedRect: Option<Rect>, renderedWidth: int, renderedHeight: int): ScaledRect
      reads this
    {
      ScaleToNatural(State(), renderedRect, renderedWidth, renderedHeight)
    }

    /** CropImageBase64: the string for `naturalRect` cut from the loaded image; its
        content is CropOf(State(), naturalRect). */
    function CropImageBase64(naturalRect: Rect): (s: ImageString)
      reads this
    {
      Cropped(State(), naturalRect)
    }
  }
}
