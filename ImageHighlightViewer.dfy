/** The highlight viewer: shows the crop area of an image with one highlight rectangle on
    it, moves the highlight down or up by a fixed step (never above the image top),
    scrolls its container a page at a time, and clips the overlay to the crop area. */
module ImageHighlightViewer {
  import opened Wrappers
  import opened Drawing
  import opened Selection
  import opened Text
  import opened ScrollHelpers

  /** ImageHighlightState: the record the parent passes in. */
  datatype HighlightState = HighlightState(
    path: string,
    cropArea: Rect,
    originalHighlight: Rect,
    currentHighlight: Rect,
    completed: bool,
    description: string)

  /** A colour's red, green and blue components, as ColorTranslator.FromHtml gives them. */
  datatype Rgb = Rgb(r: nat, g: nat, b: nat)

  const FallbackRgba: string := "rgba(255, 255, 0, 0.2)"
  const DefaultScrollOverlapPixels: int := 100
  const DefaultHighlightDeltaY: int := 10

  /** The overlay box of GetHighlightStyle in crop coordinates (before zooming), or None
      when the overlay is hidden. */
  function HighlightBox(crop: Rect, highlight: Rect): (b: Option<Rect>)
    ensures highlight.width == 0 || highlight.height == 0 ==> b.None?
    ensures b.None? <==>
              highlight.width == 0 || highlight.height == 0 ||
              RelativeTo(crop, highlight).Right() <= 0 || RelativeTo(crop, highlight).Bottom() <= 0 ||
              RelativeTo(crop, highlight).x >= crop.width || RelativeTo(crop, highlight).y >= crop.height
    ensures b.Some? ==>
              b.value.x >= 0 && b.value.y >= 0 &&
              b.value.Right() <= crop.width && b.value.Bottom() <= crop.height &&
              b.value.Right() <= RelativeTo(crop, highlight).Right() &&
              b.value.Bottom() <= RelativeTo(crop, highlight).Bottom()
    ensures b.Some? && highlight.width > 0 && highlight.height > 0 && crop.width > 0 && crop.height > 0 ==>
              b.value.width > 0 && b.value.height > 0
  {
    if highlight.width == 0 || highlight.height == 0 then None
    else
      var adjustedX := highlight.x - crop.x;
      var adjustedY := highlight.y - crop.y;
      if adjustedX + highlight.width <= 0 || adjustedY + highlight.height <= 0 ||
         adjustedX >= crop.width || adjustedY >= crop.height then None
      else
        var clampedX := Max(0, adjustedX);
        var clampedY := Max(0, adjustedY);
        var clampedWidth := Min(highlight.width - (clampedX - adjustedX), crop.width - clampedX);
        var clampedHeight := Min(highlight.height - (clampedY - adjustedY), crop.height - clampedY);
        Some(Rect(clampedX, clampedY, clampedWidth, clampedHeight))
  }

  /** The source hides the overlay only for a width or height of exactly 0, so a highlight
      of negative width that ends inside the crop is shown with that negative width. */
  lemma NegativeWidthHighlightShown()
    ensures HighlightBox(Rect(0, 0, 20, 20), Rect(10, 0, -3, 5)) == Some(Rect(10, 0, -3, 5))
  {
  }

  /** For a highlight and a crop area of positive size, the overlay is exactly the part of the
      crop-relative highlight inside the crop: shown iff the two overlap, and then their
      intersection. */
  lemma HighlightBoxIsIntersection(crop: Rect, highlight: Rect)
    requires highlight.width > 0 && highlight.height > 0
    requires crop.width > 0 && crop.height > 0
    ensures HighlightBox(crop, highlight).Some? <==>
              RelativeTo(crop, highlight).IntersectsWith(Rect(0, 0, crop.width, crop.height))
    ensures HighlightBox(crop, highlight).Some? ==>
              HighlightBox(crop, highlight).value == Intersect(RelativeTo(crop, highlight), Rect(0, 0, crop.width, crop.height))
  {
  }

  /** GetRgbaHighlightColor: `parsed` is what ColorTranslator.FromHtml makes of the
      colour, None when it throws. */
  function RgbaHighlightColor(highlightColor: string, parsed: Option<Rgb>): (s: string)
    ensures IsNullOrWhiteSpace(highlightColor) || parsed.None? ==> s == FallbackRgba
    ensures !IsNullOrWhiteSpace(highlightColor) && parsed.Some? ==>
              s == "rgba(" + DecimalString(parsed.value.r) + ", " + DecimalString(parsed.value.g) + ", " +
                   DecimalString(parsed.value.b) + ", 0.2)"
  {
    if IsNullOrWhiteSpace(highlightColor) then FallbackRgba
    else match parsed
      case None => FallbackRgba
      case Some(c) => "rgba(" + DecimalString(c.r) + ", " + DecimalString(c.g) + ", " + DecimalString(c.b) + ", 0.2)"
  }

  /** The highlight after ArrowDownAsync. */
  function MovedDown(highlight: Rect, deltaY: int): (r: Rect)
    ensures r.x == highlight.x && r.width == highlight.width && r.height == highlight.height
    ensures r.y == highlight.y + deltaY
  {
    highlight.(y := highlight.y + deltaY)
  }

  /** The highlight after ArrowUpAsync: up by the step but never above row 0. */
  function MovedUp(highlight: Rect, deltaY: int): (r: Rect)
    ensures r.x == highlight.x && r.width == highlight.width && r.height == highlight.height
    ensures r.y >= 0 && r.y >= highlight.y - deltaY
    ensures r.y == highlight.y - deltaY || r.y == 0
  {
    highlight.(y := Max(0, highlight.y - deltaY))
  }

  /** Down then up by the same non-negative step returns a highlight that was on the image. */
  lemma UpUndoesDown(highlight: Rect, deltaY: int)
    requires highlight.y >= 0 && deltaY >= 0
    ensures MovedUp(MovedDown(highlight, deltaY), deltaY) == highlight
  {
  }

  class ImageHighlightViewerComponent {
    var info: Option<HighlightState>
    var highlightColor: string
    var scrollOverlapPixels: int
    var highlightDeltaY: int
    /** The scrolled element, null until it is rendered. */
    var element: ScrollContainer?
    /** The rectangles passed to OnHighlightChanged, in order. */
    var highlightChanges: seq<Rect>

    /** `defaultColor` is the library's named blue, the default of HighlightColor. */
    constructor (defaultColor: string)
      ensures info == None && highlightColor == defaultColor && element == null && highlightChanges == []
      ensures scrollOverlapPixels == DefaultScrollOverlapPixels && highlightDeltaY == DefaultHighlightDeltaY
    {
      info, highlightColor, element, highlightChanges := None, defaultColor, null, [];
      scrollOverlapPixels, highlightDeltaY := DefaultScrollOverlapPixels, DefaultHighlightDeltaY;
    }

    method ArrowDown()
      modifies this
      ensures old(info).None? ==> info == None && highlightChanges == old(highlightChanges)
      ensures old(info).Some? ==>
                info == Some(old(info).value.(currentHighlight := MovedDown(old(info).value.currentHighlight, highlightDeltaY))) &&
                highlightChanges == old(highlightChanges) + [info.value.currentHighlight]
      ensures highlightColor == old(highlightColor) && scrollOverlapPixels == old(scrollOverlapPixels)
      ensures highlightDeltaY == old(highlightDeltaY) && element == old(element)
    {
      if info.None? {
        return;
      }
      var adjustedPixels := highlightDeltaY;
      var current := info.value.currentHighlight;
      info := Some(info.value.(currentHighlight := Rect(current.x, current.y + adjustedPixels, current.width, current.height)));
      highlightChanges := highlightChanges + [info.value.currentHighlight];
    }

    method ArrowUp()
      modifies this
      ensures old(info).None? ==> info == None && highlightChanges == old(highlightChanges)
      ensures old(info).Some? ==>
                info == Some(old(info).value.(currentHighlight := MovedUp(old(info).value.currentHighlight, highlightDeltaY))) &&
                highlightChanges == old(highlightChanges) + [info.value.currentHighlight]
      ensures highlightColor == old(highlightColor) && scrollOverlapPixels == old(scrollOverlapPixels)
      ensures highlightDeltaY == old(highlightDeltaY) && element == old(element)
    {
      if info.None? {
        return;
      }
      var adjustedPixels := highlightDeltaY;
      var current := info.value.currentHighlight;
      var newY := Max(0, current.y - adjustedPixels);
      info := Some(info.value.(currentHighlight := Rect(current.x, newY, current.width, current.height)));
      highlightChanges := highlightChanges + [info.value.currentHighlight];
    }

    /** Keys_KeyUp: arrows move the highlight, PageDown/PageUp scroll the element if any. */
    method KeyUp(key: Key)
      modifies this, element
      ensures key == Down ==>
                info == (if old(info).None? then None
                         else Some(old(info).value.(currentHighlight := MovedDown(old(info).value.currentHighlight, highlightDeltaY))))
      ensures key == Up ==>
                info == (if old(info).None? then None
                         else Some(old(info).value.(currentHighlight := MovedUp(old(info).value.currentHighlight, highlightDeltaY))))
      ensures (key == Down || key == Up) ==>
                highlightChanges == (if old(info).None? then old(highlightChanges)
                                     else old(highlightChanges) + [info.value.currentHighlight])
      ensures key != Down && key != Up ==> info == old(info) && highlightChanges == old(highlightChanges)
      ensures element == old(element)
      ensures key == PageDown && element != null ==>
                element.scrollTop == PageDownTarget(old(element.scrollTop), old(element.clientHeight), old(element.scrollHeight), scrollOverlapPixels)
      ensures key == PageUp && element != null ==>
                element.scrollTop == PageUpTarget(old(element.scrollTop), old(element.clientHeight), scrollOverlapPixels)
      ensures key != PageDown && key != PageUp && element != null ==> element.scrollTop == old(element.scrollTop)
      ensures element != null ==>
                element.clientHeight == old(element.clientHeight) && element.scrollHeight == old(element.scrollHeight)
      ensures highlightColor == old(highlightColor) && scrollOverlapPixels == old(scrollOverlapPixels)
      ensures highlightDeltaY == old(highlightDeltaY)
    {
      if key == Down {
        ArrowDown();
      }
      if key == Up {
        ArrowUp();
      }
      if key == PageDown {
        ScrollDownOnePage(element, scrollOverlapPixels);
      }
      if key == PageUp {
        ScrollUpOnePage(element, scrollOverlapPixels);
      }
    }

    /** GetHighlightStyle before zooming and formatting: the overlay box, if shown. It is
        hidden without a state; otherwise it lies inside the crop area, and for a highlight
        and a crop of positive size it is shown exactly when the crop-relative highlight
        meets the crop, as their intersection. */
    function GetHighlightBox(): (b: Option<Rect>)
      reads this
      ensures info.None? ==> b.None?
      ensures info.Some? && b.Some? ==>
                Within(b.value, Rect(0, 0, info.value.cropArea.width, info.value.cropArea.height))
      ensures info.Some? && info.value.currentHighlight.width > 0 && info.value.currentHighlight.height > 0 &&
              info.value.cropArea.width > 0 && info.value.cropArea.height > 0 ==>
                var area := Rect(0, 0, info.value.cropArea.width, info.value.cropArea.height);
                var relative := RelativeTo(info.value.cropArea, info.value.currentHighlight);
                (b.Some? <==> relative.IntersectsWith(area)) &&
                (b.Some? ==> b.value == Intersect(relative, area))
    {
      if info.None? then None
      else
        var crop, highlight := info.value.cropArea, info.value.currentHighlight;
        if highlight.width > 0 && highlight.height > 0 && crop.width > 0 && crop.height > 0 then
          HighlightBoxIsIntersection(crop, highlight);
          HighlightBox(crop, highlight)
        else HighlightBox(crop, highlight)
    }

    /** The overlay colour: the fallback for a blank colour or one the parse rejects,
        otherwise the parsed components in decimal with alpha 0.2. */
    function GetRgbaHighlightColor(parsed: Option<Rgb>): (s: string)
      reads this
      ensures IsNullOrWhiteSpace(highlightColor) || parsed.None? ==> s == FallbackRgba
      ensures !IsNullOrWhiteSpace(highlightColor) && parsed.Some? ==>
                s == "rgba(" + DecimalString(parsed.value.r) + ", " + DecimalString(parsed.value.g) + ", " +
                     DecimalString(parsed.value.b) + ", 0.2)"
    {
      RgbaHighlightColor(highlightColor, parsed)
    }
  }
}
