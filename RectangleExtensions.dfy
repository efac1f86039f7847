/** The rectangle extension methods: carving the part of a suggested region that lies
    below a manual one, trimming rows off the top, and widening to the right. Each throw
    of the source becomes a Failure carrying the exception it raises. */
module RectangleExtensions {
  import opened Wrappers
  import opened Drawing

  /** The exceptions these helpers throw: CustomBasicException with its message, and
      ArgumentOutOfRangeException naming the offending parameter. */
  datatype Error = CustomBasic(message: string) | ArgumentOutOfRange(paramName: string)

  /** The part of `suggestion` below `manual`, starting `verticalOffset` rows under the
      manual rectangle's bottom edge and ending at the suggestion's bottom edge. */
  function GetRemainingBelow(suggestion: Rect, manual: Rect, verticalOffset: int := 0): (r: Result<Rect, Error>)
    ensures !suggestion.IntersectsWith(manual) <==> r == Failure(CustomBasic("No overlap"))
    ensures r == Failure(CustomBasic("Invalid manual rectangle")) <==>
              suggestion.IntersectsWith(manual) && manual.Bottom() + verticalOffset >= suggestion.Bottom()
    ensures r.Success? ==>
              r.value.x == suggestion.x && r.value.width == suggestion.width &&
              r.value.y == manual.Bottom() + verticalOffset &&
              r.value.Bottom() == suggestion.Bottom() && r.value.height > 0
  {
    if !suggestion.IntersectsWith(manual) then Failure(CustomBasic("No overlap"))
    else
      var topY := manual.Bottom() + verticalOffset;
      var maxY := suggestion.Bottom();
      if topY >= maxY then Failure(CustomBasic("Invalid manual rectangle"))
      else Success(Rect(suggestion.x, topY, suggestion.width, maxY - topY))
  }

  /** `region` without its top `trimHeight` rows; the trim must leave at least one row. */
  function TrimFromTop(region: Rect, trimHeight: int): (r: Result<Rect, Error>)
    ensures r.Failure? <==> trimHeight < 0 || trimHeight >= region.height
    ensures r.Failure? ==> r.error == ArgumentOutOfRange("trimHeight")
    ensures r.Success? ==>
              r.value.x == region.x && r.value.width == region.width &&
              r.value.y == region.y + trimHeight && r.value.Bottom() == region.Bottom() &&
              r.value.height >= 1
  {
    if trimHeight < 0 || trimHeight >= region.height then Failure(ArgumentOutOfRange("trimHeight"))
    else Success(Rect(region.x, region.y + trimHeight, region.width, region.height - trimHeight))
  }

  /** `region` extended by `widthRequested` pixels on its right-hand side. */
  function WidenToRight(region: Rect, widthRequested: int): (r: Result<Rect, Error>)
    ensures r.Failure? <==> widthRequested < 0
    ensures r.Failure? ==> r.error == ArgumentOutOfRange("widthRequested")
    ensures widthRequested == 0 ==> r == Success(region)
    ensures r.Success? ==>
              r.value.x == region.x && r.value.y == region.y && r.value.height == region.height &&
              r.value.Right() == region.Right() + widthRequested
  {
    if widthRequested < 0 then Failure(ArgumentOutOfRange("widthRequested"))
    else if widthRequested == 0 then Success(region)
    else Success(Rect(region.x, region.y, region.width + widthRequested, region.height))
  }

  /** Below an overlapping manual rectangle whose (offset) bottom edge is inside the
      suggestion, the remaining part is exactly the suggestion trimmed from the top down
      to that edge. */
  lemma RemainingBelowIsTrim(suggestion: Rect, manual: Rect, verticalOffset: int)
    requires suggestion.IntersectsWith(manual)
    requires suggestion.y <= manual.Bottom() + verticalOffset
    ensures var below := GetRemainingBelow(suggestion, manual, verticalOffset);
            var trimmed := TrimFromTop(suggestion, manual.Bottom() + verticalOffset - suggestion.y);
            below.Success? == trimmed.Success? && (below.Success? ==> below.value == trimmed.value)
  {
  }

  /** Two trims in a row are one trim by the sum. */
  lemma TrimsCompose(region: Rect, a: int, b: int)
    requires TrimFromTop(region, a).Success?
    requires TrimFromTop(TrimFromTop(region, a).value, b).Success?
    ensures TrimFromTop(region, a + b) == TrimFromTop(TrimFromTop(region, a).value, b)
  {
  }

  /** Two widenings in a row are one widening by the sum. */
  lemma WideningsCompose(region: Rect, a: int, b: int)
    requires a >= 0 && b >= 0
    ensures WidenToRight(region, a + b) == WidenToRight(WidenToRight(region, a).value, b)
  {
  }

  lemma RemainingBelowExample()
    ensures GetRemainingBelow(Rect(0, 0, 100, 100), Rect(0, 0, 100, 40), 5) == Success(Rect(0, 45, 100, 55))
  {
  }

  lemma TrimFromTopExample()
    ensures TrimFromTop(Rect(0, 0, 100, 200), 50) == Success(Rect(0, 50, 100, 150))
  {
  }
}
