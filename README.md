# Image region picker widgets — a Dafny model

This project models the state logic of a library of image-region picker widgets. The
widgets are Blazor components for a desktop application, plus a small browser script.
Each widget shows an image (or a region of one) and lets the user do one of these things
with clicks and the keyboard:

- mark rectangles (one, two, or a list);
- nudge the rectangles one pixel at a time in one of three adjustment modes
  (Move, Resize, AdjustEdges);
- trim rows off the top of a region;
- widen a region to the right, or make it taller;
- move a highlight box.

The results are handed to the parent component through callbacks.

Under the rendering and bitmap code, each widget keeps a small amount of integer geometry
and keyboard or click state. That state is what the model captures:

- `Drawing`: `System.Drawing`'s `Point` and `Rectangle`. `IsEmpty` is true only when all
  four fields are zero. `IntersectsWith` is strict. `Intersect` returns `Rectangle.Empty`
  unless the two rectangles overlap or touch.
- `RectangleExtensions`: the three rectangle helpers. Each exception becomes a `Failure`.
- `Selection`: logic that every selector has its own copy of:
  - the two-click selection rectangle;
  - the adjustment modes;
  - the one-pixel nudges, of a rectangle or of a start/end point pair.
- `CropHelper`: the image helper.
  - It records the path and natural size.
  - It has the guards of the rendered-to-natural scaling.
  - It clips a crop request to the image.
  - A crop string is kept as an unevaluated `ImageString` token. `Content()` says which
    area the PNG would hold.
- One module per component, each with a class whose methods change its fields:
  - `MultiRegionSelector` and `HighlightRegionsSelector` also get a state datatype and
    pure step functions. Each class method ensures `Model() == Step(old(Model()), …)`,
    and the lemmas about the steps carry the properties.
  - `TwoRegionSelector` and `PartialTrimSelector` state their methods' effects field by
    field, in terms of pure functions of their own modules and of `Selection`.
  - `ImageRegionSelector`, `SingleRegionSelector`, `ImageHighlightViewer`,
    `RegionWidthAdjuster`, `RegionHeightAdjuster` and `TopRegionCropSelector` are small
    classes with direct field contracts.
- `ScrollHelpers`: the page-scroll clamps of `wwwroot/scrollhelpers.js`, on a container
  object whose `scrollTop` they assign.

How the model stands in for the environment:

- Parent callbacks (`EventCallback.InvokeAsync`) become logs: each invocation appends its
  argument to a sequence field such as `completedLog`, `saved` or `trimHeightChanges`.
- The file system, bitmaps and the page's layout become method parameters:
  - `fileExists` for `File.Exists`;
  - `bitmapWidth`/`bitmapHeight` for the size of the bitmap `LoadImage` reads;
  - `SetRenderedSize` for the size the page reports.

## Model

| member | source | states |
|---|---|---|
| Drawing.Intersect | ImageCropHelper.cs:50 | `Rectangle.Intersect` never has a negative size. It is either `Empty` or lies inside both inputs. Two overlapping rectangles of positive size give a positive size. Rectangles that do not overlap give zero width or zero height. |
| Drawing.IntersectIsLargest | ImageCropHelper.cs:49-50 | Every box inside both rectangles lies inside their intersection, so the clip keeps everything it may keep. |
| Drawing.IntersectCommutes | ImageCropHelper.cs:50 | The intersection does not depend on the order of its arguments. |
| Drawing.RelativeTo | ImageHighlightViewerComponent.razor.cs:169-170 | A rectangle moved into another's coordinates keeps its size and is offset by exactly the other's top-left corner. The viewer uses it for the crop-relative highlight, and the partial trim selector for removals in slice coordinates. |
| Drawing.EmptyIsOnlyEmpty | MultiRegionSelectorComponent.razor.cs:188 | `IsEmpty` holds exactly for `Rectangle.Empty`. A zero-size rectangle away from the origin is not empty. |
| Text.IsNullOrWhiteSpace | ImageHighlightViewerComponent.razor.cs:193 | True exactly when every character is white space, so the empty string qualifies. |
| Text.DecimalString | ImageHighlightViewerComponent.razor.cs:201 | The interpolated colour component: a non-empty run of decimal digits that spells exactly the number, with no leading zero, and one digit exactly for values below 10. |
| Text.DecimalStringInjective | ImageHighlightViewerComponent.razor.cs:201 | Different components are written as different strings, so the colour string determines the parsed components. |
| RectangleExtensions.GetRemainingBelow | RectangleExtensions.cs:8-26 | Fails with "No overlap" exactly when the rectangles do not intersect. Fails with "Invalid manual rectangle" exactly when they intersect but the offset bottom edge of the manual rectangle is at or below the suggestion's bottom. Otherwise it returns the suggestion's X and width, from the offset bottom edge down to the suggestion's bottom, with positive height. |
| RectangleExtensions.TrimFromTop | RectangleExtensions.cs:27-40 | Fails with `ArgumentOutOfRange("trimHeight")` exactly when the height is negative or not below the region's height. Otherwise it keeps X, Width and Bottom, moves Y down by the height, and leaves at least one row. |
| RectangleExtensions.WidenToRight | RectangleExtensions.cs:49-67 | Fails exactly for a negative width. Returns the region itself for 0. Otherwise it keeps X, Y and Height and moves Right by the requested width. |
| RectangleExtensions.RemainingBelowIsTrim | RectangleExtensions.cs:8-40 | Below an overlapping manual rectangle whose offset edge is inside the suggestion, the remaining part is exactly the suggestion trimmed from the top down to that edge; both succeed or both fail. |
| RectangleExtensions.TrimsCompose | RectangleExtensions.cs:27-40 | Two successful trims in a row equal one trim by the sum. |
| RectangleExtensions.WideningsCompose | RectangleExtensions.cs:49-67 | Two widenings in a row equal one widening by the sum. |
| RectangleExtensions.RemainingBelowExample | RectangleExtensions.cs:16-25 | (0,0,100,100) below (0,0,100,40) with offset 5 is (0,45,100,55). |
| RectangleExtensions.TrimFromTopExample | RectangleExtensions.cs:34-39 | Trimming 50 rows off (0,0,100,200) gives (0,50,100,150). |
| Selection.SelectionRectangle | MultiRegionSelectorComponent.razor.cs:269-276 | The selection has non-negative width and height. Its left and right edges are the two clicked X values, and its top and bottom edges the two clicked Y values. |
| Selection.SelectionSymmetric | MultiRegionSelectorComponent.razor.cs:269-276 | The order of the two clicks does not change the selection. |
| Selection.SelectionOfCorners | ImageRegionSelectorComponent.razor.cs:60-70 | Points seeded from a rectangle's top-left and bottom-right corners select that rectangle again when its size is not negative. |
| Selection.SelectionTranslates | ImageRegionSelectorComponent.razor.cs:165-178 | Shifting both points by the same amount shifts the selection and keeps its size. |
| Selection.NudgeLeft | MultiRegionSelectorComponent.razor.cs:348-376 | Left in Move keeps the size and moves Right back by one. In Resize it keeps X and shrinks the width, never below 1. In AdjustEdges it moves X right by one and shrinks the width, never below 1, keeping the right edge while the width is at least 2. Y and Height never change. |
| Selection.NudgeRight | MultiRegionSelectorComponent.razor.cs:377-405 | Right in Move moves X by one and keeps the size. In Resize it keeps X and grows Right by one. In AdjustEdges it keeps Right and moves X left by one. Y and Height never change. |
| Selection.NudgeUp | MultiRegionSelectorComponent.razor.cs:406-430 | The vertical counterpart of NudgeLeft. The height never drops below 1 in Resize or AdjustEdges. |
| Selection.NudgeDown | MultiRegionSelectorComponent.razor.cs:431-464 | The vertical counterpart of NudgeRight. |
| Selection.NudgeHorizontalInverse | MultiRegionSelectorComponent.razor.cs:348-405 | Left undoes Right in every mode. Right undoes Left unless the width floor of 1 was hit. |
| Selection.NudgeVerticalInverse | MultiRegionSelectorComponent.razor.cs:406-464 | Up undoes Down in every mode. Down undoes Up unless the height floor of 1 was hit. |
| Selection.CornersOf | ImageRegionSelectorComponent.razor.cs:60-70 | The seeded points are (X,Y) and (X+W,Y+H), and their selection is the rectangle when W and H are not negative. |
| Selection.PointsLeft | ImageRegionSelectorComponent.razor.cs:163-193 | Left in Move shifts the selection left and keeps its size. In Resize only the end point moves left. In AdjustEdges only one point moves: the selection loses its left column, or grows to width 1 from width 0. The Y values never change. |
| Selection.PointsRight | ImageRegionSelectorComponent.razor.cs:195-225 | Right in Move shifts the selection right. In Resize only the end point moves right. In AdjustEdges only one point moves and the selection gains a column on its left. |
| Selection.PointsUp | ImageRegionSelectorComponent.razor.cs:226-256 | The vertical counterpart of PointsLeft. |
| Selection.PointsDown | ImageRegionSelectorComponent.razor.cs:258-288 | The vertical counterpart of PointsRight. |
| Selection.PointsHorizontalInverse | ImageRegionSelectorComponent.razor.cs:163-225 | Left after Right restores both points in every mode. Right after Left restores the selection unless AdjustEdges met a zero width. |
| Selection.PointsVerticalInverse | ImageRegionSelectorComponent.razor.cs:226-288 | Up after Down restores both points. Down after Up restores the selection unless AdjustEdges met a zero height. |
| CropHelper.CropOfClipsToImage | ImageCropHelper.cs:41-55 | A crop is blank exactly when no image is loaded, the request is `Rectangle.Empty`, or the request clipped to the image has no area. Otherwise it is a crop of the clip, which has positive size and lies inside both the image and the request. |
| CropHelper.CropOf | ImageCropHelper.cs:41-55 | No image or a `Rectangle.Empty` request gives nothing. A PNG covers an area of positive size that lies inside both the image and the request. Specified fully by `CropOfClipsToImage`. |
| CropHelper.ShouldLoad | MultiRegionSelectorComponent.razor.cs:254-256 | An image is loaded only if the file exists, the path has a character that is not white space, and the path differs from the one loaded last, so the same path is never loaded twice in a row. |
| CropHelper.ScaleToNatural | ImageCropHelper.cs:19-39 | Null stays null, and a zero rendered width or height returns the input unchanged. Otherwise the scaling request carries the input, the recorded natural size and the rendered size. |
| CropHelper.CropInsideImageIsExact | ImageCropHelper.cs:41-55 | A request of positive size inside the loaded image is cropped as it is. |
| CropHelper.CropIsIdempotent | ImageCropHelper.cs:41-55 | Cropping the area of a crop again gives the same crop. |
| CropHelper.ImageCropHelper.constructor | ImageCropHelper.cs:4-6 | A new helper has no path and a zero natural size. |
| CropHelper.ImageCropHelper.LoadImage | ImageCropHelper.cs:8-17 | `LoadImage` records the path and the bitmap's size, and `GetNaturalSize` then returns exactly that size. |
| PartialTrimSelector.RoundHalfEvenIsNearest | PartialTrimSelectorComponent.razor.cs:148-149 | The integer form of `Math.Round(Height / ZoomLevel)` is within half a step of the quotient, and is even on a tie. |
| PartialTrimSelector.TruncDivTowardZero | PartialTrimSelectorComponent.razor.cs:361 | The integer form of the `(int)` cast of `Height / ZoomLevel` truncates toward zero: it has the sign of the dividend and the largest magnitude that does not pass it. |
| PartialTrimSelector.ZoomHeight | PartialTrimSelectorComponent.razor.cs:148-149 | The slice height is at least 1. |
| PartialTrimSelector.TopSlice | PartialTrimSelectorComponent.razor.cs:151-156 | The top slice keeps X and Width, starts at the region's top, and is one slice height tall. |
| PartialTrimSelector.BottomSlice | PartialTrimSelectorComponent.razor.cs:158-163 | The bottom slice keeps X and Width, ends exactly at the region's Bottom, and is one slice height tall. |
| PartialTrimSelector.SliceFor | PartialTrimSelectorComponent.razor.cs:400-418 | The top view shows the top slice and the bottom view the bottom slice. Without a view the result is the "Invalid mode for rebuilding image" failure. |
| PartialTrimSelector.ViewForClick | PartialTrimSelectorComponent.razor.cs:170-184 | A click always chooses a view: Top exactly when its Y is below half a slice height, otherwise Bottom. |
| PartialTrimSelector.TranslateAsWritten | PartialTrimSelectorComponent.razor.cs:358-363 | As written: a top selection is offset by the region's corner, and a bottom selection by the region's bottom less the truncated height over the zoom. Without a view the result is the "Invalid mode for confirming selection" failure. |
| PartialTrimSelector.Translate | PartialTrimSelectorComponent.razor.cs:358-363 | Corrected: a top selection is offset by the region's corner, and a bottom selection by the region's bottom less the slice height. The size is kept, and without a view the result is the same failure. |
| PartialTrimSelector.TranslateRoundTrip | PartialTrimSelectorComponent.razor.cs:424-431 | The localisation `RebuildZoomedImage` applies to a view's removals exactly undoes the corrected translation into image coordinates. |
| PartialTrimSelector.TranslationsAgreeWhenRoundingDown | PartialTrimSelectorComponent.razor.cs:358-363 | The written and the corrected translation agree whenever the rounded and the truncated quotient coincide. |
| PartialTrimSelector.TranslateAsWrittenMissesBottomSlice | PartialTrimSelectorComponent.razor.cs:361 | For a region 11 rows high at zoom 4, a selection on row 0 of the bottom view is recorded one row too low: 9 instead of 8, which is row 1 of that view. |
| PartialTrimSelector.PartialTrimSelectorComponent.constructor | PartialTrimSelectorComponent.razor.cs:23-40 | Zoom 4, no view, adjustment mode Move, no points and no removals. |
| PartialTrimSelector.PartialTrimSelectorComponent.KeyUp | PartialTrimSelectorComponent.razor.cs:53-83 | Arrows nudge both points in the current adjustment mode, and only when both points exist. F1 emits all removals. F4, F5 and F6 select Move, Resize and AdjustEdges. No other key changes anything. |
| PartialTrimSelector.PartialTrimSelectorComponent.OnParametersSet | PartialTrimSelectorComponent.razor.cs:84-100 | A new loadable path loads the image. A new path or changed bounds re-initialise the views and empty both removal lists. Otherwise nothing changes. |
| PartialTrimSelector.PartialTrimSelectorComponent.PopulateInitialRegions | PartialTrimSelectorComponent.razor.cs:101-108 | Records the bounds, crops the reference image and both slices, and empties both removal lists. |
| PartialTrimSelector.PartialTrimSelectorComponent.ConfirmAllTrims | PartialTrimSelectorComponent.razor.cs:127-134 | Emits all top removals followed by all bottom removals, in order. |
| PartialTrimSelector.PartialTrimSelectorComponent.ClearRegions | PartialTrimSelectorComponent.razor.cs:135-140 | Empties both removal lists and re-crops the region image. |
| PartialTrimSelector.PartialTrimSelectorComponent.ClearCurrentSelection | PartialTrimSelectorComponent.razor.cs:141-145 | Clears both points. |
| PartialTrimSelector.PartialTrimSelectorComponent.LoadZoomedViews | PartialTrimSelectorComponent.razor.cs:146-166 | The two views are the crops of the top and the bottom slice. |
| PartialTrimSelector.PartialTrimSelectorComponent.HandleImageClick | PartialTrimSelectorComponent.razor.cs:167-193 | Without a view, a click only chooses one, and records no point. With a view, the first click sets the start point, the second the end point, and later clicks change nothing. |
| PartialTrimSelector.PartialTrimSelectorComponent.SetMode | PartialTrimSelectorComponent.razor.cs:215-222 | Any requested adjustment mode is applied. |
| PartialTrimSelector.PartialTrimSelectorComponent.LeftArrowClicked | PartialTrimSelectorComponent.razor.cs:223-252 | Nothing without both points. Otherwise the points move as `PointsLeft` says. |
| PartialTrimSelector.PartialTrimSelectorComponent.RightArrowClicked | PartialTrimSelectorComponent.razor.cs:253-282 | Nothing without both points. Otherwise `PointsRight`. |
| PartialTrimSelector.PartialTrimSelectorComponent.UpArrowClicked | PartialTrimSelectorComponent.razor.cs:283-312 | Nothing without both points. Otherwise `PointsUp`. |
| PartialTrimSelector.PartialTrimSelectorComponent.DownArrowClicked | PartialTrimSelectorComponent.razor.cs:313-342 | Nothing without both points. Otherwise `PointsDown`. |
| PartialTrimSelector.PartialTrimSelectorComponent.ConfirmCurrentSelection | PartialTrimSelectorComponent.razor.cs:345-378 | With both points, the normalised selection, translated into image coordinates (corrected), is appended to the top or the bottom removals according to the view, and the points are cleared. Without a view it reports the "Invalid mode for confirming selection" error. Without both points nothing changes. |
| PartialTrimSelector.PartialTrimSelectorComponent.ShowPreview | PartialTrimSelectorComponent.razor.cs:379-396 | Resets the view to none and clears both points. The white fills are every removal, top then bottom, in region coordinates. |
| PartialTrimSelector.PartialTrimSelectorComponent.RebuildZoomedImage | PartialTrimSelectorComponent.razor.cs:398-440 | The slice is the one the view shows, or the rebuild failure without a view. The fills are that view's removals in slice coordinates. |
| PartialTrimSelector.LocalFills | PartialTrimSelectorComponent.razor.cs:424-431 | The loop yields, for each removal in order, that removal in the origin's coordinates. |
| MultiRegionSelector.ClearSelectionStep | MultiRegionSelectorComponent.razor.cs:315-320 | Both points and the current region are cleared. Nothing else changes. |
| MultiRegionSelector.StartNewRegionStep | MultiRegionSelectorComponent.razor.cs:186-198 | No-op on an empty current region. Otherwise exactly the current region is appended, and the points and the current region are cleared. |
| MultiRegionSelector.RemoveLastRegionStep | MultiRegionSelectorComponent.razor.cs:177-185 | Drops only the last region and clears the selection, and only when there is a region and the list is not completed. |
| MultiRegionSelector.CompleteStep | MultiRegionSelectorComponent.razor.cs:199-222 | With nothing chosen it emits the single rectangle (0,0,naturalW,naturalH). With a half-made selection it emits nothing. Otherwise it emits the regions plus a non-empty current region, which is also appended to the list. |
| MultiRegionSelector.CanChooseLastRegion | MultiRegionSelectorComponent.razor.cs:99-122 | True exactly with SelectEdgesOnly and a non-empty current region. |
| MultiRegionSelector.ChooseLastRegionStep | MultiRegionSelectorComponent.razor.cs:123-145 | When allowed, the current region is committed, and the new current region spans from its bottom-left corner to the image's bottom-right corner. Otherwise nothing changes. |
| MultiRegionSelector.AssistChooseNextRegionStep | MultiRegionSelectorComponent.razor.cs:146-176 | Only with SelectEdgesOnly and no pending points: a current region is committed, then the start point goes to (0,0) with no regions, or to the last region's (X, Bottom). |
| MultiRegionSelector.HandleClickStep | MultiRegionSelectorComponent.razor.cs:277-314 | The first click sets the start point (at x = 0 with SelectEdgesOnly). The second makes the selection the current region (out to the natural width with SelectEdgesOnly) and clears the points. |
| MultiRegionSelector.SetModeStep | MultiRegionSelectorComponent.razor.cs:329-347 | Only the mode changes. It is always Resize with SelectEdgesOnly, and the requested mode otherwise. |
| MultiRegionSelector.ArrowLeft | MultiRegionSelectorComponent.razor.cs:348-376 | Nothing with SelectEdgesOnly or an empty current region. Otherwise the current region is nudged left. |
| MultiRegionSelector.ArrowRight | MultiRegionSelectorComponent.razor.cs:377-405 | Nothing with SelectEdgesOnly or an empty current region. Otherwise the current region is nudged right. |
| MultiRegionSelector.ArrowUp | MultiRegionSelectorComponent.razor.cs:406-430 | Nothing on an empty current region. Otherwise it is nudged up. |
| MultiRegionSelector.ArrowDown | MultiRegionSelectorComponent.razor.cs:431-464 | Nothing on an empty current region, or with SelectEdgesOnly when its Bottom is the natural height. Otherwise it is nudged down. |
| MultiRegionSelector.ParametersSetStep | MultiRegionSelectorComponent.razor.cs:242-267 | Completion and the end point are reset. Without SelectEdgesOnly the regions and the start point are also cleared, while the current region and the mode are kept. With SelectEdgesOnly the mode is Resize. |
| MultiRegionSelector.ParametersResetStep | MultiRegionSelectorComponent.razor.cs:244-253 | Records SelectEdgesOnly, clears completion, the regions and both points, keeps the current region, the log and the cropped view, and forces Resize exactly when SelectEdgesOnly is set. |
| MultiRegionSelector.KeyUpStep | MultiRegionSelectorComponent.razor.cs:39-98 | No key changes SelectEdgesOnly. Only F6 can add to the completion log, and by at most one entry. Constrained further by `KeysGated`, `KeyUpPreserves` and `RegionsChangeOnlyByCurrentOrLast`. |
| MultiRegionSelector.KeysGated | MultiRegionSelectorComponent.razor.cs:39-53 | Once completed, every key is ignored. While the cropped view shows, only F5 acts, and it only closes the view. |
| MultiRegionSelector.KeyUpPreserves | MultiRegionSelectorComponent.razor.cs:39-98 | No key sets `completed`, and no key leaves an end point set. |
| MultiRegionSelector.RegionsChangeOnlyByCurrentOrLast | MultiRegionSelectorComponent.razor.cs:39-98 | A key leaves the region list unchanged, appends exactly the current region, or (F7) drops the last region. |
| MultiRegionSelector.RemoveUndoesStart | MultiRegionSelectorComponent.razor.cs:177-198 | Removing the last region right after committing one gives the list back. |
| MultiRegionSelector.EdgesOnlyClicksSpanWidth | MultiRegionSelectorComponent.razor.cs:277-314 | With SelectEdgesOnly, two clicks select the full image width between the two clicked rows. |
| MultiRegionSelector.CompleteTwiceRepeatsCurrent | MultiRegionSelectorComponent.razor.cs:199-222 | Complete appends a non-empty current region without clearing it, so a second Complete emits that region twice. |
| MultiRegionSelector.ParametersSetCommitsLeftoverRegion | MultiRegionSelectorComponent.razor.cs:242-267 | With SelectEdgesOnly, a current region left from before becomes the first region, and the next one starts below it; with none, the start point is (0,0). |
| MultiRegionSelector.MultiRegionSelectorComponent.constructor | MultiRegionSelectorComponent.razor.cs:20-22 | No regions, nothing completed, no cropped view, and mode Move. |
| MultiRegionSelector.MultiRegionSelectorComponent.KeyUp | MultiRegionSelectorComponent.razor.cs:39-98 | The new state is `KeyUpStep` of the old one. |
| MultiRegionSelector.MultiRegionSelectorComponent.ChooseLastRegion | MultiRegionSelectorComponent.razor.cs:123-145 | The new state is `ChooseLastRegionStep` of the old one. |
| MultiRegionSelector.MultiRegionSelectorComponent.AssistChooseNextRegion | MultiRegionSelectorComponent.razor.cs:146-176 | The new state is `AssistChooseNextRegionStep` of the old one. |
| MultiRegionSelector.MultiRegionSelectorComponent.RemoveLastRegion | MultiRegionSelectorComponent.razor.cs:177-185 | The new state is `RemoveLastRegionStep` of the old one. |
| MultiRegionSelector.MultiRegionSelectorComponent.StartNewRegion | MultiRegionSelectorComponent.razor.cs:186-198 | The new state is `StartNewRegionStep` of the old one. |
| MultiRegionSelector.MultiRegionSelectorComponent.Complete | MultiRegionSelectorComponent.razor.cs:199-222 | The new state is `CompleteStep` of the old one. |
| MultiRegionSelector.MultiRegionSelectorComponent.OnParametersSet | MultiRegionSelectorComponent.razor.cs:242-267 | The new state is `ParametersSetStep` of the old one. A new loadable path loads the image. |
| MultiRegionSelector.MultiRegionSelectorComponent.ResetForParameters | MultiRegionSelectorComponent.razor.cs:244-256 | The resets done before the image is loaded. |
| MultiRegionSelector.MultiRegionSelectorComponent.HandleClick | MultiRegionSelectorComponent.razor.cs:277-314 | The new state is `HandleClickStep` of the old one. |
| MultiRegionSelector.MultiRegionSelectorComponent.ClearSelection | MultiRegionSelectorComponent.razor.cs:315-320 | The new state is `ClearSelectionStep` of the old one. |
| MultiRegionSelector.MultiRegionSelectorComponent.SetMode | MultiRegionSelectorComponent.razor.cs:329-347 | The new state is `SetModeStep` of the old one. |
| MultiRegionSelector.MultiRegionSelectorComponent.LeftArrowClicked | MultiRegionSelectorComponent.razor.cs:348-376 | The new state is `ArrowLeft` of the old one. |
| MultiRegionSelector.MultiRegionSelectorComponent.RightArrowClicked | MultiRegionSelectorComponent.razor.cs:377-405 | The new state is `ArrowRight` of the old one. |
| MultiRegionSelector.MultiRegionSelectorComponent.UpArrowClicked | MultiRegionSelectorComponent.razor.cs:406-430 | The new state is `ArrowUp` of the old one. |
| MultiRegionSelector.MultiRegionSelectorComponent.DownArrowClicked | MultiRegionSelectorComponent.razor.cs:431-464 | The new state is `ArrowDown` of the old one. |
| HighlightRegionsSelector.IsProperRectangleEqual | HighlightRegionsSelectorComponent.razor.cs:238-245 | True exactly when the two rectangles are equal. |
| HighlightRegionsSelector.AnyRepeats | HighlightRegionsSelectorComponent.razor.cs:117-118 | True exactly when some entry of the list has the region as its repeated highlight. |
| HighlightRegionsSelector.GetHighlightColor | HighlightRegionsSelectorComponent.razor.cs:115-121 | The repeated colour exactly when the region is a repeated highlight in either repeat list; otherwise the highlight colour. |
| HighlightRegionsSelector.FirstMatch | HighlightRegionsSelectorComponent.razor.cs:229-230 | The index of the first entry for the loaded image with equal original bounds, or none exactly when there is no such entry. |
| HighlightRegionsSelector.ClearSelectionStep | HighlightRegionsSelectorComponent.razor.cs:273-283 | Always empties the points and the current region. A manual clear of the suggested region re-enables suggestions. Nothing else changes. |
| HighlightRegionsSelector.StartNewRegionStep | HighlightRegionsSelectorComponent.razor.cs:142-154 | No-op on an empty current region. Otherwise exactly the current region is appended, and the selection is cleared. |
| HighlightRegionsSelector.Suggestion | HighlightRegionsSelectorComponent.razor.cs:106-111 | The previous highlight moved down by its own height, with the same X, Width and Height. |
| HighlightRegionsSelector.ProcessPossibleSuggestionStep | HighlightRegionsSelectorComponent.razor.cs:94-114 | Nothing once a suggestion was given. Otherwise a current region is committed first. Then, unless the previous highlight is empty, the suggestion becomes the current region and the last suggestion, and suggesting is disabled. |
| HighlightRegionsSelector.SetRepeatedRegionStep | HighlightRegionsSelectorComponent.razor.cs:122-141 | Only once, and only with a non-empty current region: appends the entry (image path, bounds, current region) and marks a repeat as recorded. |
| HighlightRegionsSelector.FinalSendStep | HighlightRegionsSelectorComponent.razor.cs:155-163 | Emits the given regions with the current repeat list and marks the selector completed. The new state is the old one with both points cleared, the current region emptied and the result logged; the regions, the mode, the repeat list and the suggestion and repeat flags are kept. |
| HighlightRegionsSelector.CompleteStep | HighlightRegionsSelectorComponent.razor.cs:164-183 | With no regions and no current region, or a half-made selection, it does nothing. Otherwise the regions become the old ones plus a non-empty current region, and they are emitted with the repeat list. The selector is marked completed, both points are cleared and the current region is emptied; the mode, the repeat list and the suggestion and repeat flags are kept. |
| HighlightRegionsSelector.HandleClickStep | HighlightRegionsSelectorComponent.razor.cs:254-272 | The first click sets the start point. The second makes the selection the current region and clears the points. Later clicks change nothing. |
| HighlightRegionsSelector.ArrowStep | HighlightRegionsSelectorComponent.razor.cs:303-402 | Nothing on an empty current region. Otherwise only the current region changes, nudged in the pressed direction and the current mode. |
| HighlightRegionsSelector.AutomateRepeatedStep | HighlightRegionsSelectorComponent.razor.cs:223-237 | The highlight of the first matching repeat entry is appended and marks a repeat as recorded. Without a match nothing changes. |
| HighlightRegionsSelector.ParametersSetSeedsRepeat | HighlightRegionsSelectorComponent.razor.cs:203-237 | After a parameter set the regions are exactly the first matching repeat's highlight, or none. The repeat list, completion and the suggestion are reset, and the current region is kept. |
| HighlightRegionsSelector.MatchesImage | HighlightRegionsSelectorComponent.razor.cs:229-231 | An entry matches exactly when its image path is the last loaded path and its original bounds equal the current bounds. |
| HighlightRegionsSelector.ParametersResetStep | HighlightRegionsSelectorComponent.razor.cs:205-212 | Records the four parameters. Clears completion, both points, the regions, the repeat list and the suggestion. Keeps the current region, `_alreadyRepeated`, the mode and the log. |
| HighlightRegionsSelector.ParametersSetStep | HighlightRegionsSelectorComponent.razor.cs:203-221 | Records the four parameters, leaves the selector not completed with no points and suggesting enabled, seeds at most one region and keeps the log. Specified further by `ParametersSetSeedsRepeat`. |
| HighlightRegionsSelector.KeyUpStep | HighlightRegionsSelectorComponent.razor.cs:49-93 | No key changes the parameters, and only F6 can add to the completion log. Constrained further by `KeyUpRepeatsAtMostOnce` and `CompletedIgnoresKeys`. |
| HighlightRegionsSelector.KeysStep | HighlightRegionsSelectorComponent.razor.cs:49-93 | Over any run of keys the parameters stay the same, and a run without F6 leaves the completion log unchanged. |
| HighlightRegionsSelector.KeyUpRepeatsAtMostOnce | HighlightRegionsSelectorComponent.razor.cs:49-93 | One key adds at most the current-region entry to the repeat list, and only while no repeat was recorded. Once recorded, the flag stays set. |
| HighlightRegionsSelector.KeysRepeatAtMostOnce | HighlightRegionsSelectorComponent.razor.cs:122-141 | Over any run of keys the repeat list only grows, as an extension of the old list, by at most one entry, and by none once a repeat is recorded. |
| HighlightRegionsSelector.KeysSuggestAtMostOnce | HighlightRegionsSelectorComponent.razor.cs:94-114 | Once a suggestion was given, no run of keys re-enables it, so F7 keeps doing nothing. |
| HighlightRegionsSelector.ManualClearReenablesSuggestion | HighlightRegionsSelectorComponent.razor.cs:273-283 | A manual clear of the suggested region lets the next F7 suggest again. |
| HighlightRegionsSelector.CompletedIgnoresKeys | HighlightRegionsSelectorComponent.razor.cs:51-54 | After completion every run of keys leaves the state unchanged. |
| HighlightRegionsSelector.HighlightRegionsSelectorComponent.constructor | HighlightRegionsSelectorComponent.razor.cs:28-36 | Empty lists, no flags, no suggestion, and mode Move. |
| HighlightRegionsSelector.HighlightRegionsSelectorComponent.KeyUp | HighlightRegionsSelectorComponent.razor.cs:49-93 | The new state is `KeyUpStep` of the old one. |
| HighlightRegionsSelector.HighlightRegionsSelectorComponent.ProcessPossibleSuggestion | HighlightRegionsSelectorComponent.razor.cs:94-114 | The new state is `ProcessPossibleSuggestionStep` of the old one. |
| HighlightRegionsSelector.HighlightRegionsSelectorComponent.SetRepeatedRegion | HighlightRegionsSelectorComponent.razor.cs:122-141 | The new state is `SetRepeatedRegionStep` of the old one. |
| HighlightRegionsSelector.HighlightRegionsSelectorComponent.StartNewRegion | HighlightRegionsSelectorComponent.razor.cs:142-154 | The new state is `StartNewRegionStep` of the old one. |
| HighlightRegionsSelector.HighlightRegionsSelectorComponent.FinalSend | HighlightRegionsSelectorComponent.razor.cs:155-163 | The new state is `FinalSendStep` of the old one. |
| HighlightRegionsSelector.HighlightRegionsSelectorComponent.Complete | HighlightRegionsSelectorComponent.razor.cs:164-183 | The new state is `CompleteStep` of the old one. |
| HighlightRegionsSelector.HighlightRegionsSelectorComponent.OnParametersSet | HighlightRegionsSelectorComponent.razor.cs:203-222 | The new state is the parameter-set step of the old one. A new loadable path loads the image, and the region image is the crop of the bounds. |
| HighlightRegionsSelector.HighlightRegionsSelectorComponent.ResetForParameters | HighlightRegionsSelectorComponent.razor.cs:203-215 | The parameters are recorded and the resets are applied. |
| HighlightRegionsSelector.HighlightRegionsSelectorComponent.SetParameters | HighlightRegionsSelectorComponent.razor.cs:203-215 | The parameters are recorded. |
| HighlightRegionsSelector.HighlightRegionsSelectorComponent.ResetSelection | HighlightRegionsSelectorComponent.razor.cs:203-215 | Points, completion, regions, the repeat list and the suggestion are reset. |
| HighlightRegionsSelector.HighlightRegionsSelectorComponent.LoadRegionImage | HighlightRegionsSelectorComponent.razor.cs:203-222 | A new loadable path loads the image. The region image is the crop of the bounds. |
| HighlightRegionsSelector.HighlightRegionsSelectorComponent.PossibleAutomateRepeatedRegions | HighlightRegionsSelectorComponent.razor.cs:223-237 | The new state is `AutomateRepeatedStep` of the old one. |
| HighlightRegionsSelector.HighlightRegionsSelectorComponent.HandleClick | HighlightRegionsSelectorComponent.razor.cs:254-272 | The new state is `HandleClickStep` of the old one. |
| HighlightRegionsSelector.HighlightRegionsSelectorComponent.ClearSelection | HighlightRegionsSelectorComponent.razor.cs:273-283 | The new state is `ClearSelectionStep` of the old one. |
| HighlightRegionsSelector.HighlightRegionsSelectorComponent.SetMode | HighlightRegionsSelectorComponent.razor.cs:292-302 | Only the mode changes, to the requested one. |
| HighlightRegionsSelector.HighlightRegionsSelectorComponent.LeftArrowClicked | HighlightRegionsSelectorComponent.razor.cs:303-327 | The new state is the left `ArrowStep` of the old one. |
| HighlightRegionsSelector.HighlightRegionsSelectorComponent.RightArrowClicked | HighlightRegionsSelectorComponent.razor.cs:328-352 | The new state is the right `ArrowStep` of the old one. |
| HighlightRegionsSelector.HighlightRegionsSelectorComponent.UpArrowClicked | HighlightRegionsSelectorComponent.razor.cs:353-377 | The new state is the up `ArrowStep` of the old one. |
| HighlightRegionsSelector.HighlightRegionsSelectorComponent.DownArrowClicked | HighlightRegionsSelectorComponent.razor.cs:378-402 | The new state is the down `ArrowStep` of the old one. |
| TwoRegionSelector.StepFor | TwoRegionSelectorComponent.razor.cs:184-195 | After loading: Done exactly with both review regions, SelectingSecond exactly with only the first, and SelectingFirst exactly without the first. |
| TwoRegionSelector.DesiredSelection | TwoRegionSelectorComponent.razor.cs:249-260 | The two-point selection, except that a positive desired width replaces its width. |
| TwoRegionSelector.ActiveRectangle | TwoRegionSelectorComponent.razor.cs:346-354 | The second rectangle while selecting it, if it exists. Otherwise the first, if it exists. Otherwise `Rectangle.Empty`. |
| TwoRegionSelector.SetActive | TwoRegionSelectorComponent.razor.cs:335-345 | Overwrites at most one rectangle, and never creates a missing one. |
| TwoRegionSelector.SetActiveThenActive | TwoRegionSelectorComponent.razor.cs:335-354 | Writing a rectangle back makes it the active one when there is one to overwrite. Writing back the active rectangle changes nothing. |
| TwoRegionSelector.SetModeAsWritten | TwoRegionSelectorComponent.razor.cs:116-142 | As written: outside Done the requested mode always wins, even over the forced Resize. |
| TwoRegionSelector.SetModeCorrected | TwoRegionSelectorComponent.razor.cs:116-142 | Corrected: a desired left edge and width force Resize. In Done the mode is kept. Otherwise the requested mode is applied. |
| TwoRegionSelector.SetModeAsWrittenDropsForcedResize | TwoRegionSelectorComponent.razor.cs:118-123 | With a desired left edge and width while selecting the first region, F1 switches the written version to Move; the corrected version stays in Resize. |
| TwoRegionSelector.SetModeVersionsAgree | TwoRegionSelectorComponent.razor.cs:116-142 | The two versions agree whenever no Resize is forced, and in Done. |
| TwoRegionSelector.TwoRegionSelectorComponent.GetActiveRectangle | TwoRegionSelectorComponent.razor.cs:346-354 | The rectangle the arrows act on: the second while it is being selected and exists, otherwise the first if it exists, otherwise `Rectangle.Empty`. |
| TwoRegionSelector.TwoRegionSelectorComponent.constructor | TwoRegionSelectorComponent.razor.cs:47-48 | No rectangles, step SelectingFirst, and mode Move. |
| TwoRegionSelector.TwoRegionSelectorComponent.KeyUp | TwoRegionSelectorComponent.razor.cs:67-97 | With neither rectangle, keys are ignored. An arrow leaves both rectangles unchanged when the active rectangle is empty, or for Left and Right with a desired left edge. Otherwise the active rectangle, nudged in the pressed direction and the current mode, is written back through `SetActive`. F1, F2 and F4 request Move, Resize and AdjustEdges; F1 in Done affirms the review once. Other keys change nothing. |
| TwoRegionSelector.TwoRegionSelectorComponent.SetMode | TwoRegionSelectorComponent.razor.cs:116-142 | The mode becomes the corrected mode. The review-affirmed callback fires exactly on a Move request in Done. |
| TwoRegionSelector.TwoRegionSelectorComponent.ApplySuggestions | TwoRegionSelectorComponent.razor.cs:144-159 | Fails exactly when both arguments are missing. Only the given rectangles are set, and a given second region moves the step to SelectingSecond. |
| TwoRegionSelector.TwoRegionSelectorComponent.OnParametersSet | TwoRegionSelectorComponent.razor.cs:165-197 | Records the parameters and forces Resize for a desired left edge and width. A new loadable path loads the review regions and derives the step. |
| TwoRegionSelector.TwoRegionSelectorComponent.LoadReviewedImage | TwoRegionSelectorComponent.razor.cs:180-195 | The image is loaded. The rectangles are the review regions, and the step is `StepFor` of them. |
| TwoRegionSelector.TwoRegionSelectorComponent.SetRenderedSize | TwoRegionSelectorComponent.razor.cs:209-215 | Records the rendered size the page reports. |
| TwoRegionSelector.TwoRegionSelectorComponent.GetScaledCropRectangle | TwoRegionSelectorComponent.razor.cs:219-234 | None without a rectangle or a rendered size. Otherwise the scaling request for the rectangle. |
| TwoRegionSelector.TwoRegionSelectorComponent.GetTwoRegionEntry | TwoRegionSelectorComponent.razor.cs:236-248 | Returns the current pair, then resets both rectangles and the step to SelectingFirst. |
| TwoRegionSelector.TwoRegionSelectorComponent.HandleClick | TwoRegionSelectorComponent.razor.cs:261-293 | The first click sets the start point. When a desired left edge is set, the start is at that left edge and keeps the clicked Y; otherwise it is the clicked point. The second click stores the selection into the first or the second rectangle according to the step, leaves both rectangles unchanged in Done, and clears both points. |
| TwoRegionSelector.TwoRegionSelectorComponent.ClearSelection | TwoRegionSelectorComponent.razor.cs:294-315 | Sets the start point to the desired corner (desired left, desired top) when both are positive, and clears it otherwise. Always nulls the second rectangle. Without a review first region it also nulls the first and returns to SelectingFirst; otherwise the step becomes SelectingSecond. |
| TwoRegionSelector.TwoRegionSelectorComponent.SetActiveRectangle | TwoRegionSelectorComponent.razor.cs:335-345 | The rectangles become `SetActive` of the old ones. |
| TwoRegionSelector.TwoRegionSelectorComponent.LeftArrowClicked | TwoRegionSelectorComponent.razor.cs:355-384 | Nothing with a desired left edge. Otherwise the active rectangle is nudged left. |
| TwoRegionSelector.TwoRegionSelectorComponent.RightArrowClicked | TwoRegionSelectorComponent.razor.cs:385-414 | Nothing with a desired left edge. Otherwise the active rectangle is nudged right. |
| TwoRegionSelector.TwoRegionSelectorComponent.UpArrowClicked | TwoRegionSelectorComponent.razor.cs:415-440 | The active rectangle is nudged up. |
| TwoRegionSelector.TwoRegionSelectorComponent.DownArrowClicked | TwoRegionSelectorComponent.razor.cs:442-467 | The active rectangle is nudged down. |
| TwoRegionSelector.TwoRegionSelectorComponent.BeginSecondRegion | TwoRegionSelectorComponent.razor.cs:477-484 | With a first rectangle, the step becomes SelectingSecond. |
| ImageRegionSelector.ImageRegionSelectorComponent.Points | ImageRegionSelectorComponent.razor.cs:126-137 | The two points exactly when both are placed. |
| ImageRegionSelector.ImageRegionSelectorComponent.constructor | ImageRegionSelectorComponent.razor.cs:295 | No points, and mode AdjustEdges. |
| ImageRegionSelector.ImageRegionSelectorComponent.OnParametersSet | ImageRegionSelectorComponent.razor.cs:43-72 | A new loadable path records the natural size and seeds the points from the initial rectangle, or clears them. Otherwise the points are kept. |
| ImageRegionSelector.ImageRegionSelectorComponent.SetRenderedSize | ImageRegionSelectorComponent.razor.cs:21-27 | Records the rendered size the page reports. |
| ImageRegionSelector.ImageRegionSelectorComponent.HandleClick | ImageRegionSelectorComponent.razor.cs:104-118 | Click one sets the start point and click two the end point. Later clicks change nothing. |
| ImageRegionSelector.ImageRegionSelectorComponent.ClearSelection | ImageRegionSelectorComponent.razor.cs:120-124 | Clears both points. |
| ImageRegionSelector.ImageRegionSelectorComponent.GetSelectionRectangle | ImageRegionSelectorComponent.razor.cs:126-137 | None unless both points are set. Otherwise the selection they span, of non-negative size. |
| ImageRegionSelector.ImageRegionSelectorComponent.GetScaledCropRectangle | ImageRegionSelectorComponent.razor.cs:139-155 | None exactly without a selection or with a zero rendered width or height. Otherwise the scaling request for the selection. |
| ImageRegionSelector.ImageRegionSelectorComponent.LeftArrowClicked | ImageRegionSelectorComponent.razor.cs:163-193 | Nothing without both points. Otherwise `PointsLeft`. |
| ImageRegionSelector.ImageRegionSelectorComponent.RightArrowClicked | ImageRegionSelectorComponent.razor.cs:195-225 | Nothing without both points. Otherwise `PointsRight`. |
| ImageRegionSelector.ImageRegionSelectorComponent.UpArrowClicked | ImageRegionSelectorComponent.razor.cs:226-256 | Nothing without both points. Otherwise `PointsUp`. |
| ImageRegionSelector.ImageRegionSelectorComponent.DownArrowClicked | ImageRegionSelectorComponent.razor.cs:258-288 | Nothing without both points. Otherwise `PointsDown`. |
| SingleRegionSelector.SingleRegionSelectorComponent.Points | SingleRegionSelectorComponent.razor.cs:130-141 | The two points exactly when both are placed. |
| SingleRegionSelector.SingleRegionSelectorComponent.constructor | SingleRegionSelectorComponent.razor.cs:291 | No points, and mode AdjustEdges. |
| SingleRegionSelector.SingleRegionSelectorComponent.OnParametersSet | SingleRegionSelectorComponent.razor.cs:47-87 | A new loadable path loads the image, records the initial rectangle, and seeds the points from it or clears them. On the same path, a changed initial rectangle is recorded and, when there is one, re-seeds the points. |
| SingleRegionSelector.SingleRegionSelectorComponent.SetRenderedSize | SingleRegionSelectorComponent.razor.cs:21-27 | Records the rendered size the page reports. |
| SingleRegionSelector.SingleRegionSelectorComponent.HandleClick | SingleRegionSelectorComponent.razor.cs:108-122 | Click one sets the start point and click two the end point. Later clicks change nothing. |
| SingleRegionSelector.SingleRegionSelectorComponent.ClearSelection | SingleRegionSelectorComponent.razor.cs:124-128 | Clears both points. |
| SingleRegionSelector.SingleRegionSelectorComponent.GetSelectionRectangle | SingleRegionSelectorComponent.razor.cs:130-141 | None unless both points are set. Otherwise the selection they span, of non-negative size. |
| SingleRegionSelector.SingleRegionSelectorComponent.GetScaledCropRectangle | SingleRegionSelectorComponent.razor.cs:143-146 | The crop helper's scaling of the selection. It is none exactly without a selection. Without a rendered size it is the selection unchanged. Otherwise it is the request to scale the selection from the rendered size to the loaded image's natural size. |
| SingleRegionSelector.SingleRegionSelectorComponent.LeftArrowClicked | SingleRegionSelectorComponent.razor.cs:159-189 | Nothing without both points. Otherwise `PointsLeft`. |
| SingleRegionSelector.SingleRegionSelectorComponent.RightArrowClicked | SingleRegionSelectorComponent.razor.cs:191-221 | Nothing without both points. Otherwise `PointsRight`. |
| SingleRegionSelector.SingleRegionSelectorComponent.UpArrowClicked | SingleRegionSelectorComponent.razor.cs:222-252 | Nothing without both points. Otherwise `PointsUp`. |
| SingleRegionSelector.SingleRegionSelectorComponent.DownArrowClicked | SingleRegionSelectorComponent.razor.cs:254-284 | Nothing without both points. Otherwise `PointsDown`. |
| ImageHighlightViewer.HighlightBox | ImageHighlightViewerComponent.razor.cs:159-181 | Hidden for a zero width or height, or when the relative highlight lies wholly outside the crop. Otherwise the box starts at non-negative coordinates, stays inside the crop, does not pass the highlight's right or bottom edge. For a highlight and a crop of positive size it also has positive size. |
| ImageHighlightViewer.HighlightBoxIsIntersection | ImageHighlightViewerComponent.razor.cs:159-181 | For a highlight and a crop of positive size, the overlay is shown exactly when the relative highlight meets the crop, and it is then their intersection. |
| ImageHighlightViewer.NegativeWidthHighlightShown | ImageHighlightViewerComponent.razor.cs:161-181 | Only a width or height of exactly 0 hides the overlay: a highlight (10,0,-3,5) in a 20×20 crop is shown as a box of width -3. |
| ImageHighlightViewer.RgbaHighlightColor | ImageHighlightViewerComponent.razor.cs:191-207 | A blank colour, or one the parse rejects, falls back to `rgba(255, 255, 0, 0.2)`. Otherwise the parsed components with alpha 0.2. |
| ImageHighlightViewer.MovedDown | ImageHighlightViewerComponent.razor.cs:98-103 | Y grows by the step. X, Width and Height are kept. |
| ImageHighlightViewer.MovedUp | ImageHighlightViewerComponent.razor.cs:115-122 | Y drops by the step but never below 0. X, Width and Height are kept. |
| ImageHighlightViewer.UpUndoesDown | ImageHighlightViewerComponent.razor.cs:91-122 | Down then up by the same step returns a highlight that was on the image. |
| ImageHighlightViewer.ImageHighlightViewerComponent.constructor | ImageHighlightViewerComponent.razor.cs:18-26 | No state, the default colour, an overlap of 100 and a step of 10. |
| ImageHighlightViewer.ImageHighlightViewerComponent.ArrowDown | ImageHighlightViewerComponent.razor.cs:91-107 | Nothing without state. Otherwise the highlight is `MovedDown` and reported to the parent. |
| ImageHighlightViewer.ImageHighlightViewerComponent.ArrowUp | ImageHighlightViewerComponent.razor.cs:108-126 | Nothing without state. Otherwise the highlight is `MovedUp` and reported to the parent. |
| ImageHighlightViewer.ImageHighlightViewerComponent.KeyUp | ImageHighlightViewerComponent.razor.cs:57-90 | Down and Up move the highlight by `MovedDown`/`MovedUp` and report the new highlight to the parent once; without state they change nothing. PageDown and PageUp scroll a rendered element to `PageDownTarget`/`PageUpTarget`. Other keys change nothing. |
| ImageHighlightViewer.ImageHighlightViewerComponent.GetHighlightBox | ImageHighlightViewerComponent.razor.cs:159-181 | Hidden without state. A shown box lies inside the crop area. For a highlight and a crop of positive size, the box is shown exactly when the crop-relative highlight meets the crop, and it is then their intersection. |
| ImageHighlightViewer.ImageHighlightViewerComponent.GetRgbaHighlightColor | ImageHighlightViewerComponent.razor.cs:191-207 | A blank colour or one the parse rejects gives `rgba(255, 255, 0, 0.2)`. Otherwise the result is `rgba(` followed by the parsed red, green and blue in decimal and alpha 0.2. |
| RegionHeightAdjuster.ReferenceBounds | RegionHeightAdjusterComponent.razor.cs:94-99 | The region with the extra height added at the bottom: X, Y and Width are kept. |
| RegionHeightAdjuster.AdjustedBounds | RegionHeightAdjusterComponent.razor.cs:106-121 | None exactly when the adjusted height is below 1. Otherwise X, Y and Width are kept, and Bottom moves by the adjustment. |
| RegionHeightAdjuster.AdjustmentReverses | RegionHeightAdjusterComponent.razor.cs:106-121 | Adjusting back by the opposite amount recovers the region. |
| RegionHeightAdjuster.KeyDelta | RegionHeightAdjusterComponent.razor.cs:53-64 | Up is -1, PageUp is -10, Down is +1, and any other key is 0. |
| RegionHeightAdjuster.RegionHeightAdjusterComponent.constructor | RegionHeightAdjusterComponent.razor.cs:30-35 | Zero adjustment, no bounds recorded and nothing saved. |
| RegionHeightAdjuster.RegionHeightAdjusterComponent.KeyUp | RegionHeightAdjusterComponent.razor.cs:49-69 | The counter changes by `KeyDelta` even when the region is refused. The adjusted crop is refreshed only when the new height is at least 1. F1 emits the adjustment. |
| RegionHeightAdjuster.RegionHeightAdjusterComponent.OnParametersSet | RegionHeightAdjusterComponent.razor.cs:70-86 | A new loadable path or changed bounds re-initialise the adjuster. Otherwise nothing changes. |
| RegionHeightAdjuster.RegionHeightAdjusterComponent.PopulateInitialRegions | RegionHeightAdjusterComponent.razor.cs:88-104 | Resets the adjustment to 0, records the bounds, and crops the reference and the unadjusted region. |
| RegionHeightAdjuster.RegionHeightAdjusterComponent.PopulateAdjustedRegion | RegionHeightAdjusterComponent.razor.cs:106-125 | Re-crops the adjusted region, unless its height would be below 1. |
| RegionWidthAdjuster.ReferenceRegion | RegionWidthAdjusterComponent.razor.cs:89-94 | The region with the extra width added on the right: X, Y and Height are kept. |
| RegionWidthAdjuster.AdjustedBounds | RegionWidthAdjusterComponent.razor.cs:106-112 | The recorded bounds with the requested width added. X, Y and Height are kept. |
| RegionWidthAdjuster.AdjustedIsWidening | RegionWidthAdjusterComponent.razor.cs:89-112 | Both regions are what `WidenToRight` returns for a non-negative width. |
| RegionWidthAdjuster.RegionWidthAdjusterComponent.constructor | RegionWidthAdjusterComponent.razor.cs:27-35 | Zero width requested, no bounds recorded and nothing saved. |
| RegionWidthAdjuster.RegionWidthAdjusterComponent.KeyUp | RegionWidthAdjusterComponent.razor.cs:46-68 | Left at 0 changes nothing, so the counter never goes negative. Otherwise Left decrements and Right increments by exactly 1, and each re-crops. F1 emits the counter. |
| RegionWidthAdjuster.RegionWidthAdjusterComponent.OnParametersSet | RegionWidthAdjusterComponent.razor.cs:69-85 | A new loadable path or changed bounds re-initialise the adjuster. Otherwise nothing changes. |
| RegionWidthAdjuster.RegionWidthAdjusterComponent.PopulateInitialRegions | RegionWidthAdjusterComponent.razor.cs:87-103 | Resets the counter to 0, records the bounds, and crops the reference and the unadjusted region. |
| RegionWidthAdjuster.RegionWidthAdjusterComponent.PopulateAdjustedRegions | RegionWidthAdjusterComponent.razor.cs:104-115 | The adjusted image is the crop of `AdjustedBounds`. |
| TopRegionCropSelector.TrimmedRegion | TopRegionCropSelectorComponent.razor.cs:94-102 | X and Width are kept, Y moves down by the height, and Bottom is unchanged. There is no range check. |
| TopRegionCropSelector.TrimmedRegionIsTrimFromTop | TopRegionCropSelectorComponent.razor.cs:94-102 | Within the region's rows it is `TrimFromTop`. Outside them `TrimFromTop` would fail. |
| TopRegionCropSelector.TrimsUndo | TopRegionCropSelectorComponent.razor.cs:94-102 | Trimming by the opposite height gives the region back, and trims add up. |
| TopRegionCropSelector.TopRegionCropSelectorComponent.constructor | TopRegionCropSelectorComponent.razor.cs:29-33 | No height selected and nothing emitted. |
| TopRegionCropSelector.TopRegionCropSelectorComponent.KeyUp | TopRegionCropSelectorComponent.razor.cs:50-77 | Ignored while no height is selected. Down adds 1 and Up subtracts 1, and each emits the new height. |
| TopRegionCropSelector.TopRegionCropSelectorComponent.OnParametersSet | TopRegionCropSelectorComponent.razor.cs:78-93 | Every parameter set resets the height to the suggestion. A new loadable path loads the image and crops the region. |
| TopRegionCropSelector.TopRegionCropSelectorComponent.GetTrimmedRegion | TopRegionCropSelectorComponent.razor.cs:94-102 | Only with a height selected. The region keeps X, Width and its bottom edge, and its top moves down by the height. When the height is within the region's rows, the result is what the checked `TrimFromTop` returns. |
| TopRegionCropSelector.TopRegionCropSelectorComponent.GetRemainingImage | TopRegionCropSelectorComponent.razor.cs:103-110 | `""` while no height is selected. Otherwise the crop of the trimmed region. |
| TopRegionCropSelector.TopRegionCropSelectorComponent.HandleClick | TopRegionCropSelectorComponent.razor.cs:111-119 | Ignored when a suggestion exists. Otherwise the clicked Y becomes the height and is emitted. |
| ScrollHelpers.ScrollContainer.constructor | wwwroot/scrollhelpers.js:3-5 | A container with the given scroll position and heights. |
| ScrollHelpers.PageDownTarget | wwwroot/scrollhelpers.js:3-8 | Never past the largest scroll offset, and never more than one page (client height less the buffer) further. It is exactly one of the two. |
| ScrollHelpers.PageUpTarget | wwwroot/scrollhelpers.js:16-20 | Never above the top, and never more than one page back. It is exactly one of the two. |
| ScrollHelpers.PageUpUndoesPageDown | wwwroot/scrollhelpers.js:1-23 | Away from both clamps, a page up undoes a page down. |
| ScrollHelpers.ScrollDownOnePage | wwwroot/scrollhelpers.js:1-12 | Nothing for a missing container. Otherwise `scrollTop` becomes `PageDownTarget`, and the heights are kept. The buffer defaults to 100. |
| ScrollHelpers.ScrollUpOnePage | wwwroot/scrollhelpers.js:14-23 | Nothing for a missing container. Otherwise `scrollTop` becomes `PageUpTarget`, and the heights are kept. The buffer defaults to 100. |

## Left out

- Blazor plumbing is not modelled: the component lifecycle, `StateHasChanged`, markup, `ResizeIcon` and `OnAfterRenderAsync`. A parameter set is one method call that takes the new parameters.
- Keyboard wiring is not modelled: `AppKeyboardListener`, `KeySuppressorClass` and `DisposeAsync`. Key dispatch is a `KeyUp` method taking a key.
- Bitmaps, PNG encoding, base64 and file reads are left out, because they are I/O.
  - A crop string is an `ImageString` token, and its `Content()` says which area it would hold.
  - `File.Exists` is a boolean parameter.
  - The bitmap size read by `LoadImage` is a pair of parameters.
  - `GetRegionBitmap` and `BitmapToBase64`, which the partial trim selector calls, are not part of this model. Their white fills are returned as rectangle lists.
- The scale branch of `ScaleRectangleToNatural` is double arithmetic and is not evaluated. It is kept as the `ToNatural` request.
- `GenerateCroppedImage` (image and single region selectors) is not modelled, because it is bitmap and float work. Two of its behaviours are therefore not captured:
  - In the image region selector it scales the selection with doubles and passes the result to `Bitmap.Clone` without clipping. An empty or out-of-image rectangle makes that call throw, and the exception escapes `OnParametersSetAsync` and the arrow handlers that call it. The model's arrows and parameter set always complete.
  - In the single region selector it passes the natural size as the rendered size to `ScaleRectangleToNatural`, so the preview crop is the unscaled selection clipped to the image.
- The JavaScript interop that measures the rendered size, `GetContainerHeight`/`GetContainerWidth`, is not modelled. The measured size is passed to `SetRenderedSize`.
- `ColorTranslator.FromHtml` is a foreign parse. Its result is a parameter, with `None` standing for the exception.
- The viewer's `GetCroppedImageBase64`, `GetContainerStyle`, and the zoom multiplication and CSS formatting in `GetHighlightStyle` are float and string work and are not modelled.
- PartialTrimSelector.ZoomHeight: the zoom level is a `float` in the source. It is a positive whole number here, with `Math.Round` and the `(int)` cast written as exact integer rounding, so fractional zoom levels are not covered.
- The async nature of `EventCallback.InvokeAsync` is not modelled. Each callback is an append to a log field.
- Aliasing is not modelled. These are all value copies here:
  - The multi-region selector hands its own `_regions` list to the parent and later mutates it.
  - The highlight selector's `FinalSend` puts its live `_currentRepeatList` into the result, and `Complete` passes its live `_regions`. The next `OnParametersSet` clears both lists, which empties the result the parent holds. In the model the logged `HighlightResult` keeps its contents.
  - The viewer's `Info` is an object shared with the parent.
- Pixel coordinates are unbounded integers. The source's 32-bit `int` arithmetic cannot overflow for image-sized values, so wrap-around is not modelled.
- `ImageTrimHelper.cs` is file work. Its local-coordinate translation is `Drawing.RelativeTo`.
- `MultiRegionViewerComponent.razor.cs` and `ScrollHelperClass.cs` are thin wrappers. They are not modelled beyond the scroll functions they forward to.
- The console logging in `scrollhelpers.js` is not modelled.
- The highlight selector's toast notification on F4 (`toast.ShowInfoToast("Starting New Region")`) is user-interface feedback and is not modelled.
- ScrollHelpers.ScrollDownOnePage: the browser clamps an assigned `scrollTop` to the scrollable range, and that clamp is not modelled. The stored value is the script's target, which is negative when the buffer exceeds the client height or the content is shorter than the container.
- TwoRegionSelector.TwoRegionSelectorComponent.SetMode: follows the corrected rule `SetModeCorrected`, not the code as written. Outside Done with a desired left edge and width, the source switches to the requested mode, for example Move on F1; the component keeps Resize. The written behaviour is `SetModeAsWritten`, and `SetModeAsWrittenDropsForcedResize` shows the difference (see Findings).
- TwoRegionSelector.TwoRegionSelectorComponent.KeyUp: F1, F2 and F4 go through the corrected `SetMode` above, with the same difference from the source.
- PartialTrimSelector.PartialTrimSelectorComponent.ConfirmCurrentSelection: records the corrected `Translate`, not the source's line 361. For a bottom-view selection, when rounding and truncating the height over the zoom differ, the source records it one row lower. The written behaviour is `TranslateAsWritten`, and `TranslateAsWrittenMissesBottomSlice` shows the difference (see Findings).
- The viewer's `CroppedImageData is null` guard in `ArrowDownAsync`/`ArrowUpAsync` can never hold (the field starts as `""` and is only assigned strings), so only the `Info == null` guard is modelled.
- The multi-region selector never sets `_completed` to true, so the completion guards it tests always pass. The model keeps the flag and the guards as written. `Complete` also neither clears the current region nor marks completion; `MultiRegionSelector.CompleteTwiceRepeatsCurrent` states the consequence.
- The highlight selector's `OnParametersSet` does not reset `_alreadyRepeated`. The model keeps that: a repeat recorded for one image blocks F5 on the next, until a matching repeat entry sets the flag again.

## Findings

| source | as written | input that shows it | evidently intended | confidence | as-written member | corrected member |
|---|---|---|---|---|---|---|
| TwoRegionSelectorComponent.razor.cs:116-142 | With a desired left edge and width, `SetMode` first forces Resize and then, unless the step is Done, overwrites it with the requested mode | Mode Resize, step SelectingFirst, DesiredLeft > 0 and DesiredWidth > 0, F1 pressed: the mode becomes Move | The forced Resize stays, as `OnParametersSetAsync` sets it and as the arrow handlers expect with a fixed left edge | medium, not executed | TwoRegionSelector.SetModeAsWrittenDropsForcedResize | TwoRegionSelector.SetModeCorrected |
| PartialTrimSelectorComponent.razor.cs:361 | `ConfirmCurrentSelection` places a bottom-view selection below `Bottom - (int)(Height / ZoomLevel)`, a truncated quotient, while the bottom slice starts at `Bottom - Max(1, Math.Round(Height / ZoomLevel))` | Region height 11, zoom 4: the slice is 3 rows, but a selection on the view's row 0 is recorded at image row 9, which `RebuildZoomedImage` draws on the view's row 1 | The selection is moved by the origin of the slice the view shows, so the round trip into the view returns it unchanged | high, not executed | PartialTrimSelector.TranslateAsWrittenMissesBottomSlice | PartialTrimSelector.TranslateRoundTrip |
