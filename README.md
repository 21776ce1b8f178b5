# Image editor engine, modelled in Dafny

The repository is a React image editor. A picture is dropped on a drop zone and drawn on a canvas. The user can then:
- adjust six per-pixel filters;
- flip and rotate the picture;
- zoom with the mouse wheel about the pointer;
- drag the picture around;
- draw a crop box and commit it.

This project models the editing engine of the two provider components and the flip controls, at the level of state transitions and byte arithmetic.

- `js_numbers.dfy` (`JsNumbers`): the ECMAScript and Web IDL conversions the engine relies on.
  - The Uint8ClampedArray store is ToUint8Clamp (section 7.1.12 of ECMA-262): clamp, then round half to even.
  - `Math.round`, truncation toward zero (parseInt of a plain number) and `Math.ceil`.
  - The `[EnforceRange] long` arguments of `getImageData`, and when `getImageData` throws.
  - The `unsigned long` reflection of `canvas.width` and `canvas.height`.
  - `String.prototype.trim`.
- `pixel_filters.dfy` (`PixelFilters`): the six adjustment stages.
  - Each stage is an in-place loop over an `array<Byte>` in steps of 4.
  - Each loop is proved equal to a specification function `ApplyStage` on the buffer's contents.
  - `applyFilters` is proved equal to the pipeline of enabled stages, run in the source's fixed order.
- `geometry.dfy` (`Geometry`):
  - the canvas matrix and the calls `translate`, `scale` and `transform`;
  - the wheel-zoom step both providers share, with its cap at 30 and its snap back to 1;
  - the scale-to-fit placement of `drawImageOnCanvas`.
- `crop_input.dfy` (`CropInput`): the crop form and its `handleCropChange` updater.
- `editor.dfy` (`Editor`): the newer provider, `src/components/ImageEditorProvider.jsx`.
  - Its state is the fields of class `Editor`, and each handler is a method.
  - The state is its React state, the `cropDimension` ref, the context transform and the canvas size.
  - It also holds the crop-commit finding below.
- `legacy_editor.dfy` (`LegacyEditor`): the older provider, `src/components/ImageEditorProvide.jsx`.
  - `getImageBrightness` is a loop, proved against a specification function.
  - The crop drag commits on mouse up.
  - The wheel zoom uses a local zoom level.
  - Settings keep the slider's raw string.
- `flip_controls.dfy` (`FlipControls`): the four updaters of `src/components/Flip.jsx`.
  - They act on the older provider's settings record, which is the context Flip.jsx imports.

Conventions:
- Numbers are exact reals. The factors `Math.exp(±0.03)`, `Math.exp(±0.2)` and `Math.pow(2, exposure / 100)` are parameters.
- `None` stands for `undefined`, or for NaN where a value can be NaN.
- A handler that would throw in the browser returns `thrown` and leaves the state as it was at the throw.
- Browser objects are passed in as parameters:
  - the data URL `canvas.toDataURL()` returns;
  - the pixels `getImageData` returns;
  - the size of a freshly loaded `<img>` element.

## Model

| member | source | states |
|---|---|---|
| JsNumbers.ToUint8Clamp | src/components/ImageEditorProvider.jsx:101-103 | A store keeps 0 for values at or below 0 and 255 at or above 255. In between it keeps the nearest integer, and an even one on a tie. |
| JsNumbers.ToUint8ClampOfInt | src/components/ImageEditorProvider.jsx:77-79 | Storing an integer only clamps it to [0, 255]. |
| JsNumbers.ToUint8ClampMonotone | src/components/ImageEditorProvider.jsx:172-174 | A larger value is never stored as a smaller byte. |
| JsNumbers.JsRound | src/components/ImageEditorProvider.jsx:75 | Math.round gives an integer within half a unit, rounding halves upward. |
| JsNumbers.Trunc | src/components/ImageEditorProvider.jsx:305-306 | parseInt of a number written without an exponent keeps its sign and drops the fraction (magnitude below the input's, by less than 1). |
| JsNumbers.Ceil | src/components/ImageEditorProvide.jsx:260-261 | Math.ceil is the least integer not below its argument. |
| JsNumbers.EnforceRangeLong | src/components/ImageEditorProvider.jsx:586 | A getImageData argument converts exactly when it is defined and its truncation fits a 32-bit signed integer; the result is that truncation. |
| JsNumbers.CanvasDimension | src/components/ImageEditorProvider.jsx:536-537 | Setting a canvas side to a size in [0, 2147483648) stores its truncation, so a fractional client size loses its fraction, and NaN stores 0. Nothing above 2147483647 is stored except the default. |
| JsNumbers.TrimIsEmptyIffBlank | src/components/ImageEditorProvider.jsx:574 | `value.trim()` is empty exactly when every character is ECMAScript white space or a line terminator. |
| CropInput.WithField | src/components/ImageEditorProvider.jsx:574 | The spread update sets the named crop field and keeps the other three. |
| CropInput.CropChange | src/components/ImageEditorProvider.jsx:573-575 | A blank or white-space entry stores 0 and any other entry stores Number(value). The other fields are kept. |
| PixelFilters.WithSetting | src/components/ImageEditorProvider.jsx:569-571 | handleSettings sets the named setting to Number(value) and keeps the other five. |
| PixelFilters.StoreQuotient | src/components/ImageEditorProvider.jsx:99-103 | The gray quotient is stored through ToUint8Clamp. Division by zero gives +Infinity (stored 255) or, for 0/0, NaN (stored 0). |
| PixelFilters.SaturationNormalize | src/components/ImageEditorProvider.jsx:128-134 | The six normalising tests, as written (each writes the red byte), leave the red byte unchanged whenever the three stored bytes are bytes. |
| PixelFilters.ApplyStage | src/components/ImageEditorProvider.jsx:76-79 | A stage keeps the buffer's length and every alpha byte. Each pixel's colour is the stage's per-pixel function of that pixel's old colour. |
| PixelFilters.AdjustGrayscale | src/components/ImageEditorProvider.jsx:87-110 | The loop leaves the buffer equal to the grayscale stage applied to its old contents. Without a coordinates width it leaves the buffer as it was. |
| PixelFilters.AdjustBrightness | src/components/ImageEditorProvider.jsx:69-85 | The same, for the brightness stage. |
| PixelFilters.AdjustSaturation | src/components/ImageEditorProvider.jsx:112-141 | The same, for the saturation stage, including its normalising tests. |
| PixelFilters.AdjustInversion | src/components/ImageEditorProvider.jsx:143-161 | The same, for the inversion stage. |
| PixelFilters.AdjustExposure | src/components/ImageEditorProvider.jsx:163-181 | The same, for the exposure stage with factor Math.pow(2, value / 100). |
| PixelFilters.AdjustContrast | src/components/ImageEditorProvider.jsx:183-200 | The same, for the contrast stage. |
| PixelFilters.FilterChain | src/components/ImageEditorProvider.jsx:261-266 | The chain keeps the buffer's length, and with all six settings 0 it returns the buffer unchanged. |
| PixelFilters.EnabledStages | src/components/ImageEditorProvider.jsx:261-266 | At most six stages run. |
| PixelFilters.RunStages | src/components/ImageEditorProvider.jsx:261-266 | Running a pipeline keeps the buffer's length. |
| PixelFilters.RunStagesAppend | src/components/ImageEditorProvider.jsx:261-266 | Running two pipelines one after the other equals running their concatenation: each stage consumes the previous output. |
| PixelFilters.FilterChainRunsEnabledStages | src/components/ImageEditorProvider.jsx:261-266 | applyFilters runs exactly the stages whose setting is non-zero, in the order grayscale, brightness, saturation, inversion, exposure, contrast. |
| PixelFilters.RunStagesKeepsAlpha | src/components/ImageEditorProvider.jsx:261-266 | No sequence of stages changes an alpha byte. |
| PixelFilters.NoStagesIsIdentity | src/components/ImageEditorProvider.jsx:11-18 | With the initial all-zero settings no stage runs and the buffer is unchanged. |
| PixelFilters.ApplyFilters | src/components/ImageEditorProvider.jsx:254-266 | The in-place chain leaves the buffer equal to the specification chain of its old contents, or unchanged without a coordinates width. |
| PixelFilters.BrightnessAddsOffset | src/components/ImageEditorProvider.jsx:75-80 | Brightness adds the same integer round(v/100·255) to R, G and B of every pixel, clamped to [0, 255]. |
| PixelFilters.BrightnessZeroIsIdentity | src/components/ImageEditorProvider.jsx:75-80 | Brightness 0 changes nothing. |
| PixelFilters.GrayscaleEqualizesChannels | src/components/ImageEditorProvider.jsx:93-103 | After grayscale the three channels of every pixel are equal, and each is the stored (R+G+B)/((1+v/100)·3). |
| PixelFilters.GrayscaleZeroIsNotIdentity | src/components/ImageEditorProvider.jsx:93-103 | Grayscale at 0 still changes a blue pixel. Only the chain's skip makes a zero setting harmless. |
| PixelFilters.InversionZeroIsInvolution | src/components/ImageEditorProvider.jsx:149-155 | Inversion at 0 maps c to 255 − c, so applying it twice restores the buffer. |
| PixelFilters.InversionZeroIsNotIdentity | src/components/ImageEditorProvider.jsx:149-155 | Inversion at 0 turns a black pixel white. |
| PixelFilters.ExposeNeverDarkens | src/components/ImageEditorProvider.jsx:172 | With a factor of at least 1, the stored min(255, c·factor) is at least c. |
| PixelFilters.ExposureNeverDarkens | src/components/ImageEditorProvider.jsx:168-175 | With a factor of at least 1 (exposure ≥ 0), no channel of any pixel gets darker. |
| PixelFilters.ExposureUnitIsIdentity | src/components/ImageEditorProvider.jsx:168-175 | Factor 1 (exposure 0) changes nothing. |
| PixelFilters.ContrastZeroIsIdentity | src/components/ImageEditorProvider.jsx:188-194 | Contrast 0 changes nothing. |
| PixelFilters.ContrastMinimumIsFlatGray | src/components/ImageEditorProvider.jsx:188-194 | Contrast −255 turns every pixel to (128, 128, 128). |
| PixelFilters.SaturationZeroIsIdentity | src/components/ImageEditorProvider.jsx:118-127 | Saturation 0 changes nothing. |
| PixelFilters.SaturateKeepsGray | src/components/ImageEditorProvider.jsx:124-127 | A gray channel survives any saturation 0..200: the luma weights sum to 0.9999, which the rounding absorbs. |
| PixelFilters.SaturationKeepsGrays | src/components/ImageEditorProvider.jsx:118-127 | Saturation in the slider's range leaves every gray pixel as it is. |
| Geometry.ZoomAboutClosedForm | src/components/ImageEditorProvider.jsx:676-686 | translate(p), scale(z), translate(−p) and then the previous transform scale every matrix entry by z and shift the offset by (1 − z)·p. |
| Geometry.ZoomAboutFixesAnchor | src/components/ImageEditorProvider.jsx:676-686 | The new transform sends each point's previous image q to p + z·(q − p), so the pointer position is fixed. |
| Geometry.ZoomedReciprocal | src/components/ImageEditorProvider.jsx:676-686 | Zooming about the same point by z and then 1/z gives back the matrix. |
| Geometry.WheelFactor | src/components/ImageEditorProvider.jsx:664-666 | A negative deltaY zooms in and any other zooms out. |
| Geometry.CappedScale | src/components/ImageEditorProvider.jsx:668 | The next zoom level never exceeds 30. |
| Geometry.ZoomStep | src/components/ImageEditorProvider.jsx:668-687 | The zoom level stays in [1, 30]. At level 1 the transform is the identity. A level above 1 is min(old·z, 30). A capped product of at most 1 gives exactly level 1 with the identity. |
| Geometry.ZoomStepFixesAnchor | src/components/ImageEditorProvider.jsx:673-687 | A step that does not snap back keeps the pointer position fixed. |
| Geometry.ZoomOutAtOneStaysAtOne | src/components/ImageEditorProvider.jsx:673-675 | Zooming out at level 1 stays at level 1 with the identity. |
| Geometry.ZoomInThenOutRestores | src/components/ImageEditorProvider.jsx:664-689 | One step in and one step out about the same point, with reciprocal factors and no capping, restore both the level and the transform. |
| Geometry.FitScale | src/components/ImageEditorProvider.jsx:294-296 | The scale is the smaller of the two axis ratios. |
| Geometry.Arrange | src/components/ImageEditorProvider.jsx:298-306 | The sizes are truncated. The drawing is centred on the pointer while the image is dragged, and on the canvas otherwise. |
| Geometry.PlacementFits | src/components/ImageEditorProvider.jsx:294-296 | At the fit scale the image's extent lies within the canvas and fills it along one axis. |
| Geometry.CentredFits | src/components/ImageEditorProvider.jsx:298-306 | The centred placement has truncated sizes within the canvas, one of them the canvas size, and an origin that is not negative. |
| Editor.MinusHalf | src/components/ImageEditorProvider.jsx:439-440 | The dragged origin is the pointer minus half the size. It is NaN when the size is undefined. |
| Editor.Editor.constructor | src/components/ImageEditorProvider.jsx:8-38 | Every state field and ref starts at its initial value. |
| Editor.Editor.Load | src/components/ImageEditorProvider.jsx:534-552 | The canvas gets the preview area's size and a fresh identity transform, and the data URL becomes both the image and the original. |
| Editor.Editor.DrawImage | src/components/ImageEditorProvider.jsx:340-346 | The onload placement records the centred coordinates. While the image is dragged it throws, because the drag event arrives one argument late. |
| Editor.Editor.MouseDown | src/components/ImageEditorProvider.jsx:405-428 | Inside the image with the crop tool off, only the image drag starts. Otherwise, with the crop tool on, the crop drag starts at the pointer and the end point is cleared. Otherwise nothing changes. |
| Editor.Editor.DrawCropBox | src/components/ImageEditorProvider.jsx:353-394 | The box runs from the recorded start to the pointer, or is the 150×150 box centred on the canvas. The crop button is enabled while the tool is on. Nothing else changes. |
| Editor.Editor.MouseMove | src/components/ImageEditorProvider.jsx:435-458 | A crop drag redraws the box: cropRect gets the size from start to pointer and the recorded start, cropDimension gets that size and the end point offsetX / zoomScale, offsetY / zoomScale, and the button is enabled while the tool is on. Nothing else changes. An image drag moves only the origin, centring the image on the pointer. Otherwise nothing changes. |
| Editor.Editor.MouseUp | src/components/ImageEditorProvider.jsx:475-482 | Clears whichever single drag flag is set. Ending a crop drag enables the crop button. With both or neither set, nothing changes. |
| Editor.Editor.ToggleCropBox | src/components/ImageEditorProvider.jsx:710-729 | The tool flips. Turning it on with a canvas sets both cropRect and cropDimension to the 150×150 box centred on the canvas with its end at its start, and enables the button; nothing else changes. Turning it on without a canvas throws. Turning it off changes only the flag. |
| Editor.Editor.ClickOutside | src/components/ImageEditorProvider.jsx:735-747 | A click outside, with a canvas and the tool on, turns the tool off, disables the button and restores the default crop dimension. Otherwise nothing changes. |
| Editor.Editor.Wheel | src/components/ImageEditorProvider.jsx:662-689 | The new level and transform are one zoom step about the pointer. Nothing else changes, and the level stays in [1, 30]. |
| Editor.Editor.CreateCropPreview | src/components/ImageEditorProvider.jsx:577-618 | It throws (changing nothing) exactly when there is no canvas or getImageData rejects the box at (min(startX, endX), min(startY, endY)). Otherwise it sets the transform to scale(zoomScale), disables the button, records the box as the coordinates and turns the tool off. It replaces the image unless the data URL is "data:,". |
| Editor.Editor.CropSelectedArea | src/components/ImageEditorProvider.jsx:505-507 | Is exactly a crop commit. |
| Editor.Editor.ApplyCrop | src/components/ImageEditorProvider.jsx:627-632 | Commits only with an image and a non-zero crop width or height, and then behaves as a crop commit. |
| Editor.Editor.Reset | src/components/ImageEditorProvider.jsx:634-654 | With a canvas and an original image, it restores the image, the zero settings, the flip defaults, an empty crop, the initial coordinates and the identity transform. The zoom level and everything else are kept. Otherwise nothing changes. |
| Editor.Editor.HandleSettings | src/components/ImageEditorProvider.jsx:569-571 | Only the named setting changes. |
| Editor.Editor.HandleCropChange | src/components/ImageEditorProvider.jsx:573-575 | Only the named crop field changes, to 0 for a blank entry. |
| Editor.Editor.FilterImageData | src/components/ImageEditorProvider.jsx:254-266 | Reading the image data throws exactly for a missing canvas or a rejected rectangle. Otherwise the buffer becomes the filter chain of its old contents. |
| Editor.RectSpan | src/components/ImageEditorProvider.jsx:233 | A rectangle spans \|size\|. It starts at its origin exactly when the size is non-negative, and with a negative size it ends at its origin. |
| Editor.CommittedSpanAsWritten | src/components/ImageEditorProvider.jsx:581-586 | The commit reads \|size\| from min(start, end), forwards for a non-negative size and backwards (ending at min(start, end)) for a negative one, so a leftward box ends at its own end point. |
| Editor.CommittedSpanAsWrittenMissesLeftwardBox | src/components/ImageEditorProvider.jsx:581-586 | The box drawn from 50 back to 20 covers [20, 50], but the commit reads [−10, 20]. |
| Editor.CommittedSpanAsWrittenAgreesOnlyRightward | src/components/ImageEditorProvider.jsx:581-586 | Assuming the end point is start + size (zoom level 1, with offsetX, pageX − offsetLeft and clientX − rect.left measured from one origin), the commit as written reads the drawn box exactly when the box was dragged rightward (size ≥ 0). |
| Editor.CommittedSpan | src/components/ImageEditorProvider.jsx:581-582 | The corrected read starts at min(start, end) and spans |size|. |
| Editor.CommittedSpanIsDrawnBox | src/components/ImageEditorProvider.jsx:581-586 | Assuming the end point is start + size (zoom level 1), the corrected read is the drawn box whichever way it was dragged. |
| Editor.CommittedSpanAsWrittenAtZoom | src/components/ImageEditorProvider.jsx:377 | At zoom level 3 the end point is divided by the level while start and size are not: a box drawn rightward over [20, 50] is read over [50/3, 50/3 + 30], and the corrected read misses it too. |
| LegacyEditor.PixelAverage | src/components/ImageEditorProvide.jsx:68 | The per-pixel average is floor((r+g+b)/3), in [0, 255]. |
| LegacyEditor.ColorSum | src/components/ImageEditorProvide.jsx:62-71 | The sum over the pixels is non-negative and at most 255 per pixel. |
| LegacyEditor.ImageBrightness | src/components/ImageEditorProvide.jsx:45-78 | The accumulation loop returns the specification reading: null without an image, the size error for an empty canvas, otherwise the percentage. |
| LegacyEditor.PixelsWithinArea | src/components/ImageEditorProvide.jsx:53-59 | The canvas holds no more pixels than the image's natural area, and all of them when the sizes fit a `long`. |
| LegacyEditor.PercentInRange | src/components/ImageEditorProvide.jsx:73-75 | A sum of at most 255 per pixel gives floor(sum/area/255·100) in [0, 100]. |
| LegacyEditor.BrightnessInRange | src/components/ImageEditorProvide.jsx:73-75 | Every brightness reading is in [0, 100]. |
| LegacyEditor.ColorSumOfUniform | src/components/ImageEditorProvide.jsx:62-71 | When every colour byte is v, the sum is v per pixel. |
| LegacyEditor.BlackImageReadsZero | src/components/ImageEditorProvide.jsx:62-75 | An all-black image reads 0. |
| LegacyEditor.WhiteImageReadsHundred | src/components/ImageEditorProvide.jsx:62-75 | An all-white image whose sizes fit a `long` reads 100. |
| LegacyEditor.ColorSumIgnoresAlpha | src/components/ImageEditorProvide.jsx:62-71 | The sum, and so the reading, never depends on alpha bytes. |
| LegacyEditor.ResetSettings | src/components/ImageEditorProvide.jsx:340-348 | The reset record is the initial record (grayscale 0, saturation 100, inversion 0, rotate 0, flips 1) with the freshly read brightness. |
| LegacyEditor.WithRaw | src/components/ImageEditorProvide.jsx:244-246 | handleSettings stores the raw string under the named slider and keeps every other field. |
| LegacyEditor.Ratio | src/components/ImageEditorProvide.jsx:253-254 | The natural-to-displayed ratio is finite exactly for a displayed size above 0, and multiplies back to the natural size. |
| LegacyEditor.PreviewSide | src/components/ImageEditorProvide.jsx:257-261 | An undefined crop size or a non-finite ratio gives a canvas side of 0. |
| LegacyEditor.PreviewView | src/components/ImageEditorProvide.jsx:253-261 | A drag commit before any box was drawn gives a 0-sized canvas. The image element is kept. |
| LegacyEditor.DraggedCropRect | src/components/ImageEditorProvide.jsx:107-116 | The box size is the pointer minus the start, with a missing start counting as 0. The start is kept. |
| LegacyEditor.LegacyEditor.constructor | src/components/ImageEditorProvide.jsx:7-29 | Every state field and ref starts at its initial value. |
| LegacyEditor.LegacyEditor.Load | src/components/ImageEditorProvide.jsx:195-227 | The canvas becomes 1000×500 with the identity transform. An empty image throws before anything else is recorded. Otherwise the brightness reading is stored and the data URL becomes the image and the original. |
| LegacyEditor.LegacyEditor.MouseDown | src/components/ImageEditorProvide.jsx:129-143 | Always starts a drag at the pointer relative to the canvas rectangle. |
| LegacyEditor.LegacyEditor.MouseMove | src/components/ImageEditorProvide.jsx:145-173 | Records the box size only while dragging with a non-zero start x, so a start at x = 0 draws nothing. |
| LegacyEditor.LegacyEditor.CreateCropPreview | src/components/ImageEditorProvide.jsx:252-287 | The canvas is resized to the crop times the ratio, which resets the transform. The image, the image element and the crop form change only when the data URL is not "data:,". |
| LegacyEditor.LegacyEditor.MouseUp | src/components/ImageEditorProvide.jsx:175-178 | Ends the drag and commits the dragged box. Before any box was drawn, the commit leaves the image and the crop as they were. |
| LegacyEditor.LegacyEditor.ApplyCrop | src/components/ImageEditorProvide.jsx:313-318 | Commits the crop form only with an image and a non-zero width or height. |
| LegacyEditor.LegacyEditor.Reset | src/components/ImageEditorProvide.jsx:320-350 | With a canvas and an original image: canvas 1000×500, crop zeroed, original image restored, and the default settings with the brightness read from the restored element. It throws for an empty element. The zoom level is kept. |
| LegacyEditor.LegacyEditor.Wheel | src/components/ImageEditorProvide.jsx:358-386 | The new level and transform are one zoom step about the pointer, with the level capped at 30 and snapping to 1 with `resetTransform`. Nothing else changes. |
| LegacyEditor.LegacyEditor.HandleSettings | src/components/ImageEditorProvide.jsx:244-246 | Only the named slider's setting changes, to the raw string. |
| LegacyEditor.LegacyEditor.HandleCropChange | src/components/ImageEditorProvide.jsx:248-250 | Only the named crop field changes, to 0 for a blank entry. |
| FlipControls.Toggle | src/components/Flip.jsx:12 | 1 becomes −1, and every other value becomes 1. |
| FlipControls.FlipX | src/components/Flip.jsx:10-13 | Only flipHorizontal changes: 1 to −1, anything else to 1. |
| FlipControls.FlipY | src/components/Flip.jsx:20-23 | Only flipVertical changes: 1 to −1, anything else to 1. |
| FlipControls.RotateLeft | src/components/Flip.jsx:30-33 | Only rotate changes, by −90. |
| FlipControls.RotateRight | src/components/Flip.jsx:40-43 | Only rotate changes, by +90. |
| FlipControls.FlipsGiveSigns | src/components/Flip.jsx:12 | After a flip the flipped field is 1 or −1. |
| FlipControls.FlipXInvolution | src/components/Flip.jsx:10-13 | On a sign, Flip X twice gives back the record, and a single Flip X changes it. |
| FlipControls.FlipYInvolution | src/components/Flip.jsx:20-23 | On a sign, Flip Y twice gives back the record, and a single Flip Y changes it. |
| FlipControls.FlipXNormalisesOtherValues | src/components/Flip.jsx:12 | A value other than ±1 does not come back after two flips (2 becomes −1). |
| FlipControls.RotationsCancel | src/components/Flip.jsx:30-43 | Left then right, or right then left, gives back the record. |
| FlipControls.UpdatersCommute | src/components/Flip.jsx:10-43 | The flips commute with each other, and each flip commutes with each rotation. |
| FlipControls.FourRightTurns | src/components/Flip.jsx:40-43 | Four right turns add 360 degrees and change nothing else. |

## Findings

| source | as written | input that shows it | evidently intended | confidence | as-written member | corrected member |
|---|---|---|---|---|---|---|
| src/components/ImageEditorProvider.jsx:581-586 | The commit reads `getImageData(min(startX, endX), …, croppedWidth, …)` with the signed width of the drawn box. A negative width reads backwards from the minimum. | A box dragged from x = 50 back to x = 20 (croppedWidth −30) covers [20, 50], but the commit reads [−10, 20]. | Read the drawn box: from min(start, end) over its extent \|croppedWidth\| (or from start with the signed width). Both halves assume zoom level 1, where the end point is start + croppedWidth. | not executed | Editor.CommittedSpanAsWritten (Editor.CommittedSpanAsWrittenMissesLeftwardBox) | Editor.CommittedSpan (Editor.CommittedSpanIsDrawnBox) |

Away from zoom level 1 the stored end point `e.offsetX / zoomScale` (src/components/ImageEditorProvider.jsx:377) is on a different scale from the unscaled start and size, so even the corrected read misses the drawn box; `Editor.CommittedSpanAsWrittenAtZoom` exhibits this, and it is recorded under "## Left out" rather than corrected, because which scale was intended is not evident.

`Editor.Editor.CreateCropPreview` keeps the state the code as written produces. It records the coordinates with the signed sizes, as the source does, because those are what later handlers read.

## Left out

- Canvas drawing: `drawImage`, `putImageData`, `clearRect`, `strokeRect`, the darkened backdrop, `imageSmoothingQuality`, `save`/`restore`. They produce pixels, not state. `getImageData` is modelled only as the buffer it supplies and the arguments for which it throws.
- File and DOM I/O: FileReader, drag and drop, element creation and lookup, `downloadImage`, `toDataURL`. The data URL and the element sizes come in as parameters. The window click listener is modelled only as its cancel rule, with a `clickedOutside` parameter. Its never-matching removal is not modelled.
- The older provider's CSS filter strings and its `ctx.rotate`/`ctx.scale` rendering of rotation and flips (`applySettings`). The browser carries those out.
- Bit-exact floating point: `Math.exp`, `Math.pow` and the float rounding of every product are exact reals here. The exponential factors are parameters.
- React machinery: asynchronous `setState` batching, stale `useCallback` closures and the Promise wrappers of the stages. Each handler runs atomically, and its updates are visible to the next event.
- The effects that re-run `applyFilters` or `drawImage` when settings or the image change. The older provider's `[image]` effect that re-reads the brightness is left out too.
- The argument shift at src/components/ImageEditorProvider.jsx:344, where `isToDrawCropBox` arrives in the event's place and the event is lost. It is modelled only as its consequence: `Editor.Editor.DrawImage` throws while the image is being dragged.
- The older provider's `let zoomScale` is re-created at 1 on every render. The model keeps it as a field across events, as one render's handler sees it.
- LegacyEditor.LegacyEditor.Wheel models one wheel handler. The older provider's listener effect (src/components/ImageEditorProvide.jsx:401-416) re-runs on every render, because its dependencies are arrow functions created anew each render, and it adds `handleZoomInAndOut` each time while its cleanup never removes it. After k renders one wheel event runs k handlers, each with its own `zoomScale`, each composing onto the shared context transform. The model does not capture that pile-up.
- JsNumbers.Trunc models `parseInt(imageWidth * scale, 10)` (src/components/ImageEditorProvider.jsx:305-306) as truncation. parseInt first converts the number to a string, and below 1e-6 that string uses exponent notation, so 5e-7 yields 5 rather than 0. The model does not capture sizes that small.
- CropInput.CropChange takes Number(value) as a real, so a non-numeric crop entry, whose Number is NaN (src/components/ImageEditorProvider.jsx:574; src/components/ImageEditorProvide.jsx:249), is not represented. The source's `crop.width || crop.height` guard (src/components/ImageEditorProvider.jsx:629; src/components/ImageEditorProvide.jsx:315) treats such an entry as 0. A caller of the model can only pass 0 for it.
- The zoom division of the crop end point: `cropDimension.endX` is `e.offsetX / zoomScale` (src/components/ImageEditorProvider.jsx:377) while the start and the size are unscaled, so away from level 1 the commit reads a box shifted from the drawn one. `Editor.Editor.MouseMove` and `DrawCropBox` state that end point as written, and `Editor.CommittedSpanAsWrittenAtZoom` exhibits the shift. No corrected version is given: which scale was intended is not evident.
- Both drag flags set at once (image drag, then crop tool on, then crop drag) cannot be cleared by `mouseUp`. `Editor.Editor.MouseUp` states this case (nothing changes), and it is not a finding.
- `Editor.Editor.MouseDown`, `MouseMove`, `DrawCropBox`, `Wheel` and the legacy handlers require a loaded canvas (`view.Some?`), because the source dereferences it unguarded. The throw without a canvas is not modelled.
- LegacyEditor.LegacyEditor.Load and Reset take the element's natural and displayed sizes after the `src` change as a parameter, because image decoding is asynchronous in the browser.
- LegacyEditor.LegacyEditor.CreateCropPreview requires that a zero-sized canvas produce "data:,", which is what the HTML standard's `toDataURL` does. Without that precondition, the model would not tie the empty data URL to the empty canvas.
- The matrix calls are modelled as right multiplication. The general laws of canvas matrices beyond the zoom step (associativity, inverses) are not proved.
- `src/components/Settings.jsx`, `Footer.jsx`, `ImagePreview.jsx`, `App.jsx` and `useAddCanvasListner.js` are UI or wiring and are not part of this model. So is the mismatch by which Flip.jsx reads the older provider's context while App.jsx mounts the newer one.
- The saturation stage's luma uses the weights 0.2989, 0.587 and 0.114 as exact decimals.
