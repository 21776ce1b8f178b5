/**
  The older provider, ImageEditorProvide.jsx: a mean-brightness reading of
  the loaded image, a crop drag that commits on mouse up, the same wheel zoom
  with a local zoom level, and settings that keep the slider's raw string.
  As in the newer provider, React state and refs are the fields of one object
  and each handler is a method.
*/
module LegacyEditor {
  import opened JsNumbers
  import opened Geometry
  import opened CropInput
  import Editor

  // ---------------------------------------------------------------------------
  // getImageBrightness

  /** The displayed and the intrinsic size of an <img> element. */
  datatype ImageElement = ImageElement(naturalWidth: nat, naturalHeight: nat, width: nat, height: nat)

  /** null (no image), the IndexSizeError getImageData throws for an empty canvas, or `{ brightness }`. */
  datatype BrightnessReading = NoImage | SizeError | Percent(brightness: int)

  /** Math.floor((r + g + b) / 3). */
  function PixelAverage(r: Byte, g: Byte, b: Byte): (avg: int)
    ensures 0 <= avg <= 255
    ensures 3 * avg <= r + g + b < 3 * avg + 3
  {
    (r + g + b) / 3
  }

  /** colorSum after the loop has visited every pixel of `s`: alpha bytes are skipped. */
  function ColorSum(s: seq<Byte>): (sum: int)
    requires |s| % 4 == 0
    ensures 0 <= sum && 4 * sum <= 255 * |s|
    decreases |s|
  {
    if |s| == 0 then 0
    else ColorSum(s[..|s| - 4]) + PixelAverage(s[|s| - 4], s[|s| - 3], s[|s| - 2])
  }

  /** Math.floor(colorSum / (naturalWidth * naturalHeight) / 255 * 100). */
  function BrightnessPercent(colorSum: int, pixels: nat): int
    requires pixels > 0
  {
    (colorSum as real / pixels as real / 255.0 * 100.0).Floor
  }

  /** The canvas getImageBrightness draws on: sized to the image's intrinsic size. */
  function CanvasWidth(img: ImageElement): nat
  {
    CanvasDimension(Some(img.naturalWidth as real), 300)
  }

  function CanvasHeight(img: ImageElement): nat
  {
    CanvasDimension(Some(img.naturalHeight as real), 150)
  }

  /** The number of pixels getImageData returns. */
  function Pixels(img: ImageElement): nat
  {
    CanvasWidth(img) * CanvasHeight(img)
  }

  /** naturalWidth * naturalHeight, the divisor of the mean. */
  function Area(img: ImageElement): nat
  {
    img.naturalWidth * img.naturalHeight
  }

  lemma AreaPositive(img: ImageElement)
    requires CanvasWidth(img) > 0 && CanvasHeight(img) > 0
    ensures Area(img) > 0
  {
    PixelsWithinArea(img);
  }

  /** The canvas never holds more pixels than the image, and holds all of them when the sizes fit a `long`. */
  lemma PixelsWithinArea(img: ImageElement)
    ensures Pixels(img) <= Area(img)
    ensures CanvasWidth(img) > 0 && CanvasHeight(img) > 0 ==> Area(img) > 0
    ensures img.naturalWidth <= 2147483647 && img.naturalHeight <= 2147483647 ==> Pixels(img) == Area(img)
  {
    var w, h := CanvasWidth(img), CanvasHeight(img);
    assert w <= img.naturalWidth && (img.naturalWidth <= 2147483647 ==> w == img.naturalWidth) by {
      CanvasSideBelow(img.naturalWidth, 300);
    }
    assert h <= img.naturalHeight && (img.naturalHeight <= 2147483647 ==> h == img.naturalHeight) by {
      CanvasSideBelow(img.naturalHeight, 150);
    }
    ProductMonotone(w, h, img.naturalWidth, img.naturalHeight);
    if img.naturalWidth <= 2147483647 && img.naturalHeight <= 2147483647 {
      assert w == img.naturalWidth && h == img.naturalHeight;
    }
  }

  /**
    What getImageBrightness returns for the pixels `data` of that canvas: the
    mean of the per-pixel averages over the image's intrinsic area, as a
    percentage of 255.
  */
  function Brightness(img: Option<ImageElement>, data: seq<Byte>): BrightnessReading
    requires img.Some? ==> |data| == 4 * Pixels(img.value)
  {
    if img.None? then NoImage
    else if CanvasWidth(img.value) == 0 || CanvasHeight(img.value) == 0 then SizeError
    else
      AreaPositive(img.value);
      Percent(BrightnessPercent(ColorSum(data), Area(img.value)))
  }

  /**
    getImageBrightness: `data` is what getImageData returns for the canvas the
    image is drawn on.
  */
  method ImageBrightness(img: Option<ImageElement>, data: array<Byte>) returns (r: BrightnessReading)
    requires img.Some? ==> data.Length == 4 * Pixels(img.value)
    ensures r == Brightness(img, data[..])
  {
    if img.None? {
      return NoImage;
    }
    var w, h := CanvasWidth(img.value), CanvasHeight(img.value);
    if w == 0 || h == 0 {
      return SizeError;
    }
    var colorSum := 0;
    var x := 0;
    assert data.Length % 4 == 0;
    while x < data.Length
      invariant 0 <= x <= data.Length && x % 4 == 0
      invariant colorSum == ColorSum(data[..x])
    {
      ColorSumStep(data[..], x);
      colorSum := colorSum + PixelAverage(data[x], data[x + 1], data[x + 2]);
      x := x + 4;
    }
    assert data[..x] == data[..];
    AreaPositive(img.value);
    return Percent(BrightnessPercent(colorSum, Area(img.value)));
  }

  /** One more iteration of the loop adds the next pixel's average. */
  lemma ColorSumStep(s: seq<Byte>, x: nat)
    requires |s| % 4 == 0 && x % 4 == 0 && x < |s|
    ensures x + 4 <= |s|
    ensures ColorSum(s[..x + 4]) == ColorSum(s[..x]) + PixelAverage(s[x], s[x + 1], s[x + 2])
  {
    var prefix := s[..x + 4];
    assert prefix[..x] == s[..x];
  }

  /** A canvas side set from an intrinsic size never exceeds it. */
  lemma CanvasSideBelow(n: nat, default: nat)
    requires default <= 300
    ensures CanvasDimension(Some(n as real), default) <= n
    ensures n <= 2147483647 ==> CanvasDimension(Some(n as real), default) == n
  {
    assert (n as real).Floor == n;
  }

  /** A sum of at most 255 per pixel gives a reading in [0, 100]. */
  lemma PercentInRange(colorSum: int, pixels: nat)
    requires pixels > 0 && 0 <= colorSum <= 255 * pixels
    ensures 0 <= BrightnessPercent(colorSum, pixels) <= 100
  {
    var mean := colorSum as real / pixels as real;
    assert 0.0 <= mean <= 255.0 by {
      assert mean * pixels as real == colorSum as real;
    }
    assert 0.0 <= mean / 255.0 * 100.0 <= 100.0;
  }

  lemma Cancel(a: real, b: real)
    requires b != 0.0
    ensures a * b / b == a
  {
  }

  /** A sum of 0 reads 0. */
  lemma ZeroPercent(pixels: nat)
    requires pixels > 0
    ensures BrightnessPercent(0, pixels) == 0
  {
    assert 0.0 / pixels as real == 0.0;
  }

  /** A sum of 255 for every pixel reads exactly 100. */
  lemma FullPercent(pixels: nat)
    requires pixels > 0
    ensures BrightnessPercent(255 * pixels, pixels) == 100
  {
    var mean := (255 * pixels) as real / pixels as real;
    assert mean == 255.0 by {
      assert (255 * pixels) as real == 255.0 * pixels as real;
      Cancel(255.0, pixels as real);
    }
  }

  lemma ProductMonotone(a: nat, b: nat, c: nat, d: nat)
    requires a <= c && b <= d
    ensures a * b <= c * d
    ensures a > 0 && b > 0 ==> c * d > 0
  {
    assert a * b <= c * b;
  }

  /** The brightness of 8-bit pixels is a percentage in [0, 100]. */
  lemma BrightnessInRange(img: Option<ImageElement>, data: seq<Byte>)
    requires img.Some? ==> |data| == 4 * Pixels(img.value)
    ensures Brightness(img, data).Percent? ==> 0 <= Brightness(img, data).brightness <= 100
  {
    if Brightness(img, data).Percent? {
      PixelsWithinArea(img.value);
      PercentInRange(ColorSum(data), Area(img.value));
    }
  }

  /** Every colour channel (not alpha) of every pixel equals `v`. */
  ghost predicate Uniform(s: seq<Byte>, v: Byte)
  {
    forall i :: 0 <= i < |s| && i % 4 != 3 ==> s[i] == v
  }

  /** When every colour byte is v, each pixel averages v, so the sum is v per pixel. */
  lemma {:induction false} ColorSumOfUniform(s: seq<Byte>, v: Byte)
    requires |s| % 4 == 0 && Uniform(s, v)
    ensures 4 * ColorSum(s) == v * |s|
    decreases |s|
  {
    if |s| > 0 {
      var front := s[..|s| - 4];
      UniformFront(s, v);
      ColorSumOfUniform(front, v);
      UniformStep(ColorSum(front), ColorSum(s), v, |front|, |s|);
    }
  }

  /** Dropping the last pixel of a uniform image leaves a uniform image, and the sum loses v. */
  lemma UniformFront(s: seq<Byte>, v: Byte)
    requires |s| >= 4 && |s| % 4 == 0 && Uniform(s, v)
    ensures Uniform(s[..|s| - 4], v)
    ensures ColorSum(s) == ColorSum(s[..|s| - 4]) + v
  {
    var n := |s| - 4;
    var front := s[..n];
    forall i | 0 <= i < n && i % 4 != 3 ensures front[i] == v {
      assert front[i] == s[i];
    }
    assert s[n] == v && s[n + 1] == v && s[n + 2] == v;
    AverageOfGray(v);
  }

  /** One more pixel of value v adds v to the sum and four bytes to the length. */
  lemma UniformStep(sum: int, next: int, v: int, n: int, m: int)
    requires 4 * sum == v * n && next == sum + v && m == n + 4
    ensures 4 * next == v * m
  {
  }

  lemma AverageOfGray(v: Byte)
    ensures PixelAverage(v, v, v) == v
  {
    assert v + v + v == 3 * v;
  }

  /** An all-black image reads 0. */
  lemma BlackImageReadsZero(img: ImageElement, data: seq<Byte>)
    requires |data| == 4 * Pixels(img)
    requires CanvasWidth(img) > 0 && CanvasHeight(img) > 0 && Uniform(data, 0)
    ensures Brightness(Some(img), data) == Percent(0)
  {
    assert ColorSum(data) == 0 by {
      ColorSumOfUniform(data, 0);
    }
    AreaPositive(img);
    ZeroPercent(Area(img));
  }

  /** An all-white image reads 100 when the canvas holds the whole image. */
  lemma WhiteImageReadsHundred(img: ImageElement, data: seq<Byte>)
    requires |data| == 4 * Pixels(img)
    requires 0 < img.naturalWidth <= 2147483647 && 0 < img.naturalHeight <= 2147483647
    requires Uniform(data, 255)
    ensures Brightness(Some(img), data) == Percent(100)
  {
    PixelsWithinArea(img);
    assert CanvasWidth(img) > 0 && CanvasHeight(img) > 0 by {
      CanvasSideBelow(img.naturalWidth, 300);
      CanvasSideBelow(img.naturalHeight, 150);
    }
    assert ColorSum(data) == 255 * Area(img) by {
      ColorSumOfUniform(data, 255);
      assert 4 * ColorSum(data) == 4 * (255 * Area(img));
    }
    FullPercent(Area(img));
  }

  /** The reading depends on the colour channels only: alpha bytes never matter. */
  lemma {:induction false} ColorSumIgnoresAlpha(s: seq<Byte>, t: seq<Byte>)
    requires |s| == |t| && |s| % 4 == 0
    requires forall i :: 0 <= i < |s| && i % 4 != 3 ==> s[i] == t[i]
    ensures ColorSum(s) == ColorSum(t)
    decreases |s|
  {
    if |s| > 0 {
      var n := |s| - 4;
      assert n % 4 == 0 && (n + 1) % 4 == 1 && (n + 2) % 4 == 2;
      assert forall i :: 0 <= i < n && i % 4 != 3 ==> s[..n][i] == t[..n][i] by {
        forall i | 0 <= i < n && i % 4 != 3 ensures s[..n][i] == t[..n][i] {
          assert s[..n][i] == s[i] && t[..n][i] == t[i];
        }
      }
      ColorSumIgnoresAlpha(s[..n], t[..n]);
      assert s[n] == t[n] && s[n + 1] == t[n + 1] && s[n + 2] == t[n + 2];
    }
  }

  // ---------------------------------------------------------------------------
  // Settings

  /** A setting holds a number until a slider stores its raw string value. */
  datatype SettingValue = Number(n: real) | Raw(text: string)

  datatype LegacySettings = LegacySettings(
    grayscale: SettingValue, brightness: SettingValue, saturation: SettingValue, inversion: SettingValue,
    rotate: real, flipHorizontal: real, flipVertical: real)

  const InitialLegacySettings := LegacySettings(Number(0.0), Number(0.0), Number(100.0), Number(0.0), 0.0, 1.0, 1.0)

  /** The record reset installs, with the brightness just read from the image. */
  function ResetSettings(brightness: int): (r: LegacySettings)
    ensures r == InitialLegacySettings.(brightness := Number(brightness as real))
  {
    LegacySettings(Number(0.0), Number(brightness as real), Number(100.0), Number(0.0), 0.0, 1.0, 1.0)
  }

  /** The `name` of the four sliders. */
  datatype LegacySettingName = GrayscaleName | BrightnessName | SaturationName | InversionName

  function LegacySetting(s: LegacySettings, name: LegacySettingName): SettingValue
  {
    match name
    case GrayscaleName => s.grayscale
    case BrightnessName => s.brightness
    case SaturationName => s.saturation
    case InversionName => s.inversion
  }

  /** handleSettings: `{ ...prev, [name]: value }` with the input's string value. */
  function WithRaw(s: LegacySettings, name: LegacySettingName, value: string): (r: LegacySettings)
    ensures LegacySetting(r, name) == Raw(value)
    ensures forall other :: other != name ==> LegacySetting(r, other) == LegacySetting(s, other)
    ensures r.rotate == s.rotate && r.flipHorizontal == s.flipHorizontal && r.flipVertical == s.flipVertical
  {
    match name
    case GrayscaleName => s.(grayscale := Raw(value))
    case BrightnessName => s.(brightness := Raw(value))
    case SaturationName => s.(saturation := Raw(value))
    case InversionName => s.(inversion := Raw(value))
  }

  // ---------------------------------------------------------------------------
  // The crop preview canvas

  /** img.naturalWidth / img.width; `None` is NaN or an infinity (an image displayed at size 0). */
  function Ratio(natural: nat, displayed: nat): (r: Option<real>)
    ensures r.Some? <==> displayed > 0
    ensures r.Some? ==> r.value * displayed as real == natural as real
  {
    if displayed == 0 then None else Some(natural as real / displayed as real)
  }

  /**
    `canvas.width = Math.ceil(size * ratio)`: an undefined size or a non-finite
    ratio makes the product non-finite, which the canvas stores as 0.
  */
  function PreviewSide(size: Option<real>, ratio: Option<real>, default: nat): (r: nat)
    ensures size.None? || ratio.None? ==> r == 0
  {
    if size.Some? && ratio.Some? then CanvasDimension(Some(Ceil(size.value * ratio.value) as real), default)
    else CanvasDimension(None, default)
  }

  /** The crop box drawn by the pointer; `{}` at first. */
  datatype CropRect = CropRect(start: Option<Point>, width: Option<real>, height: Option<real>)

  const InitialCropRect := CropRect(None, None, None)

  /** The canvas, together with the image element it draws. */
  datatype LegacyView = LegacyView(width: nat, height: nat, img: ImageElement)

  /** The canvas createCropPreview resizes to the crop, from the drag rectangle or from the crop form. */
  function PreviewView(fromDrag: bool, crop: Crop, cropRect: CropRect, v: LegacyView): (r: LegacyView)
    ensures r.img == v.img
    ensures fromDrag && cropRect.width.None? ==> r.width == 0
    ensures fromDrag && cropRect.height.None? ==> r.height == 0
  {
    var w := if fromDrag then cropRect.width else Some(crop.width);
    var h := if fromDrag then cropRect.height else Some(crop.height);
    LegacyView(PreviewSide(w, Ratio(v.img.naturalWidth, v.img.width), 300),
      PreviewSide(h, Ratio(v.img.naturalHeight, v.img.height), 150), v.img)
  }

  /**
    toDataURL() of a canvas without pixels is "data:," (the HTML standard's
    rule for a bitmap with a zero dimension).
  */
  predicate DataUrlFits(v: LegacyView, dataUrl: string)
  {
    v.width == 0 || v.height == 0 ==> dataUrl == Editor.EmptyDataUrl
  }

  /** Every field of the provider. */
  datatype LegacyState = LegacyState(
    image: Option<string>, oldImage: Option<string>, settings: LegacySettings, crop: Crop,
    cropRect: CropRect, rectStart: Option<Point>, isDragging: bool,
    view: Option<LegacyView>, transform: Matrix, zoomScale: real)

  /**
    mouseMove draws only while dragging with `rectRef.current?.startX` truthy:
    a drag started at x = 0 draws nothing.
  */
  predicate DrawsCropBox(isDragging: bool, rectStart: Option<Point>)
  {
    isDragging && rectStart.Some? && rectStart.value.x != 0.0
  }

  /**
    The crop box size applySettings(true, e) records: from the start to the
    pointer, where a missing (or zero) start counts as 0.
  */
  function DraggedCropRect(cropRect: CropRect, rectStart: Option<Point>, e: Editor.PointerEvent): (r: CropRect)
    ensures r.start == cropRect.start
    ensures rectStart.Some? ==> r.width == Some(e.pageX - e.offsetLeft - rectStart.value.x)
    ensures rectStart.Some? ==> r.height == Some(e.pageY - e.offsetTop - rectStart.value.y)
    ensures rectStart.None? ==> r.width == Some(e.pageX - e.offsetLeft) && r.height == Some(e.pageY - e.offsetTop)
  {
    var sx := if rectStart.Some? then rectStart.value.x else 0.0;
    var sy := if rectStart.Some? then rectStart.value.y else 0.0;
    cropRect.(width := Some(e.pageX - e.offsetLeft - sx), height := Some(e.pageY - e.offsetTop - sy))
  }

  class LegacyEditor {
    var image: Option<string>
    var oldImage: Option<string>
    var settings: LegacySettings
    var crop: Crop
    var cropRect: CropRect
    /** rectRef.current's start point. */
    var rectStart: Option<Point>
    var isDragging: bool
    var view: Option<LegacyView>
    var transform: Matrix
    /** The handler's `let zoomScale`. */
    var zoomScale: real

    ghost function State(): LegacyState
      reads this
    {
      LegacyState(image, oldImage, settings, crop, cropRect, rectStart, isDragging, view, transform, zoomScale)
    }

    ghost predicate Valid()
      reads this
    {
      1.0 <= zoomScale <= 30.0
    }

    constructor ()
      ensures Valid()
      ensures State() == LegacyState(None, None, InitialLegacySettings, EmptyCrop, InitialCropRect, None, false,
        None, Identity, 1.0)
    {
      image, oldImage, settings, crop := None, None, InitialLegacySettings, EmptyCrop;
      cropRect, rectStart, isDragging := InitialCropRect, None, false;
      view, transform, zoomScale := None, Identity, 1.0;
    }

    /**
      displayFiles once the file is read: a 1000×500 canvas (so the identity
      transform) drawing a new image element, then the brightness reading,
      which throws for an image of size 0 before the image is recorded.
      `data` is what getImageData returns for that element.
    */
    method Load(dataUrl: string, img: ImageElement, data: array<Byte>) returns (thrown: bool)
      requires Valid()
      requires data.Length == 4 * Pixels(img)
      modifies this
      ensures Valid()
      ensures var reading := Brightness(Some(img), data[..]);
        && (thrown <==> reading.SizeError?)
        && (thrown ==> State() == old(State()).(view := Some(LegacyView(1000, 500, img)), transform := Identity))
        && (!thrown ==> State() == old(State()).(view := Some(LegacyView(1000, 500, img)), transform := Identity,
          settings := old(settings).(brightness := Number(reading.brightness as real)),
          oldImage := Some(dataUrl), image := Some(dataUrl)))
    {
      view, transform := Some(LegacyView(1000, 500, img)), Identity;
      var reading := ImageBrightness(Some(img), data);
      if reading.SizeError? {
        return true;
      }
      settings := settings.(brightness := Number(reading.brightness as real));
      oldImage, image := Some(dataUrl), Some(dataUrl);
      return false;
    }

    /** mouseDown: always starts a drag at the pointer, relative to the canvas's client rectangle. */
    method MouseDown(e: Editor.PointerEvent)
      requires Valid() && view.Some?
      modifies this
      ensures Valid()
      ensures var start := Some(Point(e.clientX - e.rectLeft, e.clientY - e.rectTop));
        State() == old(State()).(isDragging := true, rectStart := start, cropRect := old(cropRect).(start := start))
    {
      var start := Some(Point(e.clientX - e.rectLeft, e.clientY - e.rectTop));
      isDragging, rectStart := true, start;
      cropRect := cropRect.(start := start);
    }

    /**
      mouseMove: applySettings(true, e) redraws under save/restore, so the
      transform comes back unchanged, and records the crop box size.
    */
    method MouseMove(e: Editor.PointerEvent)
      requires Valid() && view.Some?
      modifies this
      ensures Valid()
      ensures if DrawsCropBox(old(isDragging), old(rectStart))
        then State() == old(State()).(cropRect := DraggedCropRect(old(cropRect), old(rectStart), e))
        else State() == old(State())
    {
      if isDragging && rectStart.Some? && rectStart.value.x != 0.0 {
        cropRect := DraggedCropRect(cropRect, rectStart, e);
      }
    }

    /**
      createCropPreview: resizes the canvas to the crop times the image's
      natural-to-displayed ratio (which resets the transform), and unless the
      canvas's data URL is "data:," makes it the image, with `preview` as the
      new image element, and clears the crop form.
    */
    method CreateCropPreview(fromDrag: bool, dataUrl: string, preview: ImageElement)
      requires Valid() && view.Some?
      requires DataUrlFits(PreviewView(fromDrag, crop, cropRect, view.value), dataUrl)
      modifies this
      ensures Valid()
      ensures var resized := PreviewView(fromDrag, old(crop), old(cropRect), old(view).value);
        if dataUrl != Editor.EmptyDataUrl then
          State() == old(State()).(view := Some(resized.(img := preview)), transform := Identity,
            image := Some(dataUrl), crop := EmptyCrop)
        else State() == old(State()).(view := Some(resized), transform := Identity)
    {
      view, transform := Some(PreviewView(fromDrag, crop, cropRect, view.value)), Identity;
      if dataUrl != Editor.EmptyDataUrl {
        image, crop := Some(dataUrl), EmptyCrop;
        view := Some(view.value.(img := preview));
      }
    }

    /** mouseUp: ends the drag and commits the dragged box. */
    method MouseUp(dataUrl: string, preview: ImageElement)
      requires Valid() && view.Some?
      requires DataUrlFits(PreviewView(true, crop, cropRect, view.value), dataUrl)
      modifies this
      ensures Valid()
      ensures var resized := PreviewView(true, old(crop), old(cropRect), old(view).value);
        var ended := old(State()).(isDragging := false, view := Some(resized), transform := Identity);
        if dataUrl != Editor.EmptyDataUrl then
          State() == ended.(view := Some(resized.(img := preview)), image := Some(dataUrl), crop := EmptyCrop)
        else State() == ended
      ensures old(cropRect).width.None? || old(cropRect).height.None? ==>
        image == old(image) && crop == old(crop) && view.value.img == old(view).value.img
    {
      isDragging := false;
      CreateCropPreview(true, dataUrl, preview);
    }

    /** applyCrop: commits the crop form only with an image and a non-zero width or height. */
    method ApplyCrop(dataUrl: string, preview: ImageElement) returns (attempted: bool)
      requires Valid()
      requires view.Some? ==> DataUrlFits(PreviewView(false, crop, cropRect, view.value), dataUrl)
      modifies this
      ensures Valid()
      ensures attempted <==> old(image).Some? && old(view).Some? && (old(crop).width != 0.0 || old(crop).height != 0.0)
      ensures !attempted ==> State() == old(State())
      ensures attempted ==>
        var resized := PreviewView(false, old(crop), old(cropRect), old(view).value);
        if dataUrl != Editor.EmptyDataUrl then
          State() == old(State()).(view := Some(resized.(img := preview)), transform := Identity,
            image := Some(dataUrl), crop := EmptyCrop)
        else State() == old(State()).(view := Some(resized), transform := Identity)
    {
      attempted := image.Some? && view.Some? && (crop.width != 0.0 || crop.height != 0.0);
      if attempted {
        CreateCropPreview(false, dataUrl, preview);
      }
    }

    /**
      reset: with an image element, an original image and a canvas, sets the
      canvas back to 1000×500, clears the crop, reloads the original into the
      element (`restored`, whose pixels are `data`) and installs the default
      settings with the brightness read from it; the zoom level is kept.
    */
    method Reset(restored: ImageElement, data: array<Byte>) returns (thrown: bool)
      requires Valid()
      requires data.Length == 4 * Pixels(restored)
      modifies this
      ensures Valid()
      ensures var reading := Brightness(Some(restored), data[..]);
        var restarted := old(State()).(view := Some(LegacyView(1000, 500, restored)), transform := Identity,
          crop := EmptyCrop, image := old(oldImage));
        if old(view).Some? && old(oldImage).Some? then
          && (thrown <==> reading.SizeError?)
          && (thrown ==> State() == restarted)
          && (!thrown ==> State() == restarted.(settings := ResetSettings(reading.brightness)))
        else !thrown && State() == old(State())
    {
      thrown := false;
      if view.Some? && oldImage.Some? {
        view, transform := Some(LegacyView(1000, 500, restored)), Identity;
        crop, image := EmptyCrop, oldImage;
        var reading := ImageBrightness(Some(restored), data);
        if reading.SizeError? {
          return true;
        }
        settings := ResetSettings(reading.brightness);
      }
    }

    /**
      handleZoomInAndOut: the step factor is Math.exp(±0.2), given as `zoomIn`
      and `zoomOut`; the same cap at 30, snap to 1 and zoom about the pointer
      as in the newer provider.
    */
    method Wheel(e: Editor.WheelEvent, zoomIn: real, zoomOut: real)
      requires Valid() && view.Some?
      modifies this
      ensures Valid()
      ensures var p := Point(e.clientX - e.offsetLeft, e.clientY - e.offsetTop);
        Zoom(zoomScale, transform) == ZoomStep(Zoom(old(zoomScale), old(transform)), WheelFactor(e.deltaY, zoomIn, zoomOut), p)
      ensures State() == old(State()).(zoomScale := zoomScale, transform := transform)
    {
      var p := Point(e.clientX - e.offsetLeft, e.clientY - e.offsetTop);
      var zoom := WheelFactor(e.deltaY, zoomIn, zoomOut);
      var next := CappedScale(zoomScale, zoom);
      if next <= 1.0 {
        transform, zoomScale := Identity, 1.0;
        return;
      }
      transform, zoomScale := ZoomAbout(p, zoom, transform), next;
    }

    /** handleSettings: the slider's string value is stored as it is. */
    method HandleSettings(name: LegacySettingName, value: string)
      requires Valid()
      modifies this
      ensures Valid()
      ensures State() == old(State()).(settings := WithRaw(old(settings), name, value))
    {
      settings := WithRaw(settings, name, value);
    }

    /** handleCropChange: a blank entry stores 0, anything else Number(value). */
    method HandleCropChange(field: CropField, value: string, number: real)
      requires Valid()
      modifies this
      ensures Valid()
      ensures State() == old(State()).(crop := CropChange(old(crop), field, value, number))
    {
      crop := CropChange(crop, field, value, number);
    }
  }
}
