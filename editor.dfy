/**
  The editing engine of ImageEditorProvider.jsx: the provider's state as the
  fields of one object, and each event handler as a method that updates them.
  React state setters become field assignments that the next event sees; the
  `cropDimension` ref and the context transform are fields too. The canvas,
  the context and the preview image only matter through their sizes, kept in
  `view` once a file has been loaded.
*/
module Editor {
  import opened JsNumbers
  import opened PixelFilters
  import opened Geometry
  import opened CropInput

  datatype FlipRotate = FlipRotate(rotate: real, flipHorizontal: real, flipVertical: real)

  const DefaultFlipRotate := FlipRotate(0.0, 1.0, 1.0)

  /**
    Where the image sits on the canvas and its drawn size. `None` is
    `undefined` for the sizes and NaN for the origin (a value every comparison
    rejects).
  */
  datatype Coordinates = Coordinates(x: Option<real>, y: Option<real>, width: Option<real>, height: Option<real>)

  const InitialCoordinates := Coordinates(Some(0.0), Some(0.0), None, None)

  datatype CropRect = CropRect(startX: real, startY: real, endX: real, endY: real, width: Option<real>, height: Option<real>)

  const InitialCropRect := CropRect(0.0, 0.0, 0.0, 0.0, None, None)

  /** The crop box being drawn; the sizes are `undefined` until a box is drawn. */
  datatype CropDimension = CropDimension(
    startX: real, startY: real, endX: real, endY: real,
    croppedWidth: Option<real>, croppedHeight: Option<real>)

  const DefaultCropDimension := CropDimension(100.0, 100.0, 0.0, 0.0, None, None)

  /** The canvas size and the size of the preview image element. */
  datatype View = View(width: nat, height: nat, imageWidth: nat, imageHeight: nat)

  /**
    A mouse event together with the layout it is read against: the canvas's
    offsetLeft/offsetTop and the left/top of its bounding client rectangle.
  */
  datatype PointerEvent = PointerEvent(
    pageX: real, pageY: real, clientX: real, clientY: real, offsetX: real, offsetY: real,
    offsetLeft: real, offsetTop: real, rectLeft: real, rectTop: real)

  datatype WheelEvent = WheelEvent(deltaY: real, clientX: real, clientY: real, offsetLeft: real, offsetTop: real)

  /** Every field of the provider, for stating what a handler changes and what it keeps. */
  datatype EditorState = EditorState(
    image: Option<string>, oldImage: Option<string>,
    settings: Settings, flipRotate: FlipRotate, crop: Crop,
    cropRect: CropRect, cropDimension: CropDimension, currentCoordinates: Coordinates,
    disabledCropBtn: bool, isDragging: bool, isImageDragging: bool, cropBox: bool,
    zoomScale: real, transform: Matrix, view: Option<View>)

  /** `toDataURL()` of a canvas with no pixels. */
  const EmptyDataUrl := "data:,"

  /** v - d, where `None` (NaN or undefined) stays NaN. */
  function MinusHalf(v: real, d: Option<real>): (r: Option<real>)
    ensures d.None? <==> r.None?
    ensures d.Some? ==> r.value + d.value / 2.0 == v
  {
    if d.None? then None else Some(v - d.value / 2.0)
  }

  /** A canvas whose width and height are set to the preview area's client size, and the preview image's size. */
  function FreshView(areaWidth: real, areaHeight: real, imageWidth: nat, imageHeight: nat): View
  {
    View(CanvasDimension(Some(areaWidth), 300), CanvasDimension(Some(areaHeight), 150), imageWidth, imageHeight)
  }

  /** The top-left corner createCropPreview reads from: min(startX, endX), min(startY, endY). */
  function CropOrigin(d: CropDimension): Point
  {
    Point(Min(d.startX, d.endX), Min(d.startY, d.endY))
  }

  /** Whether getImageData accepts the rectangle createCropPreview asks for. */
  predicate CropReadable(d: CropDimension)
  {
    GetImageDataReturns(Some(CropOrigin(d).x), Some(CropOrigin(d).y), d.croppedWidth, d.croppedHeight)
  }

  /** The hit test of mouseDown: the pointer inside [x ± w/2] × [y ± h/2]. */
  predicate OverImage(c: Coordinates, imageWidth: nat, imageHeight: nat, mouseX: real, mouseY: real)
  {
    && c.x.Some? && c.y.Some?
    && c.x.value - imageWidth as real / 2.0 <= mouseX <= c.x.value + imageWidth as real / 2.0
    && c.y.value - imageHeight as real / 2.0 <= mouseY <= c.y.value + imageHeight as real / 2.0
  }

  class Editor {
    var image: Option<string>
    var oldImage: Option<string>
    var settings: Settings
    var flipRotate: FlipRotate
    var crop: Crop
    var cropRect: CropRect
    var cropDimension: CropDimension
    var currentCoordinates: Coordinates
    var disabledCropBtn: bool
    var isDragging: bool
    var isImageDragging: bool
    var cropBox: bool
    var zoomScale: real
    var transform: Matrix
    var view: Option<View>

    ghost function State(): EditorState
      reads this
    {
      EditorState(image, oldImage, settings, flipRotate, crop, cropRect, cropDimension, currentCoordinates,
        disabledCropBtn, isDragging, isImageDragging, cropBox, zoomScale, transform, view)
    }

    /** The zoom level stays within [1, 30]. */
    ghost predicate Valid()
      reads this
    {
      1.0 <= zoomScale <= 30.0
    }

    /** The initial state of every useState and useRef. */
    constructor ()
      ensures Valid()
      ensures State() == EditorState(None, None, NeutralSettings, DefaultFlipRotate, EmptyCrop,
        InitialCropRect, DefaultCropDimension, InitialCoordinates,
        true, false, false, false, 1.0, Identity, None)
    {
      image, oldImage := None, None;
      settings, flipRotate, crop := NeutralSettings, DefaultFlipRotate, EmptyCrop;
      cropRect, cropDimension, currentCoordinates := InitialCropRect, DefaultCropDimension, InitialCoordinates;
      disabledCropBtn, isDragging, isImageDragging, cropBox := true, false, false, false;
      zoomScale, transform, view := 1.0, Identity, None;
    }

    /**
      displayFiles once the file is read: a fresh canvas sized to the preview
      area (so a fresh, identity transform), and the file's data URL as both
      the current and the original image.
    */
    method Load(dataUrl: string, areaWidth: real, areaHeight: real, imageWidth: nat, imageHeight: nat)
      requires Valid()
      modifies this
      ensures Valid()
      ensures State() == old(State()).(
        view := Some(FreshView(areaWidth, areaHeight, imageWidth, imageHeight)),
        transform := Identity, oldImage := Some(dataUrl), image := Some(dataUrl))
    {
      view, transform := Some(FreshView(areaWidth, areaHeight, imageWidth, imageHeight)), Identity;
      oldImage, image := Some(dataUrl), Some(dataUrl);
    }

    /**
      drawImage's onload: drawImageOnCanvas with the coordinates recorded. The
      drag event never reaches it (the argument meant for it arrives one
      position early), so while the image is being dragged reading its pageX
      throws and nothing is recorded.
    */
    method DrawImage(iw: nat, ih: nat) returns (thrown: bool)
      requires Valid() && view.Some? && iw > 0 && ih > 0
      modifies this
      ensures Valid()
      ensures thrown <==> old(isImageDragging)
      ensures thrown ==> State() == old(State())
      ensures !thrown ==>
        var p := Place(old(view).value.width, old(view).value.height, iw, ih, None);
        State() == old(State()).(currentCoordinates := Coordinates(Some(p.x), Some(p.y), Some(p.width as real), Some(p.height as real)))
    {
      if isImageDragging {
        return true;
      }
      var p := Place(view.value.width, view.value.height, iw, ih, None);
      currentCoordinates := Coordinates(Some(p.x), Some(p.y), Some(p.width as real), Some(p.height as real));
      return false;
    }

    /**
      mouseDown: inside the image with the crop tool off starts dragging the
      image; otherwise, with the crop tool on, it starts a crop drag at the
      pointer and clears the crop end point; otherwise nothing happens.
    */
    method MouseDown(e: PointerEvent)
      requires Valid() && view.Some?
      modifies this
      ensures Valid()
      ensures var s := old(State());
        var over := OverImage(s.currentCoordinates, s.view.value.imageWidth, s.view.value.imageHeight,
          e.pageX - e.offsetLeft, e.pageY - e.offsetTop);
        var sx := e.clientX - e.rectLeft;
        var sy := e.clientY - e.rectTop;
        if over && !s.cropBox then State() == s.(isImageDragging := true)
        else if s.cropBox then State() == s.(isDragging := true,
          cropDimension := s.cropDimension.(startX := sx, startY := sy),
          cropRect := s.cropRect.(startX := sx, startY := sy, endX := 0.0, endY := 0.0))
        else State() == s
    {
      var mouseX := e.pageX - e.offsetLeft;
      var mouseY := e.pageY - e.offsetTop;
      var img := view.value;
      if OverImage(currentCoordinates, img.imageWidth, img.imageHeight, mouseX, mouseY) && !cropBox {
        isImageDragging := true;
      } else if cropBox {
        isDragging := true;
        var sx := e.clientX - e.rectLeft;
        var sy := e.clientY - e.rectTop;
        cropDimension := cropDimension.(startX := sx, startY := sy);
        cropRect := cropRect.(startX := sx, startY := sy, endX := if cropBox then 0.0 else cropRect.endX,
          endY := if cropBox then 0.0 else cropRect.endY);
      }
    }

    /**
      drawCropBox: with a pointer event the box runs from the recorded start to
      the pointer; without one it is the 150×150 box centred on the canvas.
      The button is enabled while the crop tool is on.
    */
    method DrawCropBox(e: Option<PointerEvent>)
      requires Valid() && view.Some?
      modifies this
      ensures Valid()
      ensures var s := old(State());
        var width := if e.Some? then e.value.pageX - e.value.offsetLeft - s.cropRect.startX else 150.0;
        var height := if e.Some? then e.value.pageY - e.value.offsetTop - s.cropRect.startY else 150.0;
        var x := if e.Some? then s.cropDimension.startX else s.view.value.width as real / 2.0 - 75.0;
        var y := if e.Some? then s.cropDimension.startY else s.view.value.height as real / 2.0 - 75.0;
        State() == s.(
          cropRect := s.cropRect.(width := Some(width), height := Some(height), startX := x, startY := y,
            endX := if e.Some? then s.cropRect.endX else x, endY := if e.Some? then s.cropRect.endY else y),
          cropDimension := s.cropDimension.(
            endX := if e.Some? then e.value.offsetX / s.zoomScale else x,
            endY := if e.Some? then e.value.offsetY / s.zoomScale else y,
            croppedWidth := Some(width), croppedHeight := Some(height), startX := x, startY := y),
          disabledCropBtn := if s.cropBox then false else s.disabledCropBtn)
    {
      var width := if e.Some? then e.value.pageX - e.value.offsetLeft - cropRect.startX else 150.0;
      var height := if e.Some? then e.value.pageY - e.value.offsetTop - cropRect.startY else 150.0;
      var x := if e.Some? then cropDimension.startX else view.value.width as real / 2.0 - 150.0 / 2.0;
      var y := if e.Some? then cropDimension.startY else view.value.height as real / 2.0 - 150.0 / 2.0;
      cropRect := cropRect.(width := Some(width), height := Some(height), startX := x, startY := y,
        endX := if e.Some? then cropRect.endX else x, endY := if e.Some? then cropRect.endY else y);
      cropDimension := cropDimension.(
        endX := if e.Some? then e.value.offsetX / zoomScale else x,
        endY := if e.Some? then e.value.offsetY / zoomScale else y,
        croppedWidth := Some(width), croppedHeight := Some(height), startX := x, startY := y);
      if cropBox {
        disabledCropBtn := false;
      }
    }

    /**
      mouseMove: a crop drag redraws the crop box at the pointer; an image drag
      (only) moves the image origin so the image is centred on the pointer.
    */
    method MouseMove(e: PointerEvent)
      requires Valid() && view.Some?
      modifies this
      ensures Valid()
      ensures var s := old(State());
        var width := e.pageX - e.offsetLeft - s.cropRect.startX;
        var height := e.pageY - e.offsetTop - s.cropRect.startY;
        if s.isDragging then
          State() == s.(
            cropRect := s.cropRect.(width := Some(width), height := Some(height),
              startX := s.cropDimension.startX, startY := s.cropDimension.startY),
            cropDimension := s.cropDimension.(endX := e.offsetX / s.zoomScale, endY := e.offsetY / s.zoomScale,
              croppedWidth := Some(width), croppedHeight := Some(height)),
            disabledCropBtn := if s.cropBox then false else s.disabledCropBtn)
        else if s.isImageDragging then
          State() == s.(currentCoordinates := s.currentCoordinates.(
            x := MinusHalf(e.pageX - e.offsetLeft, s.currentCoordinates.width),
            y := MinusHalf(e.pageY - e.offsetTop, s.currentCoordinates.height)))
        else State() == s
    {
      if isDragging || isImageDragging {
        if isDragging {
          DrawCropBox(Some(e));
        } else if isImageDragging {
          var x := MinusHalf(e.pageX - e.offsetLeft, currentCoordinates.width);
          var y := MinusHalf(e.pageY - e.offsetTop, currentCoordinates.height);
          currentCoordinates := currentCoordinates.(x := x, y := y);
        }
      }
    }

    /**
      mouseUp: clears whichever one drag flag is set; ending a crop drag
      enables the crop button. With both flags set (or neither) nothing changes.
    */
    method MouseUp()
      requires Valid()
      modifies this
      ensures Valid()
      ensures var s := old(State());
        if s.isDragging && !s.isImageDragging then State() == s.(isDragging := false, disabledCropBtn := false)
        else if !s.isDragging && s.isImageDragging then State() == s.(isImageDragging := false)
        else State() == s
    {
      if isDragging && !isImageDragging {
        isDragging := false;
        disabledCropBtn := false;
      } else if !isDragging && isImageDragging {
        isImageDragging := false;
      }
    }

    /**
      toggleCropBox, followed by the effect on `cropBox`: turning the tool on
      draws the default crop box, which needs the canvas.
    */
    method ToggleCropBox() returns (thrown: bool)
      requires Valid()
      modifies this
      ensures Valid()
      ensures cropBox == !old(cropBox)
      ensures thrown <==> cropBox && view.None?
      ensures !cropBox || view.None? ==> State() == old(State()).(cropBox := !old(cropBox))
      ensures cropBox && view.Some? ==>
        var x := view.value.width as real / 2.0 - 75.0;
        var y := view.value.height as real / 2.0 - 75.0;
        State() == old(State()).(cropBox := true, disabledCropBtn := false,
          cropRect := old(cropRect).(width := Some(150.0), height := Some(150.0),
            startX := x, startY := y, endX := x, endY := y),
          cropDimension := old(cropDimension).(startX := x, startY := y, endX := x, endY := y,
            croppedWidth := Some(150.0), croppedHeight := Some(150.0)))
    {
      cropBox := !cropBox;
      thrown := false;
      if cropBox {
        if view.None? {
          thrown := true;
        } else {
          DrawCropBox(None);
        }
      }
    }

    /** The window click listener: a click outside the canvas and the crop button cancels the crop tool. */
    method ClickOutside(clickedOutside: bool)
      requires Valid()
      modifies this
      ensures Valid()
      ensures if view.Some? && clickedOutside && old(cropBox) then
          State() == old(State()).(cropBox := false, disabledCropBtn := true, cropDimension := DefaultCropDimension)
        else State() == old(State())
    {
      if view.Some? {
        if clickedOutside && cropBox {
          cropBox, disabledCropBtn, cropDimension := false, true, DefaultCropDimension;
        }
      }
    }

    /**
      handleZoomInAndOut. `zoomIn` and `zoomOut` are Math.exp(0.03) and
      Math.exp(-0.03); the scale is capped at 30 and snaps back to 1 with the
      identity transform; otherwise the zoom about the pointer is composed in
      front of the previous transform.
    */
    method Wheel(e: WheelEvent, zoomIn: real, zoomOut: real)
      requires Valid() && view.Some?
      modifies this
      ensures Valid()
      ensures var p := Point(e.clientX - e.offsetLeft, e.clientY - e.offsetTop);
        var z := ZoomStep(Zoom(old(zoomScale), old(transform)), WheelFactor(e.deltaY, zoomIn, zoomOut), p);
        Zoom(zoomScale, transform) == z
      ensures State() == old(State()).(zoomScale := zoomScale, transform := transform)
    {
      var p := Point(e.clientX - e.offsetLeft, e.clientY - e.offsetTop);
      var zoom := WheelFactor(e.deltaY, zoomIn, zoomOut);
      var nextScale := CappedScale(zoomScale, zoom);
      var previous := transform;
      transform := Identity;
      if nextScale <= 1.0 {
        nextScale := 1.0;
      } else {
        // translate(p), scale(zoom, zoom), translate(-p), then the saved transform.
        transform := ZoomAbout(p, zoom, previous);
      }
      zoomScale := nextScale;
    }

    /**
      createCropPreview: reads the crop box at (min(startX, endX),
      min(startY, endY)) with the box's own width and height, which throws
      when the canvas is missing or getImageData rejects the rectangle. On
      success the transform becomes scale(zoomScale), the button is disabled,
      the coordinates take the crop rectangle, the crop tool goes off, and the
      image becomes `dataUrl` (the canvas's toDataURL()) unless that is empty.
    */
    method CreateCropPreview(dataUrl: string) returns (thrown: bool)
      requires Valid()
      modifies this
      ensures Valid()
      ensures thrown <==> !(old(view).Some? && CropReadable(old(cropDimension)))
      ensures thrown ==> State() == old(State())
      ensures !thrown ==>
        var d := old(cropDimension);
        State() == old(State()).(
          transform := Scale(Identity, old(zoomScale), old(zoomScale)),
          disabledCropBtn := true,
          currentCoordinates := Coordinates(Some(CropOrigin(d).x), Some(CropOrigin(d).y), d.croppedWidth, d.croppedHeight),
          cropBox := false,
          image := if dataUrl != EmptyDataUrl then Some(dataUrl) else old(image))
    {
      if view.None? {
        return true;
      }
      if !CropReadable(cropDimension) {
        return true;
      }
      // setTransform(1, 0, 0, 1, 0, 0), then scale(zoomScale, zoomScale).
      var origin := CropOrigin(cropDimension);
      transform, disabledCropBtn := Scale(Identity, zoomScale, zoomScale), true;
      currentCoordinates := Coordinates(Some(origin.x), Some(origin.y), cropDimension.croppedWidth, cropDimension.croppedHeight);
      if cropBox {
        cropBox := !cropBox;
      }
      if dataUrl != EmptyDataUrl {
        image := Some(dataUrl);
      }
      return false;
    }

    /** cropSelectedArea: the crop button. */
    method CropSelectedArea(dataUrl: string) returns (thrown: bool)
      requires Valid()
      modifies this
      ensures Valid()
      ensures thrown <==> !(old(view).Some? && CropReadable(old(cropDimension)))
      ensures thrown ==> State() == old(State())
      ensures !thrown ==>
        var d := old(cropDimension);
        State() == old(State()).(
          transform := Scale(Identity, old(zoomScale), old(zoomScale)),
          disabledCropBtn := true,
          currentCoordinates := Coordinates(Some(CropOrigin(d).x), Some(CropOrigin(d).y), d.croppedWidth, d.croppedHeight),
          cropBox := false,
          image := if dataUrl != EmptyDataUrl then Some(dataUrl) else old(image))
    {
      thrown := CreateCropPreview(dataUrl);
    }

    /**
      applyCrop: commits the crop only with an image loaded and a non-zero
      width or height in the crop form.
    */
    method ApplyCrop(dataUrl: string) returns (attempted: bool, thrown: bool)
      requires Valid()
      modifies this
      ensures Valid()
      ensures attempted <==> old(image).Some? && old(view).Some? && (old(crop).width != 0.0 || old(crop).height != 0.0)
      ensures !attempted ==> State() == old(State()) && !thrown
      ensures attempted ==> (thrown <==> !CropReadable(old(cropDimension)))
      ensures attempted && thrown ==> State() == old(State())
      ensures attempted && !thrown ==>
        var d := old(cropDimension);
        State() == old(State()).(
          transform := Scale(Identity, old(zoomScale), old(zoomScale)),
          disabledCropBtn := true,
          currentCoordinates := Coordinates(Some(CropOrigin(d).x), Some(CropOrigin(d).y), d.croppedWidth, d.croppedHeight),
          cropBox := false,
          image := if dataUrl != EmptyDataUrl then Some(dataUrl) else old(image))
    {
      attempted, thrown := false, false;
      if image.Some? && view.Some? && (crop.width != 0.0 || crop.height != 0.0) {
        attempted := true;
        thrown := CreateCropPreview(dataUrl);
      }
    }

    /**
      reset: with a canvas and an original image, restores the original image,
      the six zero settings, the flip defaults, an empty crop, the origin at
      (0, 0) with no size, and the identity transform; the zoom level is kept.
    */
    method Reset()
      requires Valid()
      modifies this
      ensures Valid()
      ensures if old(view).Some? && old(oldImage).Some? then
          State() == old(State()).(crop := EmptyCrop, image := old(oldImage), settings := NeutralSettings,
            flipRotate := DefaultFlipRotate, currentCoordinates := InitialCoordinates, transform := Identity)
        else State() == old(State())
    {
      if view.Some? && oldImage.Some? {
        // setTransform(1, 0, 0, 1, 0, 0); the scale(1, 1) after it changes nothing.
        crop, image, settings, flipRotate, currentCoordinates, transform :=
          EmptyCrop, oldImage, NeutralSettings, DefaultFlipRotate, InitialCoordinates, Identity;
      }
    }

    /** handleSettings: the named setting takes Number(value), given as `number`. */
    method HandleSettings(name: SettingName, number: real)
      requires Valid()
      modifies this
      ensures Valid()
      ensures State() == old(State()).(settings := WithSetting(old(settings), name, number))
    {
      settings := WithSetting(settings, name, number);
    }

    /** handleCropChange: a blank entry stores 0, anything else Number(value). */
    method HandleCropChange(field: CropField, value: string, number: real)
      requires Valid()
      modifies this
      ensures Valid()
      ensures State() == old(State()).(crop := CropChange(old(crop), field, value, number))
    {
      crop := CropChange(crop, field, value, number);
    }

    /**
      The pixel part of applyFilters: it needs the canvas, reads the image data
      at the current coordinates (which throws for an undefined or zero size),
      and runs the filter chain on that buffer. `factor` is
      Math.pow(2, exposure / 100).
    */
    method FilterImageData(a: array<Byte>, factor: real) returns (thrown: bool)
      requires a.Length % 4 == 0
      modifies a
      ensures var c := currentCoordinates;
        thrown <==> !(view.Some? && GetImageDataReturns(c.x, c.y, c.width, c.height))
      ensures thrown ==> a[..] == old(a[..])
      ensures !thrown ==> a[..] == FilterChain(settings, factor, old(a[..]))
    {
      var c := currentCoordinates;
      if view.None? || !GetImageDataReturns(c.x, c.y, c.width, c.height) {
        return true;
      }
      ApplyFilters(settings, factor, a, c.width.Some?);
      return false;
    }
  }

  // ---------------------------------------------------------------------------
  // The rectangle a crop commit reads.

  /** The extent [lo, hi] along one axis of a rectangle given by an origin and a signed size. */
  datatype Span = Span(lo: real, hi: real)

  /**
    The extent a rectangle covers along one axis: a negative size extends
    from the origin backwards, both for strokeRect and for getImageData.
  */
  function RectSpan(origin: real, size: real): (r: Span)
    ensures r.lo <= r.hi && r.hi - r.lo == Abs(size)
    ensures r.lo == origin <==> size >= 0.0
    ensures size < 0.0 ==> r.hi == origin
  {
    if size < 0.0 then Span(origin + size, origin) else Span(origin, origin + size)
  }

  /** What createCropPreview reads along one axis: min(start, end) with the signed size. */
  function CommittedSpanAsWritten(start: real, end: real, size: real): (r: Span)
    ensures r.hi - r.lo == Abs(size)
    ensures size >= 0.0 ==> r.lo == Min(start, end)
    ensures size < 0.0 ==> r.hi == Min(start, end)
    ensures size < 0.0 && end < start ==> r.hi == end
  {
    RectSpan(Min(start, end), size)
  }

  /** The evidently intended read: from min(start, end) over the box's extent |size|. */
  function CommittedSpan(start: real, end: real, size: real): (r: Span)
    ensures r.lo == Min(start, end) && r.hi - r.lo == Abs(size)
  {
    RectSpan(Min(start, end), Abs(size))
  }

  /**
    Dragged to the left, the box drawn from 50 back to 20 covers [20, 50], but
    the commit reads [-10, 20].
  */
  lemma CommittedSpanAsWrittenMissesLeftwardBox()
    ensures RectSpan(50.0, -30.0) == Span(20.0, 50.0)
    ensures CommittedSpanAsWritten(50.0, 20.0, -30.0) == Span(-10.0, 20.0)
  {
  }

  /**
    With the end at start + size, the code as written reads the drawn box
    exactly when size >= 0. The end point is on the start's scale only at zoom
    level 1 (see CommittedSpanAsWrittenAtZoom).
  */
  lemma CommittedSpanAsWrittenAgreesOnlyRightward(start: real, size: real)
    ensures CommittedSpanAsWritten(start, start + size, size) == RectSpan(start, size) <==> size >= 0.0
  {
    if size < 0.0 {
      assert CommittedSpanAsWritten(start, start + size, size).lo == start + size + size;
    }
  }

  /**
    Away from zoom level 1 the end point is offsetX / zoomScale while the
    start and the size are unscaled: at level 3 a box drawn rightward over
    [20, 50] is read over [50/3, 50/3 + 30], even by the corrected read.
  */
  lemma CommittedSpanAsWrittenAtZoom()
    ensures RectSpan(20.0, 30.0) == Span(20.0, 50.0)
    ensures CommittedSpanAsWritten(20.0, 50.0 / 3.0, 30.0) == Span(50.0 / 3.0, 50.0 / 3.0 + 30.0)
    ensures CommittedSpan(20.0, 50.0 / 3.0, 30.0) != RectSpan(20.0, 30.0)
  {
  }

  /** The corrected read is the drawn box whichever way it was dragged, at zoom level 1. */
  lemma CommittedSpanIsDrawnBox(start: real, size: real)
    ensures CommittedSpan(start, start + size, size) == RectSpan(start, size)
  {
  }
}
