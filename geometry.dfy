/**
  The plane geometry of the editor: the 2D canvas transform (a matrix
  [a c e; b d f; 0 0 1] that `translate`, `scale` and `transform` multiply on
  the right), the wheel-zoom step both providers share, and the scale-to-fit
  placement of an image on the canvas.
*/
module Geometry {
  import opened JsNumbers

  datatype Point = Point(x: real, y: real)

  /** The matrix of `setTransform(a, b, c, d, e, f)`. */
  datatype Matrix = Matrix(a: real, b: real, c: real, d: real, e: real, f: real)

  const Identity := Matrix(1.0, 0.0, 0.0, 1.0, 0.0, 0.0)

  /** Where the transform sends a point given in user coordinates. */
  function Apply(m: Matrix, p: Point): Point
  {
    Point(m.a * p.x + m.c * p.y + m.e, m.b * p.x + m.d * p.y + m.f)
  }

  /** `transform(n.a, …, n.f)`: the current matrix m multiplied on the right by n. */
  function Transform(m: Matrix, n: Matrix): Matrix
  {
    Matrix(
      m.a * n.a + m.c * n.b, m.b * n.a + m.d * n.b,
      m.a * n.c + m.c * n.d, m.b * n.c + m.d * n.d,
      m.a * n.e + m.c * n.f + m.e, m.b * n.e + m.d * n.f + m.f)
  }

  /** `translate(tx, ty)`: the current matrix multiplied on the right by [1 0 tx; 0 1 ty]. */
  function Translate(m: Matrix, tx: real, ty: real): Matrix
  {
    Matrix(m.a, m.b, m.c, m.d, m.a * tx + m.c * ty + m.e, m.b * tx + m.d * ty + m.f)
  }

  /** `scale(sx, sy)`: the current matrix multiplied on the right by [sx 0 0; 0 sy 0]. */
  function Scale(m: Matrix, sx: real, sy: real): Matrix
  {
    Matrix(m.a * sx, m.b * sx, m.c * sy, m.d * sy, m.e, m.f)
  }

  // ---------------------------------------------------------------------------
  // Wheel zoom.

  /**
    The transform the wheel handler builds after resetting to the identity:
    translate(p), scale(z, z), translate(-p), then the previous transform.
  */
  function ZoomAbout(p: Point, z: real, previous: Matrix): Matrix
  {
    Transform(Translate(Scale(Translate(Identity, p.x, p.y), z, z), -p.x, -p.y), previous)
  }

  /** The closed form of the zoom: every entry scaled by z and the offset shifted by (1 - z)·p. */
  function Zoomed(p: Point, z: real, m: Matrix): Matrix
  {
    Matrix(z * m.a, z * m.b, z * m.c, z * m.d, z * m.e + (p.x - z * p.x), z * m.f + (p.y - z * p.y))
  }

  lemma UniformTransform(z: real, ex: real, fy: real, m: Matrix)
    ensures Transform(Matrix(z, 0.0, 0.0, z, ex, fy), m) == Matrix(z * m.a, z * m.b, z * m.c, z * m.d, z * m.e + ex, z * m.f + fy)
  {
    var r := Transform(Matrix(z, 0.0, 0.0, z, ex, fy), m);
    assert r.a == z * m.a && r.b == z * m.b && r.c == z * m.c && r.d == z * m.d;
    assert r.e == z * m.e + ex && r.f == z * m.f + fy;
  }

  lemma ZoomAboutClosedForm(p: Point, z: real, m: Matrix)
    ensures ZoomAbout(p, z, m)
      == Matrix(z * m.a, z * m.b, z * m.c, z * m.d, z * m.e + (p.x - z * p.x), z * m.f + (p.y - z * p.y))
  {
    var t1 := Translate(Identity, p.x, p.y);
    assert t1 == Matrix(1.0, 0.0, 0.0, 1.0, p.x, p.y);
    var t2 := Scale(t1, z, z);
    assert t2 == Matrix(z, 0.0, 0.0, z, p.x, p.y);
    var t3 := Translate(t2, -p.x, -p.y);
    assert t3 == Matrix(z, 0.0, 0.0, z, p.x - z * p.x, p.y - z * p.y);
    UniformTransform(z, p.x - z * p.x, p.y - z * p.y, m);
  }

  lemma ZoomAboutIsZoomed(p: Point, z: real, m: Matrix)
    ensures ZoomAbout(p, z, m) == Zoomed(p, z, m)
  {
    ZoomAboutClosedForm(p, z, m);
  }

  lemma ZoomedFixesAnchor(p: Point, z: real, m: Matrix, u: Point)
    ensures var q := Apply(m, u);
      Apply(Zoomed(p, z, m), u) == Point(p.x + z * (q.x - p.x), p.y + z * (q.y - p.y))
  {
    var q := Apply(m, u);
    assert z * (q.x - p.x) == z * q.x - z * p.x;
    assert z * (q.y - p.y) == z * q.y - z * p.y;
    assert z * q.x == (z * m.a) * u.x + (z * m.c) * u.y + z * m.e;
    assert z * q.y == (z * m.b) * u.x + (z * m.d) * u.y + z * m.f;
  }

  /**
    The zoom composed in front of the previous transform sends every point's
    previous image q to p + z·(q - p): the pointer position p stays where it is
    and everything else moves away from it (z > 1) or toward it (z < 1).
  */
  lemma ZoomAboutFixesAnchor(p: Point, z: real, previous: Matrix, u: Point)
    ensures var q := Apply(previous, u);
      Apply(ZoomAbout(p, z, previous), u) == Point(p.x + z * (q.x - p.x), p.y + z * (q.y - p.y))
  {
    ZoomAboutIsZoomed(p, z, previous);
    ZoomedFixesAnchor(p, z, previous, u);
  }

  /** Zooming about the same point by reciprocal factors undoes the first zoom. */
  lemma ZoomedReciprocal(p: Point, zIn: real, zOut: real, m: Matrix)
    requires zIn * zOut == 1.0
    ensures Zoomed(p, zOut, Zoomed(p, zIn, m)) == m
  {
    Reciprocal(zIn, zOut, m.a);
    Reciprocal(zIn, zOut, m.b);
    Reciprocal(zIn, zOut, m.c);
    Reciprocal(zIn, zOut, m.d);
    ReciprocalOffset(zIn, zOut, m.e, p.x);
    ReciprocalOffset(zIn, zOut, m.f, p.y);
  }

  /** The offset of a zoom about o by zIn, then by zOut. */
  lemma ReciprocalOffset(zIn: real, zOut: real, v: real, o: real)
    requires zIn * zOut == 1.0
    ensures zOut * (zIn * v + (o - zIn * o)) + (o - zOut * o) == v
  {
    Reciprocal(zIn, zOut, v);
    Reciprocal(zIn, zOut, o);
    assert zOut * (zIn * v + (o - zIn * o)) == zOut * (zIn * v) + zOut * o - zOut * (zIn * o);
  }

  /** The zoom level and the context transform, as the wheel handler leaves them. */
  datatype Zoom = Zoom(scale: real, transform: Matrix)

  /** The step factor: deltaY < 0 (wheel up) zooms in. */
  function WheelFactor(deltaY: real, zoomIn: real, zoomOut: real): (z: real)
    ensures deltaY < 0.0 ==> z == zoomIn
    ensures deltaY >= 0.0 ==> z == zoomOut
  {
    if deltaY < 0.0 then zoomIn else zoomOut
  }

  /** Math.min(zoomScale * zoom, 30): the scaled zoom level, capped at 30. */
  function CappedScale(scale: real, z: real): (s: real)
    ensures s <= 30.0
  {
    Min(scale * z, 30.0)
  }

  /**
    One wheel event with factor z about the pointer p: the new scale is
    min(scale·z, 30); at or below 1 the scale snaps to 1 and the transform to
    the identity, otherwise the zoom about p is composed in front.
  */
  function ZoomStep(zoom: Zoom, z: real, p: Point): (r: Zoom)
    ensures 1.0 <= r.scale <= 30.0
    ensures r.scale == 1.0 ==> r.transform == Identity
    ensures r.scale > 1.0 ==> r.scale == CappedScale(zoom.scale, z)
    ensures CappedScale(zoom.scale, z) <= 1.0 <==> r == Zoom(1.0, Identity)
  {
    var s := CappedScale(zoom.scale, z);
    if s <= 1.0 then Zoom(1.0, Identity) else Zoom(s, ZoomAbout(p, z, zoom.transform))
  }

  /** A zoom step about p that does not snap back keeps p fixed relative to the previous view. */
  lemma ZoomStepFixesAnchor(zoom: Zoom, z: real, p: Point, u: Point)
    requires CappedScale(zoom.scale, z) > 1.0
    ensures var q := Apply(zoom.transform, u);
      Apply(ZoomStep(zoom, z, p).transform, u) == Point(p.x + z * (q.x - p.x), p.y + z * (q.y - p.y))
  {
    ZoomAboutFixesAnchor(p, z, zoom.transform, u);
  }

  /** Zooming out at scale 1 (or any scale whose product with z is at most 1) gives scale 1 and the identity. */
  lemma ZoomOutAtOneStaysAtOne(zoom: Zoom, z: real, p: Point)
    requires zoom.scale == 1.0 && 0.0 < z <= 1.0
    ensures ZoomStep(zoom, z, p) == Zoom(1.0, Identity)
  {
  }

  /**
    One step in and one step out about the same point, with reciprocal factors
    and no clamping on the way, give back the scale and the transform.
  */
  lemma ZoomInThenOutRestores(zoom: Zoom, zIn: real, zOut: real, p: Point)
    requires zIn > 0.0 && zIn * zOut == 1.0
    requires 1.0 < zoom.scale <= 30.0 && 1.0 < zoom.scale * zIn <= 30.0
    ensures ZoomStep(ZoomStep(zoom, zIn, p), zOut, p) == zoom
  {
    var m := zoom.transform;
    UncappedScale(zoom.scale, zIn);
    ZoomStepZooms(zoom, zIn, p);
    var zoomed := ZoomStep(zoom, zIn, p);
    ReciprocalScale(zoom.scale, zIn, zOut);
    UncappedScale(zoomed.scale, zOut);
    ZoomStepZooms(zoomed, zOut, p);
    ZoomedReciprocal(p, zIn, zOut, m);
  }

  lemma UncappedScale(scale: real, z: real)
    requires scale * z <= 30.0
    ensures CappedScale(scale, z) == scale * z
  {
  }

  lemma ReciprocalScale(scale: real, zIn: real, zOut: real)
    requires zIn * zOut == 1.0
    ensures scale * zIn * zOut == scale
  {
    assert scale * zIn * zOut == scale * (zIn * zOut);
  }

  /** A step that does not snap back composes the zoom about p in front. */
  lemma ZoomStepZooms(zoom: Zoom, z: real, p: Point)
    requires CappedScale(zoom.scale, z) > 1.0
    ensures ZoomStep(zoom, z, p) == Zoom(CappedScale(zoom.scale, z), Zoomed(p, z, zoom.transform))
  {
    ZoomAboutIsZoomed(p, z, zoom.transform);
  }

  lemma Reciprocal(zIn: real, zOut: real, x: real)
    requires zIn * zOut == 1.0
    ensures zOut * (zIn * x) == x
  {
    assert zOut * (zIn * x) == (zIn * zOut) * x;
  }

  // ---------------------------------------------------------------------------
  // Scale-to-fit placement.

  /** The largest scale at which the whole image fits the canvas. */
  function FitScale(cw: real, ch: real, iw: real, ih: real): (s: real)
    requires iw > 0.0 && ih > 0.0
    ensures s <= cw / iw && s <= ch / ih
    ensures s == cw / iw || s == ch / ih
  {
    Min(cw / iw, ch / ih)
  }

  /** Where and how large drawImageOnCanvas draws the image, and what it records as the coordinates. */
  datatype Placement = Placement(x: real, y: real, width: int, height: int)

  /**
    The placement of an iw×ih image on a cw×ch canvas: centred, or centred on
    the pointer (`pointer` = (pageX - offsetLeft, pageY - offsetTop)) while the
    image is being dragged; the sizes are truncated as parseInt does.
  */
  function Place(cw: nat, ch: nat, iw: nat, ih: nat, pointer: Option<Point>): (r: Placement)
    requires iw > 0 && ih > 0
  {
    var s := FitScale(cw as real, ch as real, iw as real, ih as real);
    Arrange(cw, ch, iw as real * s, ih as real * s, pointer)
  }

  /** A sw×sh drawing centred on the canvas, or on the pointer when there is one. */
  function Arrange(cw: nat, ch: nat, sw: real, sh: real, pointer: Option<Point>): (r: Placement)
    ensures r.width == Trunc(sw) && r.height == Trunc(sh)
    ensures pointer.Some? ==> r.x + sw / 2.0 == pointer.value.x && r.y + sh / 2.0 == pointer.value.y
    ensures pointer.None? ==> r.x + sw / 2.0 == cw as real / 2.0 && r.y + sh / 2.0 == ch as real / 2.0
  {
    var x := if pointer.Some? then pointer.value.x - sw / 2.0 else (cw as real - sw) / 2.0;
    var y := if pointer.Some? then pointer.value.y - sh / 2.0 else (ch as real - sh) / 2.0;
    Placement(x, y, Trunc(sw), Trunc(sh))
  }

  /**
    At the fit scale the image's drawn extent lies within the canvas and fills
    it along at least one axis.
  */
  lemma PlacementFits(cw: nat, ch: nat, iw: nat, ih: nat)
    requires iw > 0 && ih > 0
    ensures var s := FitScale(cw as real, ch as real, iw as real, ih as real);
      && 0.0 <= iw as real * s <= cw as real && 0.0 <= ih as real * s <= ch as real
      && (iw as real * s == cw as real || ih as real * s == ch as real)
  {
    var s := FitScale(cw as real, ch as real, iw as real, ih as real);
    ScaledFits(iw as real, s, cw as real);
    ScaledFits(ih as real, s, ch as real);
    FitFills(cw as real, ch as real, iw as real, ih as real);
  }

  /** At the fit scale the image fills the canvas along the axis that limits it. */
  lemma FitFills(cw: real, ch: real, w: real, h: real)
    requires w > 0.0 && h > 0.0
    ensures var s := FitScale(cw, ch, w, h);
      w * s == cw || h * s == ch
  {
    if FitScale(cw, ch, w, h) == cw / w {
      ScaledFills(w, cw);
    } else {
      ScaledFills(h, ch);
    }
  }

  /**
    A sw×sh extent that fits the canvas and fills one axis, centred: the
    truncated sizes fit and one equals the canvas size, the origin is not
    negative, and the centre is the canvas centre. With PlacementFits this is
    what Place does when the image is not being dragged.
  */
  lemma CentredFits(cw: nat, ch: nat, sw: real, sh: real)
    requires 0.0 <= sw <= cw as real && 0.0 <= sh <= ch as real
    requires sw == cw as real || sh == ch as real
    ensures var r := Arrange(cw, ch, sw, sh, None);
      && 0 <= r.width <= cw && 0 <= r.height <= ch
      && (r.width == cw || r.height == ch)
      && r.x >= 0.0 && r.y >= 0.0
      && r.x + sw / 2.0 == cw as real / 2.0
      && r.y + sh / 2.0 == ch as real / 2.0
  {
    TruncBelow(sw, cw);
    TruncBelow(sh, ch);
    if sw == cw as real {
      assert Trunc(cw as real) == cw;
    } else {
      assert Trunc(ch as real) == ch;
    }
  }

  /** An extent scaled by at most c / w stays within [0, c]. */
  lemma ScaledFits(w: real, s: real, c: real)
    requires w > 0.0 && c >= 0.0 && 0.0 <= s <= c / w
    ensures 0.0 <= w * s <= c
  {
    assert w * (c / w) == c;
    assert w * s <= w * (c / w);
  }

  lemma ScaledFills(w: real, c: real)
    requires w > 0.0
    ensures w * (c / w) == c
  {
  }

  lemma TruncBelow(x: real, c: nat)
    requires 0.0 <= x <= c as real
    ensures 0 <= Trunc(x) <= c
  {
  }
}
