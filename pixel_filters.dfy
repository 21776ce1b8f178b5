/**
  The per-pixel adjustment stages of the editor and the chain that runs them.
  An ImageData buffer is a row-major run of RGBA pixels held in a
  Uint8ClampedArray: here an `array<Byte>` whose length is a multiple of 4.
  Each stage walks it in steps of 4, rewrites red, green and blue, and leaves
  alpha alone; every write goes through ToUint8Clamp.
*/
module PixelFilters {
  import opened JsNumbers

  datatype Rgb = Rgb(r: Byte, g: Byte, b: Byte)

  /** One adjustment with its slider value (exposure carries Math.pow(2, value / 100)). */
  datatype Stage =
    | Grayscale(value: real)
    | Brightness(value: real)
    | Saturation(value: real)
    | Inversion(value: real)
    | Exposure(factor: real)
    | Contrast(value: real)

  /** The filter settings of the editor; 0 is the neutral value of each. */
  datatype Settings = Settings(
    grayscale: real, brightness: real, saturation: real,
    inversion: real, exposure: real, contrast: real)

  const NeutralSettings := Settings(0.0, 0.0, 0.0, 0.0, 0.0, 0.0)

  datatype SettingName = GrayscaleName | BrightnessName | SaturationName | InversionName | ExposureName | ContrastName

  function Setting(s: Settings, name: SettingName): real
  {
    match name
    case GrayscaleName => s.grayscale
    case BrightnessName => s.brightness
    case SaturationName => s.saturation
    case InversionName => s.inversion
    case ExposureName => s.exposure
    case ContrastName => s.contrast
  }

  /** `setSettings((prev) => ({ ...prev, [name]: Number(value) }))`. */
  function WithSetting(s: Settings, name: SettingName, value: real): (r: Settings)
    ensures Setting(r, name) == value
    ensures forall other :: other != name ==> Setting(r, other) == Setting(s, other)
  {
    match name
    case GrayscaleName => s.(grayscale := value)
    case BrightnessName => s.(brightness := value)
    case SaturationName => s.(saturation := value)
    case InversionName => s.(inversion := value)
    case ExposureName => s.(exposure := value)
    case ContrastName => s.(contrast := value)
  }

  // ---------------------------------------------------------------------------
  // Channel arithmetic, one function per stage, shared by the loops and the
  // specification below.

  function ChannelSum(r: Byte, g: Byte, b: Byte): real
  {
    (r as int + g + b) as real
  }

  function GrayscaleDivisor(value: real): real
  {
    (1.0 + value / 100.0) * 3.0
  }

  /**
    The byte stored for `n / d`. JavaScript divides by zero into +Infinity
    (stored as 255) or, for 0 / 0, NaN (stored as 0).
  */
  function StoreQuotient(n: real, d: real): (r: Byte)
    ensures d != 0.0 ==> r == ToUint8Clamp(n / d)
    ensures d == 0.0 ==> r == (if n > 0.0 then 255 else 0)
  {
    if d == 0.0 then (if n > 0.0 then 255 else 0) else ToUint8Clamp(n / d)
  }

  function BrightnessOffset(value: real): int
  {
    JsRound(value / 100.0 * 255.0)
  }

  function Brighten(offset: int, c: Byte): Byte
  {
    ToUint8Clamp((c + offset) as real)
  }

  /** CCIR 601 luma weights. */
  function Luma(r: Byte, g: Byte, b: Byte): real
  {
    0.2989 * r as real + 0.587 * g as real + 0.114 * b as real
  }

  function SaturationAmount(value: real): real
  {
    value / 100.0
  }

  function Saturate(gray: real, amount: real, c: Byte): Byte
  {
    ToUint8Clamp(-gray * amount + c as real * (1.0 + amount))
  }

  /**
    The six "normalize" tests after a saturation store, as written: each one
    tests a channel and then writes the red byte. Applied to stored bytes none
    of the tests can fire.
  */
  function SaturationNormalize(r: int, g: int, b: int): (red: int)
    ensures 0 <= r <= 255 && 0 <= g <= 255 && 0 <= b <= 255 ==> red == r
  {
    var r1 := if r > 255 then 255 else r;
    var r2 := if g > 255 then 255 else r1;
    var r3 := if b > 255 then 255 else r2;
    var r4 := if r3 < 0 then 0 else r3;
    var r5 := if g < 0 then 0 else r4;
    if b < 0 then 0 else r5
  }

  function InversionFactor(value: real): real
  {
    1.0 + value / 100.0
  }

  function Invert(k: real, c: Byte): Byte
  {
    ToUint8Clamp(255.0 - c as real * k)
  }

  function Expose(factor: real, c: Byte): Byte
  {
    ToUint8Clamp(Min(255.0, Scaled(c, factor)))
  }

  function Scaled(c: Byte, factor: real): real
  {
    c as real * factor
  }

  function ContrastFactor(value: real): real
  {
    (value + 255.0) / 255.0
  }

  function Contrast1(k: real, c: Byte): Byte
  {
    ToUint8Clamp(JsRound((c as real - 128.0) * k + 128.0) as real)
  }

  /** What one stage makes of one pixel's colour. */
  function StagePixel(st: Stage, p: Rgb): Rgb
  {
    match st
    case Grayscale(v) =>
      var gray := StoreQuotient(ChannelSum(p.r, p.g, p.b), GrayscaleDivisor(v));
      Rgb(gray, gray, gray)
    case Brightness(v) =>
      var d := BrightnessOffset(v);
      Rgb(Brighten(d, p.r), Brighten(d, p.g), Brighten(d, p.b))
    case Saturation(v) =>
      var amount := SaturationAmount(v);
      var gray := Luma(p.r, p.g, p.b);
      Rgb(Saturate(gray, amount, p.r), Saturate(gray, amount, p.g), Saturate(gray, amount, p.b))
    case Inversion(v) =>
      var k := InversionFactor(v);
      Rgb(Invert(k, p.r), Invert(k, p.g), Invert(k, p.b))
    case Exposure(f) =>
      Rgb(Expose(f, p.r), Expose(f, p.g), Expose(f, p.b))
    case Contrast(v) =>
      var k := ContrastFactor(v);
      Rgb(Contrast1(k, p.r), Contrast1(k, p.g), Contrast1(k, p.b))
  }

  // ---------------------------------------------------------------------------
  // Buffers.

  predicate IsBuffer(s: seq<Byte>)
  {
    |s| % 4 == 0
  }

  function PixelCount(s: seq<Byte>): nat
  {
    |s| / 4
  }

  /** The colour of pixel n. */
  function PixelAt(s: seq<Byte>, n: nat): Rgb
    requires 4 * n + 3 < |s|
  {
    Rgb(s[4 * n], s[4 * n + 1], s[4 * n + 2])
  }

  /** The alpha byte of pixel n. */
  function AlphaAt(s: seq<Byte>, n: nat): Byte
    requires 4 * n + 3 < |s|
  {
    s[4 * n + 3]
  }

  function ChannelAt(st: Stage, s: seq<Byte>, k: nat): Byte
    requires IsBuffer(s) && k < |s|
  {
    var n := k / 4;
    if k % 4 == 3 then s[k]
    else
      var p := StagePixel(st, PixelAt(s, n));
      if k % 4 == 0 then p.r else if k % 4 == 1 then p.g else p.b
  }

  lemma ChannelsOfPixel(st: Stage, s: seq<Byte>, n: nat)
    requires IsBuffer(s) && n < PixelCount(s)
    ensures ChannelAt(st, s, 4 * n) == StagePixel(st, PixelAt(s, n)).r
    ensures ChannelAt(st, s, 4 * n + 1) == StagePixel(st, PixelAt(s, n)).g
    ensures ChannelAt(st, s, 4 * n + 2) == StagePixel(st, PixelAt(s, n)).b
    ensures ChannelAt(st, s, 4 * n + 3) == s[4 * n + 3]
  {
    assert (4 * n) / 4 == n && (4 * n) % 4 == 0;
    assert (4 * n + 1) / 4 == n && (4 * n + 1) % 4 == 1;
    assert (4 * n + 2) / 4 == n && (4 * n + 2) % 4 == 2;
    assert (4 * n + 3) / 4 == n && (4 * n + 3) % 4 == 3;
  }

  /** A stage applied to every pixel of a buffer. */
  function ApplyStage(st: Stage, s: seq<Byte>): (r: seq<Byte>)
    requires IsBuffer(s)
    ensures |r| == |s| && IsBuffer(r)
    ensures forall n :: 0 <= n < PixelCount(s) ==> AlphaAt(r, n) == AlphaAt(s, n)
    ensures forall n :: 0 <= n < PixelCount(s) ==> PixelAt(r, n) == StagePixel(st, PixelAt(s, n))
  {
    var r := seq(|s|, k requires 0 <= k < |s| => ChannelAt(st, s, k));
    assert forall n :: 0 <= n < PixelCount(s) ==> PixelAt(r, n) == StagePixel(st, PixelAt(s, n)) && AlphaAt(r, n) == AlphaAt(s, n) by {
      forall n | 0 <= n < PixelCount(s) ensures PixelAt(r, n) == StagePixel(st, PixelAt(s, n)) && AlphaAt(r, n) == AlphaAt(s, n) {
        ChannelsOfPixel(st, s, n);
      }
    }
    r
  }

  /** Two buffers of the same length agree when every pixel's colour and alpha agree. */
  lemma BufferExtensionality(s: seq<Byte>, t: seq<Byte>)
    requires IsBuffer(s) && |t| == |s|
    requires forall n :: 0 <= n < PixelCount(s) ==> PixelAt(t, n) == PixelAt(s, n) && AlphaAt(t, n) == AlphaAt(s, n)
    ensures t == s
  {
    forall k | 0 <= k < |s| ensures t[k] == s[k] {
      var n := k / 4;
      assert PixelAt(t, n) == PixelAt(s, n) && AlphaAt(t, n) == AlphaAt(s, n);
    }
  }

  /** In a half-processed buffer, pixel n still holds its original bytes. */
  lemma SpliceReads(out: seq<Byte>, s: seq<Byte>, n: nat)
    requires IsBuffer(s) && |out| == |s| && n < PixelCount(s)
    ensures PixelAt(out[..4 * n] + s[4 * n..], n) == PixelAt(s, n)
    ensures AlphaAt(out[..4 * n] + s[4 * n..], n) == AlphaAt(s, n)
  {
  }

  /** Writing the stage's colour into pixel n moves the boundary one pixel on. */
  lemma SpliceStep(st: Stage, s: seq<Byte>, n: nat, r: Byte, g: Byte, b: Byte)
    requires IsBuffer(s) && n < PixelCount(s)
    requires Rgb(r, g, b) == StagePixel(st, PixelAt(s, n))
    ensures var out := ApplyStage(st, s);
      (out[..4 * n] + s[4 * n..])[4 * n := r][4 * n + 1 := g][4 * n + 2 := b] == out[..4 * n + 4] + s[4 * n + 4..]
  {
    var out := ApplyStage(st, s);
    assert PixelAt(out, n) == StagePixel(st, PixelAt(s, n)) && AlphaAt(out, n) == AlphaAt(s, n);
    var t := (out[..4 * n] + s[4 * n..])[4 * n := r][4 * n + 1 := g][4 * n + 2 := b];
    var u := out[..4 * n + 4] + s[4 * n + 4..];
    forall k | 0 <= k < |s| ensures t[k] == u[k] {
      if 4 * n <= k < 4 * n + 4 {
        assert k == 4 * n || k == 4 * n + 1 || k == 4 * n + 2 || k == 4 * n + 3;
      }
    }
  }

  // ---------------------------------------------------------------------------
  // The six in-place loops. Each takes `hasWidth`, the test
  // `currentCoordinates.width != null` that guards it, and is a no-op when it
  // fails.

  method AdjustGrayscale(value: real, a: array<Byte>, hasWidth: bool)
    requires a.Length % 4 == 0
    modifies a
    ensures a[..] == if hasWidth then ApplyStage(Grayscale(value), old(a[..])) else old(a[..])
  {
    if hasWidth {
      ghost var s := a[..];
      ghost var out := ApplyStage(Grayscale(value), s);
      var gs := GrayscaleDivisor(value);
      var i := 0;
      ghost var n: nat := 0;
      while i < a.Length
        invariant 0 <= i <= a.Length && i == 4 * n
        invariant a[..] == out[..i] + s[i..]
      {
        ghost var before := a[..];
        SpliceReads(out, s, n);
        assert PixelAt(s, n) == Rgb(a[i], a[i + 1], a[i + 2]);
        var red, green, blue := a[i], a[i + 1], a[i + 2];
        var gray := StoreQuotient(ChannelSum(red, green, blue), gs);
        var r, g, b := gray, gray, gray;
        assert Rgb(r, g, b) == StagePixel(Grayscale(value), Rgb(red, green, blue));
        a[i], a[i + 1], a[i + 2] := r, g, b;
        assert a[..] == before[i := r][i + 1 := g][i + 2 := b];
        SpliceStep(Grayscale(value), s, n, r, g, b);
        i, n := i + 4, n + 1;
      }
    }
  }

  method AdjustBrightness(value: real, a: array<Byte>, hasWidth: bool)
    requires a.Length % 4 == 0
    modifies a
    ensures a[..] == if hasWidth then ApplyStage(Brightness(value), old(a[..])) else old(a[..])
  {
    if hasWidth {
      ghost var s := a[..];
      ghost var out := ApplyStage(Brightness(value), s);
      var brightness := BrightnessOffset(value);
      var i := 0;
      ghost var n: nat := 0;
      while i < a.Length
        invariant 0 <= i <= a.Length && i == 4 * n
        invariant a[..] == out[..i] + s[i..]
      {
        ghost var before := a[..];
        SpliceReads(out, s, n);
        assert PixelAt(s, n) == Rgb(a[i], a[i + 1], a[i + 2]);
        var r, g, b := Brighten(brightness, a[i]), Brighten(brightness, a[i + 1]), Brighten(brightness, a[i + 2]);
        assert Rgb(r, g, b) == StagePixel(Brightness(value), Rgb(a[i], a[i + 1], a[i + 2]));
        a[i], a[i + 1], a[i + 2] := r, g, b;
        assert a[..] == before[i := r][i + 1 := g][i + 2 := b];
        SpliceStep(Brightness(value), s, n, r, g, b);
        i, n := i + 4, n + 1;
      }
    }
  }

  method AdjustSaturation(value: real, a: array<Byte>, hasWidth: bool)
    requires a.Length % 4 == 0
    modifies a
    ensures a[..] == if hasWidth then ApplyStage(Saturation(value), old(a[..])) else old(a[..])
  {
    if hasWidth {
      ghost var s := a[..];
      ghost var out := ApplyStage(Saturation(value), s);
      var amount := SaturationAmount(value);
      var i := 0;
      ghost var n: nat := 0;
      while i < a.Length
        invariant 0 <= i <= a.Length && i == 4 * n
        invariant a[..] == out[..i] + s[i..]
      {
        ghost var before := a[..];
        SpliceReads(out, s, n);
        assert PixelAt(s, n) == Rgb(a[i], a[i + 1], a[i + 2]);
        var red, green, blue := a[i], a[i + 1], a[i + 2];
        var gray := Luma(red, green, blue);
        var r, g, b := Saturate(gray, amount, red), Saturate(gray, amount, green), Saturate(gray, amount, blue);
        // The normalizing tests read the bytes just stored.
        r := SaturationNormalize(r, g, b);
        a[i], a[i + 1], a[i + 2] := r, g, b;
        assert a[..] == before[i := r][i + 1 := g][i + 2 := b];
        SpliceStep(Saturation(value), s, n, r, g, b);
        i, n := i + 4, n + 1;
      }
    }
  }

  method AdjustInversion(value: real, a: array<Byte>, hasWidth: bool)
    requires a.Length % 4 == 0
    modifies a
    ensures a[..] == if hasWidth then ApplyStage(Inversion(value), old(a[..])) else old(a[..])
  {
    if hasWidth {
      ghost var s := a[..];
      ghost var out := ApplyStage(Inversion(value), s);
      var inversion := InversionFactor(value);
      var i := 0;
      ghost var n: nat := 0;
      while i < a.Length
        invariant 0 <= i <= a.Length && i == 4 * n
        invariant a[..] == out[..i] + s[i..]
      {
        ghost var before := a[..];
        SpliceReads(out, s, n);
        assert PixelAt(s, n) == Rgb(a[i], a[i + 1], a[i + 2]);
        var r, g, b := Invert(inversion, a[i]), Invert(inversion, a[i + 1]), Invert(inversion, a[i + 2]);
        assert Rgb(r, g, b) == StagePixel(Inversion(value), Rgb(a[i], a[i + 1], a[i + 2]));
        a[i], a[i + 1], a[i + 2] := r, g, b;
        assert a[..] == before[i := r][i + 1 := g][i + 2 := b];
        SpliceStep(Inversion(value), s, n, r, g, b);
        i, n := i + 4, n + 1;
      }
    }
  }

  /** `factor` is Math.pow(2, value / 100), supplied by the caller. */
  method AdjustExposure(factor: real, a: array<Byte>, hasWidth: bool)
    requires a.Length % 4 == 0
    modifies a
    ensures a[..] == if hasWidth then ApplyStage(Exposure(factor), old(a[..])) else old(a[..])
  {
    if hasWidth {
      ghost var s := a[..];
      ghost var out := ApplyStage(Exposure(factor), s);
      var i := 0;
      ghost var n: nat := 0;
      while i < a.Length
        invariant 0 <= i <= a.Length && i == 4 * n
        invariant a[..] == out[..i] + s[i..]
      {
        ghost var before := a[..];
        SpliceReads(out, s, n);
        assert PixelAt(s, n) == Rgb(a[i], a[i + 1], a[i + 2]);
        var r, g, b := Expose(factor, a[i]), Expose(factor, a[i + 1]), Expose(factor, a[i + 2]);
        assert Rgb(r, g, b) == StagePixel(Exposure(factor), Rgb(a[i], a[i + 1], a[i + 2]));
        a[i], a[i + 1], a[i + 2] := r, g, b;
        assert a[..] == before[i := r][i + 1 := g][i + 2 := b];
        SpliceStep(Exposure(factor), s, n, r, g, b);
        i, n := i + 4, n + 1;
      }
    }
  }

  method AdjustContrast(value: real, a: array<Byte>, hasWidth: bool)
    requires a.Length % 4 == 0
    modifies a
    ensures a[..] == if hasWidth then ApplyStage(Contrast(value), old(a[..])) else old(a[..])
  {
    if hasWidth {
      ghost var s := a[..];
      ghost var out := ApplyStage(Contrast(value), s);
      var contrast := ContrastFactor(value);
      var i := 0;
      ghost var n: nat := 0;
      while i < a.Length
        invariant 0 <= i <= a.Length && i == 4 * n
        invariant a[..] == out[..i] + s[i..]
      {
        ghost var before := a[..];
        SpliceReads(out, s, n);
        assert PixelAt(s, n) == Rgb(a[i], a[i + 1], a[i + 2]);
        var r, g, b := Contrast1(contrast, a[i]), Contrast1(contrast, a[i + 1]), Contrast1(contrast, a[i + 2]);
        assert Rgb(r, g, b) == StagePixel(Contrast(value), Rgb(a[i], a[i + 1], a[i + 2]));
        a[i], a[i + 1], a[i + 2] := r, g, b;
        assert a[..] == before[i := r][i + 1 := g][i + 2 := b];
        SpliceStep(Contrast(value), s, n, r, g, b);
        i, n := i + 4, n + 1;
      }
    }
  }
  // ---------------------------------------------------------------------------
  // The chain run by applyFilters.

  /**
    The chain as written: each stage whose setting is non-zero (truthy) runs on
    the previous stage's output, in the fixed order grayscale, brightness,
    saturation, inversion, exposure, contrast. `factor` is the exposure factor
    Math.pow(2, exposure / 100).
  */
  function FilterChain(st: Settings, factor: real, s: seq<Byte>): (r: seq<Byte>)
    requires IsBuffer(s)
    ensures |r| == |s| && IsBuffer(r)
    ensures st == NeutralSettings ==> r == s
  {
    var s1 := if st.grayscale != 0.0 then ApplyStage(Grayscale(st.grayscale), s) else s;
    var s2 := if st.brightness != 0.0 then ApplyStage(Brightness(st.brightness), s1) else s1;
    var s3 := if st.saturation != 0.0 then ApplyStage(Saturation(st.saturation), s2) else s2;
    var s4 := if st.inversion != 0.0 then ApplyStage(Inversion(st.inversion), s3) else s3;
    var s5 := if st.exposure != 0.0 then ApplyStage(Exposure(factor), s4) else s4;
    if st.contrast != 0.0 then ApplyStage(Contrast(st.contrast), s5) else s5
  }

  function OptionalStage(enabled: bool, stage: Stage): seq<Stage>
  {
    if enabled then [stage] else []
  }

  /** The stages applyFilters runs for the given settings, in order. */
  function EnabledStages(st: Settings, factor: real): (r: seq<Stage>)
    ensures |r| <= 6
  {
    OptionalStage(st.grayscale != 0.0, Grayscale(st.grayscale))
    + OptionalStage(st.brightness != 0.0, Brightness(st.brightness))
    + OptionalStage(st.saturation != 0.0, Saturation(st.saturation))
    + OptionalStage(st.inversion != 0.0, Inversion(st.inversion))
    + OptionalStage(st.exposure != 0.0, Exposure(factor))
    + OptionalStage(st.contrast != 0.0, Contrast(st.contrast))
  }

  /** Reference semantics of a pipeline: each stage consumes the output of the one before. */
  function RunStages(stages: seq<Stage>, s: seq<Byte>): (r: seq<Byte>)
    requires IsBuffer(s)
    ensures |r| == |s| && IsBuffer(r)
  {
    if stages == [] then s else RunStages(stages[1..], ApplyStage(stages[0], s))
  }

  /** Running two pipelines one after the other is running their concatenation. */
  lemma {:induction false} RunStagesAppend(xs: seq<Stage>, ys: seq<Stage>, s: seq<Byte>)
    requires IsBuffer(s)
    ensures RunStages(xs + ys, s) == RunStages(ys, RunStages(xs, s))
  {
    if xs != [] {
      assert (xs + ys)[1..] == xs[1..] + ys;
      RunStagesAppend(xs[1..], ys, ApplyStage(xs[0], s));
    } else {
      assert xs + ys == ys;
    }
  }

  lemma RunOptionalStage(enabled: bool, stage: Stage, s: seq<Byte>)
    requires IsBuffer(s)
    ensures RunStages(OptionalStage(enabled, stage), s) == if enabled then ApplyStage(stage, s) else s
  {
    if enabled {
      assert OptionalStage(enabled, stage)[1..] == [];
    }
  }

  /**
    The chain is the pipeline of enabled stages: the order is fixed and a stage
    whose setting is 0 contributes nothing.
  */
  lemma FilterChainRunsEnabledStages(st: Settings, factor: real, s: seq<Byte>)
    requires IsBuffer(s)
    ensures FilterChain(st, factor, s) == RunStages(EnabledStages(st, factor), s)
  {
    var g := OptionalStage(st.grayscale != 0.0, Grayscale(st.grayscale));
    var b := OptionalStage(st.brightness != 0.0, Brightness(st.brightness));
    var sa := OptionalStage(st.saturation != 0.0, Saturation(st.saturation));
    var i := OptionalStage(st.inversion != 0.0, Inversion(st.inversion));
    var e := OptionalStage(st.exposure != 0.0, Exposure(factor));
    var c := OptionalStage(st.contrast != 0.0, Contrast(st.contrast));
    var s1 := RunStages(g, s);
    var s2 := RunStages(b, s1);
    var s3 := RunStages(sa, s2);
    var s4 := RunStages(i, s3);
    var s5 := RunStages(e, s4);
    RunOptionalStage(st.grayscale != 0.0, Grayscale(st.grayscale), s);
    RunOptionalStage(st.brightness != 0.0, Brightness(st.brightness), s1);
    RunOptionalStage(st.saturation != 0.0, Saturation(st.saturation), s2);
    RunOptionalStage(st.inversion != 0.0, Inversion(st.inversion), s3);
    RunOptionalStage(st.exposure != 0.0, Exposure(factor), s4);
    RunOptionalStage(st.contrast != 0.0, Contrast(st.contrast), s5);
    RunStagesAppend(g, b, s);
    RunStagesAppend(g + b, sa, s);
    RunStagesAppend(g + b + sa, i, s);
    RunStagesAppend(g + b + sa + i, e, s);
    RunStagesAppend(g + b + sa + i + e, c, s);
  }

  /** No stage, and so no pipeline, changes an alpha byte. */
  lemma {:induction false} RunStagesKeepsAlpha(stages: seq<Stage>, s: seq<Byte>)
    requires IsBuffer(s)
    ensures forall n :: 0 <= n < PixelCount(s) ==> AlphaAt(RunStages(stages, s), n) == AlphaAt(s, n)
  {
    if stages != [] {
      var t := ApplyStage(stages[0], s);
      RunStagesKeepsAlpha(stages[1..], t);
    }
  }

  /** All settings zero (the initial settings and those after reset) leave the buffer as it was. */
  lemma {:induction false} NoStagesIsIdentity(st: Settings, factor: real, s: seq<Byte>)
    requires IsBuffer(s)
    requires st.grayscale == 0.0 && st.brightness == 0.0 && st.saturation == 0.0
    requires st.inversion == 0.0 && st.exposure == 0.0 && st.contrast == 0.0
    ensures EnabledStages(st, factor) == []
    ensures FilterChain(st, factor, s) == s
  {
    FilterChainRunsEnabledStages(st, factor, s);
  }

  /**
    applyFilters after its image data has been read: each stage runs in turn on
    the same buffer, guarded by its setting. `hasWidth` is the guard every stage
    tests.
  */
  method ApplyFilters(st: Settings, factor: real, a: array<Byte>, hasWidth: bool)
    requires a.Length % 4 == 0
    modifies a
    ensures a[..] == if hasWidth then FilterChain(st, factor, old(a[..])) else old(a[..])
  {
    if st.grayscale != 0.0 { AdjustGrayscale(st.grayscale, a, hasWidth); }
    if st.brightness != 0.0 { AdjustBrightness(st.brightness, a, hasWidth); }
    if st.saturation != 0.0 { AdjustSaturation(st.saturation, a, hasWidth); }
    if st.inversion != 0.0 { AdjustInversion(st.inversion, a, hasWidth); }
    if st.exposure != 0.0 { AdjustExposure(factor, a, hasWidth); }
    if st.contrast != 0.0 { AdjustContrast(st.contrast, a, hasWidth); }
  }
  // ---------------------------------------------------------------------------
  // What each stage does to a buffer.

  /** Brightness adds the same integer offset to red, green and blue, clamped to a byte. */
  lemma BrightnessAddsOffset(value: real, s: seq<Byte>)
    requires IsBuffer(s)
    ensures var r := ApplyStage(Brightness(value), s);
      var d := BrightnessOffset(value);
      forall n :: 0 <= n < PixelCount(s) ==>
        PixelAt(r, n) == Rgb(ClampInt(s[4 * n] + d), ClampInt(s[4 * n + 1] + d), ClampInt(s[4 * n + 2] + d))
  {
    var d := BrightnessOffset(value);
    forall n | 0 <= n < PixelCount(s)
      ensures StagePixel(Brightness(value), PixelAt(s, n))
        == Rgb(ClampInt(s[4 * n] + d), ClampInt(s[4 * n + 1] + d), ClampInt(s[4 * n + 2] + d))
    {
      ToUint8ClampOfInt(s[4 * n] + d);
      ToUint8ClampOfInt(s[4 * n + 1] + d);
      ToUint8ClampOfInt(s[4 * n + 2] + d);
    }
  }

  /** A buffer is unchanged by a stage that maps every colour to itself. */
  lemma StageFixingEveryPixel(st: Stage, s: seq<Byte>)
    requires IsBuffer(s)
    requires forall n :: 0 <= n < PixelCount(s) ==> StagePixel(st, PixelAt(s, n)) == PixelAt(s, n)
    ensures ApplyStage(st, s) == s
  {
    BufferExtensionality(s, ApplyStage(st, s));
  }

  lemma BrightnessZeroIsIdentity(s: seq<Byte>)
    requires IsBuffer(s)
    ensures ApplyStage(Brightness(0.0), s) == s
  {
    forall n | 0 <= n < PixelCount(s) ensures StagePixel(Brightness(0.0), PixelAt(s, n)) == PixelAt(s, n) {
      ToUint8ClampOfInt(s[4 * n]);
      ToUint8ClampOfInt(s[4 * n + 1]);
      ToUint8ClampOfInt(s[4 * n + 2]);
    }
    StageFixingEveryPixel(Brightness(0.0), s);
  }

  /** After grayscale the three colour channels of every pixel are equal. */
  lemma GrayscaleEqualizesChannels(value: real, s: seq<Byte>)
    requires IsBuffer(s)
    ensures var r := ApplyStage(Grayscale(value), s);
      forall n :: 0 <= n < PixelCount(s) ==>
        PixelAt(r, n).r == PixelAt(r, n).g == PixelAt(r, n).b
        == StoreQuotient(ChannelSum(s[4 * n], s[4 * n + 1], s[4 * n + 2]), GrayscaleDivisor(value))
  {
    var r := ApplyStage(Grayscale(value), s);
    forall n | 0 <= n < PixelCount(s)
      ensures PixelAt(r, n).r == PixelAt(r, n).g == PixelAt(r, n).b
        == StoreQuotient(ChannelSum(s[4 * n], s[4 * n + 1], s[4 * n + 2]), GrayscaleDivisor(value))
    {
      assert PixelAt(r, n) == StagePixel(Grayscale(value), PixelAt(s, n));
    }
  }

  /**
    Grayscale at 0 divides the channel sum by 3, which changes a coloured pixel:
    the skip in the chain, not the stage, makes a zero setting harmless.
  */
  lemma GrayscaleZeroIsNotIdentity()
    ensures ApplyStage(Grayscale(0.0), [0, 0, 255, 255]) != [0, 0, 255, 255]
  {
    var s: seq<Byte> := [0, 0, 255, 255];
    assert PixelAt(s, 0) == Rgb(0, 0, 255);
    assert StoreQuotient(255.0, 3.0) == 85;
    assert PixelAt(ApplyStage(Grayscale(0.0), s), 0).r == 85;
  }

  lemma InvertUnit(c: Byte)
    ensures Invert(1.0, c) == 255 - c
  {
    ToUint8ClampOfInt(255 - c);
  }

  /** Inversion at 0 maps c to 255 - c, so applying it twice restores the buffer. */
  lemma InversionZeroIsInvolution(s: seq<Byte>)
    requires IsBuffer(s)
    ensures ApplyStage(Inversion(0.0), ApplyStage(Inversion(0.0), s)) == s
  {
    var t := ApplyStage(Inversion(0.0), s);
    var u := ApplyStage(Inversion(0.0), t);
    forall n | 0 <= n < PixelCount(s) ensures PixelAt(u, n) == PixelAt(s, n) && AlphaAt(u, n) == AlphaAt(s, n) {
      var p := PixelAt(s, n);
      var q := PixelAt(t, n);
      assert q == StagePixel(Inversion(0.0), p);
      assert PixelAt(u, n) == StagePixel(Inversion(0.0), q);
      InvertUnit(p.r); InvertUnit(p.g); InvertUnit(p.b);
      InvertUnit(q.r); InvertUnit(q.g); InvertUnit(q.b);
      assert AlphaAt(u, n) == AlphaAt(t, n) == AlphaAt(s, n);
    }
    BufferExtensionality(s, u);
  }

  /** Inversion at 0 changes a black pixel to white: it is not the identity either. */
  lemma InversionZeroIsNotIdentity()
    ensures ApplyStage(Inversion(0.0), [0, 0, 0, 255]) == [255, 255, 255, 255]
  {
    var s: seq<Byte> := [0, 0, 0, 255];
    var r := ApplyStage(Inversion(0.0), s);
    assert PixelAt(s, 0) == Rgb(0, 0, 0);
    assert PixelAt(r, 0) == Rgb(255, 255, 255) && AlphaAt(r, 0) == 255;
    assert r == [r[0], r[1], r[2], r[3]];
  }

  lemma ProductNonnegative(x: real, y: real)
    requires x >= 0.0 && y >= 0.0
    ensures x * y >= 0.0
  {
  }

  lemma ExposeNeverDarkens(factor: real, c: Byte)
    requires factor >= 1.0
    ensures Expose(factor, c) >= c
  {
    var m := Min(255.0, Scaled(c, factor));
    ScaledNotBelow(c, factor);
    assert c as real <= m;
    ClampNotBelow(c, m);
  }

  /** Storing a value at least c as a byte gives at least c. */
  lemma ClampNotBelow(c: Byte, x: real)
    requires c as real <= x
    ensures ToUint8Clamp(x) >= c
  {
    ToUint8ClampMonotone(c as real, x);
    ToUint8ClampOfInt(c);
  }

  lemma ScaledNotBelow(c: Byte, factor: real)
    requires factor >= 1.0
    ensures Scaled(c, factor) >= c as real
  {
    ScaleUp(c as real, factor);
  }

  lemma ScaleUp(x: real, f: real)
    requires x >= 0.0 && f >= 1.0
    ensures x * f >= x
  {
    ProductNonnegative(x, f - 1.0);
    assert x * f == x * (f - 1.0) + x;
  }

  /** With a factor of at least 1 (exposure >= 0) no colour channel gets darker. */
  lemma ExposureNeverDarkens(factor: real, s: seq<Byte>)
    requires factor >= 1.0 && IsBuffer(s)
    ensures var r := ApplyStage(Exposure(factor), s);
      forall n :: 0 <= n < PixelCount(s) ==>
        PixelAt(r, n).r >= s[4 * n] && PixelAt(r, n).g >= s[4 * n + 1] && PixelAt(r, n).b >= s[4 * n + 2]
  {
    var r := ApplyStage(Exposure(factor), s);
    forall n | 0 <= n < PixelCount(s)
      ensures PixelAt(r, n).r >= s[4 * n] && PixelAt(r, n).g >= s[4 * n + 1] && PixelAt(r, n).b >= s[4 * n + 2]
    {
      var p := PixelAt(s, n);
      assert PixelAt(r, n) == StagePixel(Exposure(factor), p);
      ExposeNeverDarkens(factor, p.r);
      ExposeNeverDarkens(factor, p.g);
      ExposeNeverDarkens(factor, p.b);
    }
  }

  /** Exposure 0 gives the factor 2^0 = 1, which keeps every pixel. */
  lemma ExposureUnitIsIdentity(s: seq<Byte>)
    requires IsBuffer(s)
    ensures ApplyStage(Exposure(1.0), s) == s
  {
    forall c: Byte ensures Expose(1.0, c) == c {
      ToUint8ClampOfInt(c);
    }
    StageFixingEveryPixel(Exposure(1.0), s);
  }

  lemma ContrastZeroIsIdentity(s: seq<Byte>)
    requires IsBuffer(s)
    ensures ApplyStage(Contrast(0.0), s) == s
  {
    forall c: Byte ensures Contrast1(ContrastFactor(0.0), c) == c {
      assert (c as real - 128.0) * 1.0 + 128.0 == c as real;
      ToUint8ClampOfInt(c);
    }
    StageFixingEveryPixel(Contrast(0.0), s);
  }

  /** Contrast at -255 gives the factor 0 and flattens every channel to mid-gray. */
  lemma ContrastMinimumIsFlatGray(s: seq<Byte>)
    requires IsBuffer(s)
    ensures var r := ApplyStage(Contrast(-255.0), s);
      forall n :: 0 <= n < PixelCount(s) ==> PixelAt(r, n) == Rgb(128, 128, 128)
  {
    forall c: Byte ensures Contrast1(ContrastFactor(-255.0), c) == 128 {
      assert (c as real - 128.0) * 0.0 + 128.0 == 128.0;
      ToUint8ClampOfInt(128);
    }
  }

  lemma SaturationZeroIsIdentity(s: seq<Byte>)
    requires IsBuffer(s)
    ensures ApplyStage(Saturation(0.0), s) == s
  {
    forall p: Rgb ensures StagePixel(Saturation(0.0), p) == p {
      var gray := Luma(p.r, p.g, p.b);
      SaturateByZero(gray, p.r);
      SaturateByZero(gray, p.g);
      SaturateByZero(gray, p.b);
    }
    StageFixingEveryPixel(Saturation(0.0), s);
  }

  lemma SaturateByZero(gray: real, c: Byte)
    ensures Saturate(gray, 0.0, c) == c
  {
    assert -gray * 0.0 + c as real * (1.0 + 0.0) == c as real;
    ToUint8ClampOfInt(c);
  }

  /** A gray channel survives saturation in the slider's range: the luma weights sum to 0.9999. */
  lemma SaturateKeepsGray(c: Byte, amount: real)
    requires 0.0 <= amount <= 2.0
    ensures Saturate(Luma(c, c, c), amount, c) == c
  {
    var x := -Luma(c, c, c) * amount + c as real * (1.0 + amount);
    var e := c as real * amount;
    assert x == c as real + 0.0001 * e;
    assert 0.0 <= e <= 510.0 by {
      ProductNonnegative(255.0 - c as real, amount);
      ProductNonnegative(c as real, amount);
    }
    if 0 < c < 255 {
      assert 0.0 < x < 255.0;
    }
  }

  /** Saturation (0 to 200 on the slider) leaves gray pixels as they are. */
  lemma SaturationKeepsGrays(value: real, s: seq<Byte>)
    requires 0.0 <= value <= 200.0 && IsBuffer(s)
    ensures var r := ApplyStage(Saturation(value), s);
      forall n :: 0 <= n < PixelCount(s) && s[4 * n] == s[4 * n + 1] == s[4 * n + 2] ==> PixelAt(r, n) == PixelAt(s, n)
  {
    forall n | 0 <= n < PixelCount(s) && s[4 * n] == s[4 * n + 1] == s[4 * n + 2]
      ensures StagePixel(Saturation(value), PixelAt(s, n)) == PixelAt(s, n)
    {
      SaturateKeepsGray(s[4 * n], SaturationAmount(value));
    }
  }
}
