/**
  The few ECMAScript and Web IDL conversions the editor relies on, stated on
  exact reals: the store into a Uint8ClampedArray (ToUint8Clamp, section 7.1.12
  of ECMA-262), Math.round, truncation toward zero, the Web IDL `long` and
  `unsigned long` conversions used by the canvas API, and String.prototype.trim.
*/
module JsNumbers {

  datatype Option<T> = None | Some(value: T)

  /** The values an element of a Uint8ClampedArray can hold. */
  type Byte = x: int | 0 <= x <= 255

  function Min(x: real, y: real): (m: real)
    ensures m <= x && m <= y
    ensures m == x || m == y
  {
    if x <= y then x else y
  }

  function Abs(x: real): (r: real)
    ensures r >= 0.0 && (r == x || r == -x)
  {
    if x < 0.0 then -x else x
  }

  /** Math.round: the nearest integer, a half rounded toward +infinity. */
  function JsRound(x: real): (r: int)
    ensures x - 0.5 < r as real <= x + 0.5
  {
    (x + 0.5).Floor
  }

  /** ToUint8Clamp: what a store `data[k] = v` into a Uint8ClampedArray keeps. */
  function ToUint8Clamp(x: real): (r: Byte)
    ensures x <= 0.0 ==> r == 0
    ensures x >= 255.0 ==> r == 255
    ensures 0.0 < x < 255.0 ==> -0.5 <= r as real - x <= 0.5
    ensures 0.0 < x < 255.0 && (r as real - x == 0.5 || x - r as real == 0.5) ==> r % 2 == 0
  {
    if x <= 0.0 then 0
    else if x >= 255.0 then 255
    else
      var f := x.Floor;
      if f as real + 0.5 < x then f + 1
      else if x < f as real + 0.5 then f
      else if f % 2 == 1 then f + 1
      else f
  }

  /** Clamping an integer to the byte range. */
  function ClampInt(n: int): (r: Byte)
    ensures 0 <= n <= 255 ==> r == n
    ensures n < 0 ==> r == 0
    ensures n > 255 ==> r == 255
  {
    if n < 0 then 0 else if n > 255 then 255 else n
  }

  /** Storing an integer clamps it and changes nothing else. */
  lemma ToUint8ClampOfInt(n: int)
    ensures ToUint8Clamp(n as real) == ClampInt(n)
  {
    if 0 < n < 255 {
      assert (n as real).Floor == n;
    }
  }

  /** A larger number is never stored as a smaller byte. */
  lemma ToUint8ClampMonotone(x: real, y: real)
    requires x <= y
    ensures ToUint8Clamp(x) <= ToUint8Clamp(y)
  {
    if 0.0 < x && y < 255.0 {
      var fx, fy := x.Floor, y.Floor;
      assert fx <= fy;
      if fx == fy {
        // Within one unit interval the rounding decision is monotone in the value.
        assert ToUint8Clamp(x) <= fx + 1;
      }
    }
  }

  /** Truncation toward zero (what parseInt yields for a number written without an exponent). */
  function Trunc(x: real): (r: int)
    ensures Abs(r as real) <= Abs(x) < Abs(r as real) + 1.0
    ensures x >= 0.0 ==> r >= 0
    ensures x <= 0.0 ==> r <= 0
  {
    if x >= 0.0 then x.Floor else -((-x).Floor)
  }

  /** The least integer not below x (Math.ceil). */
  function Ceil(x: real): (r: int)
    ensures x <= r as real < x + 1.0
  {
    -((-x).Floor)
  }

  const TwoTo32: int := 0x1_0000_0000

  /**
    The Web IDL `[EnforceRange] long` conversion: `None` (for undefined or NaN)
    and values whose truncation lies outside the 32-bit signed range throw a
    TypeError, reported here as `None`; any other value becomes its truncation.
  */
  function EnforceRangeLong(v: Option<real>): (r: Option<int>)
    ensures r.Some? <==> v.Some? && -0x8000_0000 <= Trunc(v.value) <= 0x7FFF_FFFF
    ensures r.Some? ==> r.value == Trunc(v.value)
  {
    if v.None? then None
    else
      var n := Trunc(v.value);
      if -0x8000_0000 <= n <= 0x7FFF_FFFF then Some(n) else None
  }

  /**
    Whether `getImageData(sx, sy, sw, sh)` returns rather than throws: every
    argument converts as an `[EnforceRange] long`, and neither sw nor sh is 0
    (which would throw an IndexSizeError).
  */
  predicate GetImageDataReturns(sx: Option<real>, sy: Option<real>, sw: Option<real>, sh: Option<real>)
  {
    EnforceRangeLong(sx).Some? && EnforceRangeLong(sy).Some?
    && EnforceRangeLong(sw).Some? && EnforceRangeLong(sw).value != 0
    && EnforceRangeLong(sh).Some? && EnforceRangeLong(sh).value != 0
  }

  /**
    The dimension a canvas takes when its `width` (or `height`) IDL attribute is
    set to `v`: the Web IDL `unsigned long` conversion, then the reflection rule
    that falls back to the attribute's default for values above 2147483647.
    `None` stands for NaN, which converts to 0.
  */
  function CanvasDimension(v: Option<real>, default: nat): (r: nat)
    ensures v.Some? && 0.0 <= v.value < 2147483648.0 ==> r == Trunc(v.value)
    ensures v.None? ==> r == 0
    ensures r <= 2147483647 || r == default
  {
    if v.None? then 0
    else
      var n := Trunc(v.value) % TwoTo32;
      if n <= 2147483647 then n else default
  }

  /** WhiteSpace and LineTerminator code points (sections 12.2 and 12.3 of ECMA-262). */
  predicate IsJsWhitespace(c: char)
  {
    var n := c as int;
    n == 0x09 || n == 0x0A || n == 0x0B || n == 0x0C || n == 0x0D || n == 0x20
    || n == 0xA0 || n == 0x1680 || (0x2000 <= n <= 0x200A) || n == 0x2028 || n == 0x2029
    || n == 0x202F || n == 0x205F || n == 0x3000 || n == 0xFEFF
  }

  predicate IsBlank(s: string)
  {
    forall i :: 0 <= i < |s| ==> IsJsWhitespace(s[i])
  }

  function TrimStart(s: string): (r: string)
    ensures |r| <= |s| && r == s[|s| - |r|..]
    ensures r != [] ==> !IsJsWhitespace(r[0])
  {
    if s != [] && IsJsWhitespace(s[0]) then TrimStart(s[1..]) else s
  }

  function TrimEnd(s: string): (r: string)
    ensures |r| <= |s| && r == s[..|r|]
    ensures r != [] ==> !IsJsWhitespace(r[|r| - 1])
  {
    if s != [] && IsJsWhitespace(s[|s| - 1]) then TrimEnd(s[..|s| - 1]) else s
  }

  /** String.prototype.trim. */
  function Trim(s: string): string
  {
    TrimEnd(TrimStart(s))
  }

  /** `value.trim()` is the empty (falsy) string exactly when every character is white space. */
  lemma {:induction false} TrimIsEmptyIffBlank(s: string)
    ensures Trim(s) == [] <==> IsBlank(s)
  {
    TrimStartIsEmptyIffBlank(s);
    var t := TrimStart(s);
    if t != [] {
      // TrimEnd keeps the first character of t, which is not white space.
      assert TrimEnd(t) != [] by {
        TrimEndKeepsNonBlank(t);
      }
    }
  }

  lemma {:induction false} TrimStartIsEmptyIffBlank(s: string)
    ensures TrimStart(s) == [] <==> IsBlank(s)
  {
    if s == [] {
    } else if IsJsWhitespace(s[0]) {
      var tail := s[1..];
      TrimStartIsEmptyIffBlank(tail);
      assert TrimStart(s) == TrimStart(tail);
      assert IsBlank(s) <==> IsBlank(tail) by {
        BlankCons(s);
      }
    } else {
      assert !IsBlank(s);
    }
  }

  lemma BlankCons(s: string)
    requires s != [] && IsJsWhitespace(s[0])
    ensures IsBlank(s) <==> IsBlank(s[1..])
  {
    if IsBlank(s[1..]) {
      forall i | 0 <= i < |s| ensures IsJsWhitespace(s[i]) {
        if i > 0 { assert s[i] == s[1..][i - 1]; }
      }
    }
  }

  lemma {:induction false} TrimEndKeepsNonBlank(s: string)
    requires s != [] && !IsJsWhitespace(s[0])
    ensures TrimEnd(s) != []
  {
    if IsJsWhitespace(s[|s| - 1]) {
      TrimEndKeepsNonBlank(s[..|s| - 1]);
    }
  }
}
