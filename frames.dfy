/**
 * The frame buffer the camera driver hands to the scorers (camera_fb_t), the
 * 8-bit luma samples it holds, and the 32-bit `size_t` arithmetic the scorers
 * do on its dimensions.
 */
module Frames {
  import opened Wrappers

  /** One luma sample (`uint8_t`). */
  newtype byte = b: int | 0 <= b < 256

  /** `size_t` is 32 bits wide on the ESP32-S3. */
  const SizeLimit: int := 0x1_0000_0000

  /** A value of type `size_t`. */
  type Size = n: nat | n < SizeLimit

  /** A buffer the driver can hand out: its length is a `size_t`. */
  type Bytes = s: seq<byte> | |s| < SizeLimit witness []

  /** `size_t` multiplication: `width * 3` and the like wrap modulo 2^32. */
  function Wrap(n: nat): (r: Size)
    ensures r <= n
    ensures n < SizeLimit ==> r == n
  {
    n % SizeLimit
  }

  /**
   * camera_fb_t as the scorers see it. `buf` is None for a null buffer
   * pointer; the buffer's length is the field `len`. Pixel (x, y) is
   * `buf[y * width + x]`.
   */
  datatype Frame = Frame(buf: Option<Bytes>, width: Size, height: Size)

  /** Why a corrected scorer refuses a frame instead of reading outside its buffer. */
  datatype FrameError =
    | BufferTooShort  // fewer than width * height samples
    | FrameTooSmall   // the sampling grid would sit on the frame's edge

  /** The guard every scorer opens with: a null frame, a null buffer or `len == 0`. */
  predicate NullOrEmpty(fb: Option<Frame>) {
    fb.None? || fb.value.buf.None? || |fb.value.buf.value| == 0
  }

  /** The sample at flat offset `i`, promoted to `int` as C does before any arithmetic. */
  function Px(buf: seq<byte>, i: int): int
    requires 0 <= i < |buf|
  {
    buf[i] as int
  }

  function Abs(n: int): nat {
    if n < 0 then -n else n
  }

  function Max(a: int, b: int): int {
    if a < b then b else a
  }

  function Min(a: int, b: int): int {
    if a < b then a else b
  }

  /** The five reads `i`, `i - 1`, `i + 1`, `i - w`, `i + w` of a cross stencil fall inside a buffer of length `n`. */
  predicate CrossAt(n: nat, w: nat, i: int) {
    1 <= i && w <= i && i + 1 < n && i + w < n
  }

  /** The nine reads `i + dy * w + dx` (dy, dx in -1..1) of a 3x3 window fall inside a buffer of length `n`. */
  predicate BoxAt(n: nat, w: nat, i: int) {
    w + 1 <= i && i + w + 1 < n
  }

  /** A frame whose every sample is `c`. */
  predicate Uniform(buf: seq<byte>, c: byte) {
    forall i :: 0 <= i < |buf| ==> buf[i] == c
  }

  /**
   * The C library's `sqrt`, which the model takes as a parameter. The model
   * relies on two of its facts only: on a non-negative argument it returns a
   * non-negative result, and that result is zero exactly when the argument is.
   */
  ghost predicate IsSquareRoot(sqrt: real -> real) {
    forall v: real :: 0.0 <= v ==> 0.0 <= sqrt(v) && (sqrt(v) == 0.0 <==> v == 0.0)
  }

  /** `sqrt(gx*gx + gy*gy)`, the squares taken in `int`: the length of a gradient. */
  function Magnitude(gx: int, gy: int, sqrt: real -> real): real {
    sqrt((gx * gx + gy * gy) as real)
  }

  /** gx*gx + gy*gy is never negative, and 0 only when both are. */
  lemma SquaresZeroIff(gx: int, gy: int)
    ensures 0 <= gx * gx + gy * gy
    ensures gx * gx + gy * gy == 0 <==> gx == 0 && gy == 0
  {
    if gx != 0 {
      assert 0 < Abs(gx) * Abs(gx);
    }
    if gy != 0 {
      assert 0 < Abs(gy) * Abs(gy);
    }
  }

  /** The gradient length is never negative, and 0 exactly when both components are. */
  lemma MagnitudeZeroIff(gx: int, gy: int, sqrt: real -> real)
    requires IsSquareRoot(sqrt)
    ensures 0.0 <= Magnitude(gx, gy, sqrt)
    ensures Magnitude(gx, gy, sqrt) == 0.0 <==> gx == 0 && gy == 0
  {
    SquaresZeroIff(gx, gy);
  }
}
