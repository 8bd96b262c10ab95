/**
 * calculate_image_quality: at every tenth pixel of the central 40% of the
 * frame, a blend of the local contrast with the right and lower neighbours,
 * the central-difference edge strength and the spread of the 3x3 window;
 * the score is the mean over the samples.
 */
module Quality {
  import opened Wrappers
  import opened Frames
  import opened Sampling
  import opened Window
  import opened Sums

  /** The grid from `width * 3 / 10` to `width * 7 / 10` (and likewise for `height`), every 10 pixels. */
  function QualityRegion(w: Size, h: Size): (g: Region)
    ensures g.Terminates()
  {
    Region(Wrap(w * 3) / 10, Wrap(w * 7) / 10, 10, Wrap(h * 3) / 10, Wrap(h * 7) / 10, 10)
  }

  /** `local_contrast`, the differences to the right and lower neighbours: in [0, 510], and 0 exactly when both neighbours equal the pixel. */
  function LocalContrast(buf: seq<byte>, w: nat, i: int): (r: nat)
    requires BoxAt(|buf|, w, i)
    ensures r <= 510
    ensures r == 0 <==> Px(buf, i + 1) == Px(buf, i) && Px(buf, i + w) == Px(buf, i)
  {
    Abs(Px(buf, i) - Px(buf, i + 1)) + Abs(Px(buf, i) - Px(buf, i + w))
  }

  /** The central difference `gx` across the pixel, in [-255, 255]. */
  function EdgeX(buf: seq<byte>, w: nat, i: int): (r: int)
    requires BoxAt(|buf|, w, i)
    ensures -255 <= r <= 255
  {
    Px(buf, i + 1) - Px(buf, i - 1)
  }

  /** The central difference `gy` down the pixel, in [-255, 255]. */
  function EdgeY(buf: seq<byte>, w: nat, i: int): (r: int)
    requires BoxAt(|buf|, w, i)
    ensures -255 <= r <= 255
  {
    Px(buf, i + w) - Px(buf, i - w)
  }

  /**
   * `local_contrast * 0.3 + edge * 0.4 + sqrt(local_var) * 0.3`. Of a
   * non-negative edge strength and spread it is never negative, and it is 0
   * exactly when all three measures are.
   */
  function Blend(contrast: nat, edge: real, spread: real): (r: real)
    ensures 0.0 <= edge && 0.0 <= spread ==>
              0.0 <= r && (r == 0.0 <==> contrast == 0 && edge == 0.0 && spread == 0.0)
  {
    contrast as real * 0.3 + edge * 0.4 + spread * 0.3
  }

  /**
   * The sample at offset `i`. For a square root it is never negative, and it
   * is 0 exactly when the 3x3 window around the pixel is flat: a flat window
   * has no contrast, no edge and no variance, and any other window has some
   * variance.
   */
  function QualitySample(buf: seq<byte>, w: nat, i: int, sqrt: real -> real): (r: real)
    requires BoxAt(|buf|, w, i)
    ensures IsSquareRoot(sqrt) ==> 0.0 <= r && (r == 0.0 <==> Flat(Box(buf, w, i)))
  {
    var b := Box(buf, w, i);
    var gx := EdgeX(buf, w, i);
    var gy := EdgeY(buf, w, i);
    var edge := Magnitude(gx, gy, sqrt);
    var spread := sqrt(Variance(b));
    assert IsSquareRoot(sqrt) ==>
             0.0 <= edge && 0.0 <= spread && (spread == 0.0 <==> Flat(b)) && (edge == 0.0 <==> gx == 0 && gy == 0) by {
      if IsSquareRoot(sqrt) {
        MagnitudeZeroIff(gx, gy, sqrt);
        VarianceZeroIff(b);
      }
    }
    assert Flat(b) ==> LocalContrast(buf, w, i) == 0 && gx == 0 && gy == 0 by {
      if Flat(b) {
        assert b[1] == b[3] == b[4] == b[5] == b[7];
      }
    }
    Blend(LocalContrast(buf, w, i), edge, spread)
  }

  /** The samples of row `y`, in the order the inner loop takes them. */
  function QualityRow(buf: seq<byte>, w: nat, y: nat, xs: seq<nat>, sqrt: real -> real): (r: seq<real>)
    requires BoxRowSafe(|buf|, w, y, xs)
    ensures |r| == |xs|
  {
    seq(|xs|, k requires 0 <= k < |xs| => QualitySample(buf, w, y * w + xs[k], sqrt))
  }

  /** Sample `k` of a row is taken at column `xs[k]`. */
  lemma QualityRowAt(buf: seq<byte>, w: nat, y: nat, xs: seq<nat>, sqrt: real -> real, k: nat, x: nat)
    requires BoxRowSafe(|buf|, w, y, xs) && k < |xs| && xs[k] == x
    ensures BoxAt(|buf|, w, y * w + x)
    ensures QualityRow(buf, w, y, xs, sqrt)[k] == QualitySample(buf, w, y * w + x, sqrt)
  {
  }

  /** The samples of the whole grid, row by row. */
  function QualitySamples(buf: seq<byte>, w: nat, ys: seq<nat>, xs: seq<nat>, sqrt: real -> real): (m: seq<seq<real>>)
    requires BoxSafe(|buf|, w, ys, xs)
    ensures |m| == |ys|
  {
    seq(|ys|, j requires 0 <= j < |ys| =>
      assert BoxRowSafe(|buf|, w, ys[j], xs);
      QualityRow(buf, w, ys[j], xs, sqrt))
  }

  /** `total_quality / samples` over the grid `g`, or 0 when no sample was taken. */
  function QualityMean(buf: seq<byte>, w: nat, g: Region, sqrt: real -> real): real
    requires g.Terminates() && BoxSafe(|buf|, w, g.Rows(), g.Columns())
  {
    Average(GridSum(QualitySamples(buf, w, g.Rows(), g.Columns(), sqrt), 0), |g.Rows()| * |g.Columns()|)
  }

  /** What the C code needs of a non-empty frame and does not check: every 3x3 window lies inside the buffer. */
  predicate QualityScorable(f: Frame) {
    var g := QualityRegion(f.width, f.height);
    f.buf.Some? && BoxSafe(|f.buf.value|, f.width, g.Rows(), g.Columns())
  }

  /** The score calculate_image_quality returns: 0 for a null or empty frame, and never negative for a square root. */
  function QualityOf(fb: Option<Frame>, sqrt: real -> real): (r: real)
    requires !NullOrEmpty(fb) ==> QualityScorable(fb.value)
    ensures NullOrEmpty(fb) ==> r == 0.0
    ensures IsSquareRoot(sqrt) ==> 0.0 <= r
  {
    if NullOrEmpty(fb) then 0.0
    else
      var f := fb.value;
      var g := QualityRegion(f.width, f.height);
      assert IsSquareRoot(sqrt) ==> 0.0 <= QualityMean(f.buf.value, f.width, g, sqrt) by {
        if IsSquareRoot(sqrt) {
          QualityMeanZeroIff(f.buf.value, f.width, g, sqrt);
        }
      }
      QualityMean(f.buf.value, f.width, g, sqrt)
  }

  /** The body of the inner loop at (x, y): contrast, edge strength, the mean and variance loops, and the blend. */
  method QualityPoint(buf: Bytes, w: Size, x: nat, y: nat, sqrt: real -> real) returns (quality: real)
    requires BoxAt(|buf|, w, y * w + x)
    ensures quality == QualitySample(buf, w, y * w + x, sqrt)
  {
    var idx := y * w + x;
    var localContrast := Abs(buf[idx] as int - buf[idx + 1] as int) + Abs(buf[idx] as int - buf[idx + w] as int);
    var gx := buf[idx + 1] as int - buf[idx - 1] as int;
    var gy := buf[idx + w] as int - buf[idx - w] as int;
    var edge := sqrt((gx * gx + gy * gy) as real);
    var localMean, localVar := LocalVariance(buf, w, idx);
    quality := localContrast as real * 0.3 + edge * 0.4 + sqrt(localVar) * 0.3;
  }

  /** The inner loop over row `y`, added to the running `total_quality` and `samples`. */
  method SampleQualityRow(buf: Bytes, w: Size, g: Region, y: nat, sqrt: real -> real, total0: real, samples0: int)
    returns (total: real, samples: int)
    requires Advances(g.x0, g.x1, g.stepX) && BoxRowSafe(|buf|, w, y, Axis(g.x0, g.x1, g.stepX))
    ensures total == total0 + RowSum(QualityRow(buf, w, y, Axis(g.x0, g.x1, g.stepX), sqrt), 0)
    ensures samples == samples0 + |Axis(g.x0, g.x1, g.stepX)|
  {
    var xs := Axis(g.x0, g.x1, g.stepX);
    ghost var row := QualityRow(buf, w, y, xs, sqrt);
    AxisFirst(g.x0, g.x1, g.stepX);
    total, samples := total0, samples0;
    var x := g.x0;
    ghost var k := 0;
    while x < g.x1
      invariant k <= |xs| && (k < |xs| <==> x < g.x1) && (k < |xs| ==> xs[k] == x)
      invariant total + RowSum(row, k) == total0 + RowSum(row, 0)
      invariant samples == samples0 + k
      decreases |xs| - k
    {
      AxisNext(g.x0, g.x1, g.stepX, k);
      QualityRowAt(buf, w, y, xs, sqrt, k, x);
      var quality := QualityPoint(buf, w, x, y, sqrt);
      assert RowSum(row, k) == quality + RowSum(row, k + 1);
      total := total + quality;
      samples := samples + 1;
      x := x + g.stepX;
      k := k + 1;
    }
  }

  /** The outer loop of calculate_image_quality over the rows of the grid `g`. */
  method SampleQualityGrid(buf: Bytes, w: Size, g: Region, sqrt: real -> real) returns (total: real, samples: int)
    requires g.Terminates() && BoxSafe(|buf|, w, g.Rows(), g.Columns())
    ensures total == GridSum(QualitySamples(buf, w, g.Rows(), g.Columns(), sqrt), 0)
    ensures samples == |g.Rows()| * |g.Columns()|
  {
    var ys, xs := g.Rows(), g.Columns();
    ghost var m := QualitySamples(buf, w, ys, xs, sqrt);
    AxisFirst(g.y0, g.y1, g.stepY);
    total, samples := 0.0, 0;
    var y := g.y0;
    ghost var j := 0;
    while y < g.y1
      invariant j <= |ys| && (j < |ys| <==> y < g.y1) && (j < |ys| ==> ys[j] == y)
      invariant total + GridSum(m, j) == GridSum(m, 0)
      invariant samples == j * |xs|
      decreases |ys| - j
    {
      AxisNext(g.y0, g.y1, g.stepY, j);
      assert BoxRowSafe(|buf|, w, y, xs);
      assert m[j] == QualityRow(buf, w, y, xs, sqrt);
      assert GridSum(m, j) == RowSum(m[j], 0) + GridSum(m, j + 1);
      total, samples := SampleQualityRow(buf, w, g, y, sqrt, total, samples);
      assert samples == (j + 1) * |xs| by {
        NextRow(j, |xs|);
      }
      y := y + g.stepY;
      j := j + 1;
    }
  }

  /** calculate_image_quality. */
  method CalculateImageQuality(fb: Option<Frame>, sqrt: real -> real) returns (r: real)
    requires !NullOrEmpty(fb) ==> QualityScorable(fb.value)
    ensures r == QualityOf(fb, sqrt)
    ensures NullOrEmpty(fb) ==> r == 0.0
  {
    if NullOrEmpty(fb) {
      return 0.0;
    }
    var f := fb.value;
    var total, samples := SampleQualityGrid(f.buf.value, f.width, QualityRegion(f.width, f.height), sqrt);
    r := if samples > 0 then total / samples as real else 0.0;
  }

  /** The 3x3 window of every sampled point is flat. */
  predicate FlatWindows(buf: seq<byte>, w: nat, ys: seq<nat>, xs: seq<nat>)
    requires BoxSafe(|buf|, w, ys, xs)
  {
    forall j, k :: 0 <= j < |ys| && 0 <= k < |xs| ==> Flat(Box(buf, w, ys[j] * w + xs[k]))
  }

  /** The grid's samples are never negative, and they are all 0 exactly when every sampled window is flat. */
  lemma QualitySamplesZeroIff(buf: seq<byte>, w: nat, ys: seq<nat>, xs: seq<nat>, sqrt: real -> real)
    requires IsSquareRoot(sqrt) && BoxSafe(|buf|, w, ys, xs)
    ensures NonNegativeFrom(QualitySamples(buf, w, ys, xs, sqrt), 0)
    ensures ZeroFrom(QualitySamples(buf, w, ys, xs, sqrt), 0) <==> FlatWindows(buf, w, ys, xs)
  {
    var m := QualitySamples(buf, w, ys, xs, sqrt);
    forall j, k | 0 <= j < |ys| && 0 <= k < |xs|
      ensures 0.0 <= m[j][k]
      ensures m[j][k] == 0.0 <==> Flat(Box(buf, w, ys[j] * w + xs[k]))
    {
      assert m[j][k] == QualitySample(buf, w, ys[j] * w + xs[k], sqrt);
    }
    if FlatWindows(buf, w, ys, xs) {
      forall j, k | 0 <= j < |m| && 0 <= k < |m[j]|
        ensures m[j][k] == 0.0
      {
        assert Flat(Box(buf, w, ys[j] * w + xs[k]));
      }
    }
    if ZeroFrom(m, 0) {
      forall j, k | 0 <= j < |ys| && 0 <= k < |xs|
        ensures Flat(Box(buf, w, ys[j] * w + xs[k]))
      {
        assert m[j][k] == 0.0;
      }
    }
  }

  /**
   * The quality score is never negative, and it is 0 exactly when no sample
   * is taken or every sampled 3x3 window is flat.
   */
  lemma QualityMeanZeroIff(buf: seq<byte>, w: nat, g: Region, sqrt: real -> real)
    requires IsSquareRoot(sqrt) && g.Terminates() && BoxSafe(|buf|, w, g.Rows(), g.Columns())
    ensures 0.0 <= QualityMean(buf, w, g, sqrt)
    ensures QualityMean(buf, w, g, sqrt) == 0.0 <==> g.Rows() == [] || g.Columns() == [] || FlatWindows(buf, w, g.Rows(), g.Columns())
  {
    var ys, xs := g.Rows(), g.Columns();
    var m := QualitySamples(buf, w, ys, xs, sqrt);
    QualitySamplesZeroIff(buf, w, ys, xs, sqrt);
    GridSumZeroIff(m, 0);
    AverageZeroIff(GridSum(m, 0), |ys| * |xs|);
    ProductZeroIff(|ys|, |xs|);
  }

  /** Every sampled window of a uniform frame is flat. */
  lemma UniformWindowsAreFlat(buf: seq<byte>, w: nat, ys: seq<nat>, xs: seq<nat>, c: byte)
    requires BoxSafe(|buf|, w, ys, xs) && Uniform(buf, c)
    ensures FlatWindows(buf, w, ys, xs)
  {
    forall j, k | 0 <= j < |ys| && 0 <= k < |xs|
      ensures Flat(Box(buf, w, ys[j] * w + xs[k]))
    {
      UniformBoxIsFlat(buf, w, ys[j] * w + xs[k], c);
    }
  }

  /** A uniform frame scores 0. */
  lemma UniformFrameHasNoQuality(fb: Option<Frame>, c: byte, sqrt: real -> real)
    requires IsSquareRoot(sqrt)
    requires !NullOrEmpty(fb) ==> QualityScorable(fb.value) && Uniform(fb.value.buf.value, c)
    ensures QualityOf(fb, sqrt) == 0.0
  {
    if !NullOrEmpty(fb) {
      var f := fb.value;
      var g := QualityRegion(f.width, f.height);
      UniformWindowsAreFlat(f.buf.value, f.width, g.Rows(), g.Columns(), c);
      QualityMeanZeroIff(f.buf.value, f.width, g, sqrt);
    }
  }

  /** `samples` is the product of the per-axis counts ceil((end - start) / 10). */
  lemma QualitySampleCount(w: Size, h: Size)
    ensures var g := QualityRegion(w, h);
      |g.Rows()| * |g.Columns()|
      == (if g.y0 < g.y1 then (g.y1 - g.y0 + 9) / 10 else 0) * (if g.x0 < g.x1 then (g.x1 - g.x0 + 9) / 10 else 0)
  {
    var g := QualityRegion(w, h);
    AxisLength(g.y0, g.y1, 10);
    AxisLength(g.x0, g.x1, 10);
  }

  /** Every 3x3 window stays inside the frame when the frame is at least 4 x 4 and the buffer holds it. */
  lemma LargeFrameIsQualityScorable(f: Frame)
    requires f.buf.Some? && 4 <= f.width && 4 <= f.height && f.width * f.height <= |f.buf.value|
    ensures QualityScorable(f)
  {
    var w, h := f.width, f.height;
    MulMonotonic(4, h, w);
    MulMonotonic(4, w, h);
    var g := QualityRegion(w, h);
    assert 1 <= g.x0 && g.x1 < w && 1 <= g.y0 && g.y1 < h;
    InteriorIsSafe(|f.buf.value|, w, h, g);
  }

  /** A 640 x 480 frame whose buffer holds a single sample passes the `len` check, yet the C code reads outside that buffer. */
  lemma ShortBufferReadsOutsideQuality()
    ensures var b: Bytes := [0]; !NullOrEmpty(Some(Frame(Some(b), 640, 480))) && !QualityScorable(Frame(Some(b), 640, 480))
  {
    var g := QualityRegion(640, 480);
    AxisFirst(g.y0, g.y1, 10);
    AxisFirst(g.x0, g.x1, 10);
    assert !BoxAt(1, 640, g.Rows()[0] * 640 + g.Columns()[0]);
  }

  /**
   * On a 3 x 3 frame with a full buffer the grid starts at offset 0, so the
   * C code reads before the start of the buffer.
   */
  lemma SmallFrameReadsOutsideQuality()
    ensures QualityRegion(3, 3) == Region(0, 2, 10, 0, 2, 10) && !BoxAt(9, 3, 0)
    ensures var b: Bytes := [0, 0, 0, 0, 0, 0, 0, 0, 0]; !QualityScorable(Frame(Some(b), 3, 3))
  {
    var g := QualityRegion(3, 3);
    AxisFirst(g.y0, g.y1, 10);
    AxisFirst(g.x0, g.x1, 10);
    assert g.Rows()[0] * 3 + g.Columns()[0] == 0;
  }

  /**
   * The score with the checks the C code leaves out: the buffer must hold
   * `width * height` samples, and the frame must be at least 4 x 4 so that
   * the grid keeps one pixel away from every edge. A frame with no area
   * scores 0, as in the C code, where no sample is taken.
   */
  function CheckedQualityOf(fb: Option<Frame>, sqrt: real -> real): (r: Result<real, FrameError>)
    ensures !NullOrEmpty(fb) && (fb.value.width == 0 || fb.value.height == 0) ==> r == Ok(0.0)
    ensures r.Ok? && !NullOrEmpty(fb) && 0 < fb.value.width && 0 < fb.value.height
            ==> 4 <= fb.value.width && 4 <= fb.value.height && fb.value.width * fb.value.height <= |fb.value.buf.value|
    ensures !NullOrEmpty(fb) && 4 <= fb.value.width && 4 <= fb.value.height &&
              fb.value.width * fb.value.height <= |fb.value.buf.value|
            ==> r.Ok?
    ensures IsSquareRoot(sqrt) && r.Ok? ==> 0.0 <= r.value
  {
    if NullOrEmpty(fb) || fb.value.width == 0 || fb.value.height == 0 then Ok(0.0)
    else
      var f := fb.value;
      var buf := f.buf.value;
      if |buf| < f.width * f.height then Err(BufferTooShort)
      else if f.width < 4 || f.height < 4 then Err(FrameTooSmall)
      else
        LargeFrameIsQualityScorable(f);
        var g := QualityRegion(f.width, f.height);
        assert IsSquareRoot(sqrt) ==> 0.0 <= QualityMean(buf, f.width, g, sqrt) by {
          if IsSquareRoot(sqrt) {
            QualityMeanZeroIff(buf, f.width, g, sqrt);
          }
        }
        Ok(QualityMean(buf, f.width, g, sqrt))
  }

  /**
   * On frames with no area, and on frames of at least 4 x 4 with a full
   * buffer, the C code scores safely and the checked score is the same.
   */
  lemma CheckedQualityAgrees(fb: Option<Frame>, sqrt: real -> real)
    requires !NullOrEmpty(fb) ==>
               fb.value.width == 0 || fb.value.height == 0 ||
               (4 <= fb.value.width && 4 <= fb.value.height && fb.value.width * fb.value.height <= |fb.value.buf.value|)
    ensures !NullOrEmpty(fb) ==> QualityScorable(fb.value)
    ensures CheckedQualityOf(fb, sqrt) == Ok(QualityOf(fb, sqrt))
  {
    if !NullOrEmpty(fb) {
      var f := fb.value;
      if f.width == 0 || f.height == 0 {
        var g := QualityRegion(f.width, f.height);
        assert g.Rows() == [] || g.Columns() == [];
      } else {
        LargeFrameIsQualityScorable(f);
      }
    }
  }

  /** calculate_image_quality with the missing checks added. */
  method CheckedImageQuality(fb: Option<Frame>, sqrt: real -> real) returns (r: Result<real, FrameError>)
    ensures r == CheckedQualityOf(fb, sqrt)
  {
    if NullOrEmpty(fb) || fb.value.width == 0 || fb.value.height == 0 {
      return Ok(0.0);
    }
    var f := fb.value;
    var buf := f.buf.value;
    if |buf| < f.width * f.height {
      return Err(BufferTooShort);
    }
    if f.width < 4 || f.height < 4 {
      return Err(FrameTooSmall);
    }
    var g := QualityRegion(f.width, f.height);
    LargeFrameIsQualityScorable(f);
    var total, samples := SampleQualityGrid(buf, f.width, g, sqrt);
    r := Ok(if samples > 0 then total / samples as real else 0.0);
  }
}
