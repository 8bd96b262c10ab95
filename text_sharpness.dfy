/**
 * calculate_text_sharpness: at every fifth pixel of the central two thirds
 * of the frame, the Sobel gradient magnitude, emphasised by the contrast of
 * the 3x3 window around the pixel; the score is the mean over the samples.
 */
module TextSharpness {
  import opened Wrappers
  import opened Frames
  import opened Sampling
  import opened Window
  import opened Sums

  /** The grid from `width / 6` to `width * 5 / 6` (and likewise for `height`), every 5 pixels. */
  function TextRegion(w: Size, h: Size): (g: Region)
    ensures g.Terminates()
  {
    Region(w / 6, Wrap(w * 5) / 6, 5, h / 6, Wrap(h * 5) / 6, 5)
  }

  /** The horizontal Sobel response `gx` at offset `i`, in `int`. */
  function SobelX(buf: seq<byte>, w: nat, i: int): (r: int)
    requires BoxAt(|buf|, w, i)
    ensures -1020 <= r <= 1020
  {
    -1 * Px(buf, i - 1 - w) + 1 * Px(buf, i + 1 - w)
    - 2 * Px(buf, i - 1) + 2 * Px(buf, i + 1)
    - 1 * Px(buf, i - 1 + w) + 1 * Px(buf, i + 1 + w)
  }

  /** The vertical Sobel response `gy` at offset `i`, in `int`. */
  function SobelY(buf: seq<byte>, w: nat, i: int): (r: int)
    requires BoxAt(|buf|, w, i)
    ensures -1020 <= r <= 1020
  {
    -1 * Px(buf, i - 1 - w) - 2 * Px(buf, i - w) - 1 * Px(buf, i + 1 - w)
    + 1 * Px(buf, i - 1 + w) + 2 * Px(buf, i + w) + 1 * Px(buf, i + 1 + w)
  }

  /** Both Sobel responses vanish on a window of nine equal samples. */
  lemma SobelFlat(buf: seq<byte>, w: nat, i: int)
    requires BoxAt(|buf|, w, i) && Flat(Box(buf, w, i))
    ensures SobelX(buf, w, i) == 0 && SobelY(buf, w, i) == 0
  {
    var b := Box(buf, w, i);
    assert b[0] == b[1] == b[2] == b[3] == b[5] == b[6] == b[7] == b[8] == b[4];
  }

  /** `contrast = (max_val - min_val) / 255.0`: in [0, 1], and 0 exactly on a flat window. */
  function Contrast(buf: seq<byte>, w: nat, i: int): (c: real)
    requires BoxAt(|buf|, w, i)
    ensures 0.0 <= c <= 1.0
    ensures c == 0.0 <==> Flat(Box(buf, w, i))
  {
    RangeZeroIff(Box(buf, w, i));
    Range(Box(buf, w, i)) as real / 255.0
  }

  /** The multiplier `0.3 + 0.7 * contrast`: between 0.3 and 1. */
  function Emphasis(c: real): (m: real)
    requires 0.0 <= c <= 1.0
    ensures 0.3 <= m <= 1.0
    ensures c == 0.0 ==> m == 0.3
    ensures c == 1.0 ==> m == 1.0
  {
    0.3 + 0.7 * c
  }

  /** `gradient * (0.3 + 0.7 * contrast)`. */
  function Emphasised(gradient: real, c: real): real
    requires 0.0 <= c <= 1.0
  {
    gradient * Emphasis(c)
  }

  lemma EmphasisedUnfold(gradient: real, c: real)
    requires 0.0 <= c <= 1.0
    ensures Emphasised(gradient, c) == gradient * (0.3 + 0.7 * c)
  {
  }

  /**
   * The sample at offset `i`: the Sobel gradient magnitude, emphasised by the
   * window's contrast. For a square root it is never negative, and it is 0
   * exactly when both Sobel responses are: the contrast multiplier is at
   * least 0.3.
   */
  function TextSample(buf: seq<byte>, w: nat, i: int, sqrt: real -> real): (r: real)
    requires BoxAt(|buf|, w, i)
    ensures IsSquareRoot(sqrt) ==> 0.0 <= r && (r == 0.0 <==> SobelX(buf, w, i) == 0 && SobelY(buf, w, i) == 0)
  {
    var gx := SobelX(buf, w, i);
    var gy := SobelY(buf, w, i);
    var gradient := Magnitude(gx, gy, sqrt);
    var c := Contrast(buf, w, i);
    assert IsSquareRoot(sqrt) ==>
             0.0 <= Emphasised(gradient, c) && (Emphasised(gradient, c) == 0.0 <==> gx == 0 && gy == 0) by {
      if IsSquareRoot(sqrt) {
        MagnitudeZeroIff(gx, gy, sqrt);
        EmphasisedZeroIff(gradient, c);
      }
    }
    Emphasised(gradient, c)
  }

  /** The samples of row `y`, in the order the inner loop takes them. */
  function TextRow(buf: seq<byte>, w: nat, y: nat, xs: seq<nat>, sqrt: real -> real): (r: seq<real>)
    requires BoxRowSafe(|buf|, w, y, xs)
    ensures |r| == |xs|
  {
    seq(|xs|, k requires 0 <= k < |xs| => TextSample(buf, w, y * w + xs[k], sqrt))
  }

  /** Sample `k` of a row is taken at column `xs[k]`. */
  lemma TextRowAt(buf: seq<byte>, w: nat, y: nat, xs: seq<nat>, sqrt: real -> real, k: nat, x: nat)
    requires BoxRowSafe(|buf|, w, y, xs) && k < |xs| && xs[k] == x
    ensures BoxAt(|buf|, w, y * w + x)
    ensures TextRow(buf, w, y, xs, sqrt)[k] == TextSample(buf, w, y * w + x, sqrt)
  {
  }

  /** The samples of the whole grid, row by row. */
  function TextSamples(buf: seq<byte>, w: nat, ys: seq<nat>, xs: seq<nat>, sqrt: real -> real): (m: seq<seq<real>>)
    requires BoxSafe(|buf|, w, ys, xs)
    ensures |m| == |ys|
  {
    seq(|ys|, j requires 0 <= j < |ys| =>
      assert BoxRowSafe(|buf|, w, ys[j], xs);
      TextRow(buf, w, ys[j], xs, sqrt))
  }

  /** `total_sharpness / samples` over the grid `g`, or 0 when no sample was taken. */
  function TextMean(buf: seq<byte>, w: nat, g: Region, sqrt: real -> real): real
    requires g.Terminates() && BoxSafe(|buf|, w, g.Rows(), g.Columns())
  {
    Average(GridSum(TextSamples(buf, w, g.Rows(), g.Columns(), sqrt), 0), |g.Rows()| * |g.Columns()|)
  }

  /** What the C code needs of a non-empty frame and does not check: every 3x3 window lies inside the buffer. */
  predicate TextScorable(f: Frame) {
    var g := TextRegion(f.width, f.height);
    f.buf.Some? && BoxSafe(|f.buf.value|, f.width, g.Rows(), g.Columns())
  }

  /** The score calculate_text_sharpness returns: 0 for a null or empty frame, and never negative for a square root. */
  function TextSharpnessOf(fb: Option<Frame>, sqrt: real -> real): (r: real)
    requires !NullOrEmpty(fb) ==> TextScorable(fb.value)
    ensures NullOrEmpty(fb) ==> r == 0.0
    ensures IsSquareRoot(sqrt) ==> 0.0 <= r
  {
    if NullOrEmpty(fb) then 0.0
    else
      var f := fb.value;
      var g := TextRegion(f.width, f.height);
      assert IsSquareRoot(sqrt) ==> 0.0 <= TextMean(f.buf.value, f.width, g, sqrt) by {
        if IsSquareRoot(sqrt) {
          TextMeanZeroIff(f.buf.value, f.width, g, sqrt);
        }
      }
      TextMean(f.buf.value, f.width, g, sqrt)
  }

  /** The body of the inner loop at (x, y): Sobel, the min/max loops, and the emphasised gradient. */
  method TextPoint(buf: Bytes, w: Size, x: nat, y: nat, sqrt: real -> real) returns (sharpness: real)
    requires BoxAt(|buf|, w, y * w + x)
    ensures sharpness == TextSample(buf, w, y * w + x, sqrt)
  {
    var idx := y * w + x;
    var gx := -1 * buf[idx - 1 - w] as int + 1 * buf[idx + 1 - w] as int
              - 2 * buf[idx - 1] as int + 2 * buf[idx + 1] as int
              - 1 * buf[idx - 1 + w] as int + 1 * buf[idx + 1 + w] as int;
    var gy := -1 * buf[idx - 1 - w] as int - 2 * buf[idx - w] as int - 1 * buf[idx + 1 - w] as int
              + 1 * buf[idx - 1 + w] as int + 2 * buf[idx + w] as int + 1 * buf[idx + 1 + w] as int;
    assert gx == SobelX(buf, w, idx) && gy == SobelY(buf, w, idx);
    var gradient := sqrt((gx * gx + gy * gy) as real);
    assert gradient == Magnitude(SobelX(buf, w, idx), SobelY(buf, w, idx), sqrt);
    var maxVal, minVal := LocalRange(buf, w, idx);
    var contrast := (maxVal as int - minVal as int) as real / 255.0;
    assert contrast == Contrast(buf, w, idx);
    sharpness := gradient * (0.3 + 0.7 * contrast);
    EmphasisedUnfold(gradient, contrast);
  }

  /** The inner loop over row `y`, added to the running `total_sharpness` and `samples`. */
  method SampleTextRow(buf: Bytes, w: Size, g: Region, y: nat, sqrt: real -> real, total0: real, samples0: int)
    returns (total: real, samples: int)
    requires Advances(g.x0, g.x1, g.stepX) && BoxRowSafe(|buf|, w, y, Axis(g.x0, g.x1, g.stepX))
    ensures total == total0 + RowSum(TextRow(buf, w, y, Axis(g.x0, g.x1, g.stepX), sqrt), 0)
    ensures samples == samples0 + |Axis(g.x0, g.x1, g.stepX)|
  {
    var xs := Axis(g.x0, g.x1, g.stepX);
    ghost var row := TextRow(buf, w, y, xs, sqrt);
    AxisFirst(g.x0, g.x1, g.stepX);
    total, samples := total0, samples0;
    var x := g.x0;
    ghost var k := 0;
    while x < g.x1
      invariant k <= |xs| && (k < |xs| <==> x < g.x1) && (k < |xs| ==> xs[k] == x)
      invariant total + RowSum(row, k) == total0 + RowSum(row, 0)
      invariant samples == samples0 + k
      decreases |xs| - k
    {
      AxisNext(g.x0, g.x1, g.stepX, k);
      TextRowAt(buf, w, y, xs, sqrt, k, x);
      var sharpness := TextPoint(buf, w, x, y, sqrt);
      assert RowSum(row, k) == sharpness + RowSum(row, k + 1);
      total := total + sharpness;
      samples := samples + 1;
      x := x + g.stepX;
      k := k + 1;
    }
  }

  /** The outer loop of calculate_text_sharpness over the rows of the grid `g`. */
  method SampleTextGrid(buf: Bytes, w: Size, g: Region, sqrt: real -> real) returns (total: real, samples: int)
    requires g.Terminates() && BoxSafe(|buf|, w, g.Rows(), g.Columns())
    ensures total == GridSum(TextSamples(buf, w, g.Rows(), g.Columns(), sqrt), 0)
    ensures samples == |g.Rows()| * |g.Columns()|
  {
    var ys, xs := g.Rows(), g.Columns();
    ghost var m := TextSamples(buf, w, ys, xs, sqrt);
    AxisFirst(g.y0, g.y1, g.stepY);
    total, samples := 0.0, 0;
    var y := g.y0;
    ghost var j := 0;
    while y < g.y1
      invariant j <= |ys| && (j < |ys| <==> y < g.y1) && (j < |ys| ==> ys[j] == y)
      invariant total + GridSum(m, j) == GridSum(m, 0)
      invariant samples == j * |xs|
      decreases |ys| - j
    {
      AxisNext(g.y0, g.y1, g.stepY, j);
      assert BoxRowSafe(|buf|, w, y, xs);
      assert m[j] == TextRow(buf, w, y, xs, sqrt);
      assert GridSum(m, j) == RowSum(m[j], 0) + GridSum(m, j + 1);
      total, samples := SampleTextRow(buf, w, g, y, sqrt, total, samples);
      assert samples == (j + 1) * |xs| by {
        NextRow(j, |xs|);
      }
      y := y + g.stepY;
      j := j + 1;
    }
  }

  /** calculate_text_sharpness. */
  method CalculateTextSharpness(fb: Option<Frame>, sqrt: real -> real) returns (r: real)
    requires !NullOrEmpty(fb) ==> TextScorable(fb.value)
    ensures r == TextSharpnessOf(fb, sqrt)
    ensures NullOrEmpty(fb) ==> r == 0.0
  {
    if NullOrEmpty(fb) {
      return 0.0;
    }
    var f := fb.value;
    var total, samples := SampleTextGrid(f.buf.value, f.width, TextRegion(f.width, f.height), sqrt);
    r := if samples > 0 then total / samples as real else 0.0;
  }

  /** Emphasis scales by at least 0.3, so it keeps a gradient's sign and its being 0. */
  lemma EmphasisedZeroIff(gradient: real, c: real)
    requires 0.0 <= gradient && 0.0 <= c <= 1.0
    ensures 0.0 <= Emphasised(gradient, c)
    ensures Emphasised(gradient, c) == 0.0 <==> gradient == 0.0
  {
    var m := Emphasis(c);
    MulLe(0.0, gradient, m);
    if gradient * m == 0.0 && gradient != 0.0 {
      MulLeCancel(gradient, 0.0, m);
    }
  }

  /** Both Sobel responses vanish at every sampled point. */
  predicate Edgeless(buf: seq<byte>, w: nat, ys: seq<nat>, xs: seq<nat>)
    requires BoxSafe(|buf|, w, ys, xs)
  {
    forall j, k :: 0 <= j < |ys| && 0 <= k < |xs| ==>
      SobelX(buf, w, ys[j] * w + xs[k]) == 0 && SobelY(buf, w, ys[j] * w + xs[k]) == 0
  }

  /** The grid's samples are never negative, and they are all 0 exactly when no sampled point has any Sobel response. */
  lemma TextSamplesZeroIff(buf: seq<byte>, w: nat, ys: seq<nat>, xs: seq<nat>, sqrt: real -> real)
    requires IsSquareRoot(sqrt) && BoxSafe(|buf|, w, ys, xs)
    ensures NonNegativeFrom(TextSamples(buf, w, ys, xs, sqrt), 0)
    ensures ZeroFrom(TextSamples(buf, w, ys, xs, sqrt), 0) <==> Edgeless(buf, w, ys, xs)
  {
    var m := TextSamples(buf, w, ys, xs, sqrt);
    forall j, k | 0 <= j < |ys| && 0 <= k < |xs|
      ensures 0.0 <= m[j][k]
      ensures m[j][k] == 0.0 <==> SobelX(buf, w, ys[j] * w + xs[k]) == 0 && SobelY(buf, w, ys[j] * w + xs[k]) == 0
    {
      assert m[j][k] == TextSample(buf, w, ys[j] * w + xs[k], sqrt);
    }
    if Edgeless(buf, w, ys, xs) {
      forall j, k | 0 <= j < |m| && 0 <= k < |m[j]|
        ensures m[j][k] == 0.0
      {
        assert SobelX(buf, w, ys[j] * w + xs[k]) == 0 && SobelY(buf, w, ys[j] * w + xs[k]) == 0;
      }
    }
    if ZeroFrom(m, 0) {
      forall j, k | 0 <= j < |ys| && 0 <= k < |xs|
        ensures SobelX(buf, w, ys[j] * w + xs[k]) == 0 && SobelY(buf, w, ys[j] * w + xs[k]) == 0
      {
        assert m[j][k] == 0.0;
      }
    }
  }

  /**
   * The text score is never negative, and it is 0 exactly when no sample is
   * taken or no sampled point has any Sobel response.
   */
  lemma TextMeanZeroIff(buf: seq<byte>, w: nat, g: Region, sqrt: real -> real)
    requires IsSquareRoot(sqrt) && g.Terminates() && BoxSafe(|buf|, w, g.Rows(), g.Columns())
    ensures 0.0 <= TextMean(buf, w, g, sqrt)
    ensures TextMean(buf, w, g, sqrt) == 0.0 <==> g.Rows() == [] || g.Columns() == [] || Edgeless(buf, w, g.Rows(), g.Columns())
  {
    var ys, xs := g.Rows(), g.Columns();
    var m := TextSamples(buf, w, ys, xs, sqrt);
    TextSamplesZeroIff(buf, w, ys, xs, sqrt);
    GridSumZeroIff(m, 0);
    AverageZeroIff(GridSum(m, 0), |ys| * |xs|);
    ProductZeroIff(|ys|, |xs|);
  }

  /** No point of a uniform frame has a Sobel response. */
  lemma UniformIsEdgeless(buf: seq<byte>, w: nat, ys: seq<nat>, xs: seq<nat>, c: byte)
    requires BoxSafe(|buf|, w, ys, xs) && Uniform(buf, c)
    ensures Edgeless(buf, w, ys, xs)
  {
    forall j, k | 0 <= j < |ys| && 0 <= k < |xs|
      ensures SobelX(buf, w, ys[j] * w + xs[k]) == 0 && SobelY(buf, w, ys[j] * w + xs[k]) == 0
    {
      UniformBoxIsFlat(buf, w, ys[j] * w + xs[k], c);
      SobelFlat(buf, w, ys[j] * w + xs[k]);
    }
  }

  /** A uniform frame scores 0. */
  lemma UniformFrameHasNoText(fb: Option<Frame>, c: byte, sqrt: real -> real)
    requires IsSquareRoot(sqrt)
    requires !NullOrEmpty(fb) ==> TextScorable(fb.value) && Uniform(fb.value.buf.value, c)
    ensures TextSharpnessOf(fb, sqrt) == 0.0
  {
    if !NullOrEmpty(fb) {
      var f := fb.value;
      var g := TextRegion(f.width, f.height);
      UniformIsEdgeless(f.buf.value, f.width, g.Rows(), g.Columns(), c);
      TextMeanZeroIff(f.buf.value, f.width, g, sqrt);
    }
  }

  /** A 640 x 480 black frame crossed by a white vertical line one pixel wide at x = 320. */
  function VerticalLine(): (b: Bytes)
    ensures |b| == 640 * 480
  {
    seq(640 * 480, i => if i % 640 == 320 then 255 else 0)
  }

  /** The sample at offset `n` of the line frame. */
  lemma VerticalLineAt(n: nat)
    requires n < 640 * 480
    ensures VerticalLine()[n] == if n % 640 == 320 then 255 else 0
  {
  }

  /** (321, 80) is a grid point: the first row and a column five steps from 106 are sampled. */
  lemma VerticalLineOnGrid(g: Region)
    requires g == TextRegion(640, 480)
    ensures |g.Rows()| > 0 && g.Rows()[0] == 80 && 321 in g.Columns()
  {
    assert g.y0 == 80 && g.y1 == 400 && g.x0 == 106 && g.x1 == 533 && g.stepX == g.stepY == 5;
    AxisFirst(g.y0, g.y1, 5);
    AxisMembers(g.x0, g.x1, 5, 321);
  }

  /** At (321, 80), offset 51521, the horizontal Sobel response sees the line on its left. */
  lemma VerticalLineEdge()
    ensures SobelX(VerticalLine(), 640, 51521) == -1020
  {
    VerticalLineAt(50880);
    VerticalLineAt(50882);
    VerticalLineAt(51520);
    VerticalLineAt(51522);
    VerticalLineAt(52160);
    VerticalLineAt(52162);
  }

  /** The line scores above 0. */
  lemma VerticalLineIsSharp(sqrt: real -> real)
    requires IsSquareRoot(sqrt)
    ensures TextScorable(Frame(Some(VerticalLine()), 640, 480))
    ensures TextSharpnessOf(Some(Frame(Some(VerticalLine()), 640, 480)), sqrt) > 0.0
  {
    var buf := VerticalLine();
    LargeFrameIsTextScorable(Frame(Some(buf), 640, 480));
    var g := TextRegion(640, 480);
    var ys, xs := g.Rows(), g.Columns();
    VerticalLineOnGrid(g);
    VerticalLineEdge();
    var k :| 0 <= k < |xs| && xs[k] == 321;
    assert !Edgeless(buf, 640, ys, xs) by {
      assert ys[0] * 640 + xs[k] == 51521;
    }
    TextMeanZeroIff(buf, 640, g, sqrt);
  }

  /** The grid takes ceil((end - start) / 5) samples per axis. */
  lemma TextSampleCount(w: Size, h: Size)
    ensures var g := TextRegion(w, h);
      |g.Rows()| * |g.Columns()|
      == (if g.y0 < g.y1 then (g.y1 - g.y0 + 4) / 5 else 0) * (if g.x0 < g.x1 then (g.x1 - g.x0 + 4) / 5 else 0)
  {
    var g := TextRegion(w, h);
    AxisLength(g.y0, g.y1, 5);
    AxisLength(g.x0, g.x1, 5);
  }

  /** Every 3x3 window stays inside the frame when the frame is at least 6 x 6 and the buffer holds it. */
  lemma LargeFrameIsTextScorable(f: Frame)
    requires f.buf.Some? && 6 <= f.width && 6 <= f.height && f.width * f.height <= |f.buf.value|
    ensures TextScorable(f)
  {
    var g := TextRegion(f.width, f.height);
    assert g.x1 < f.width && g.y1 < f.height;
    InteriorIsSafe(|f.buf.value|, f.width, f.height, g);
  }

  /** A 640 x 480 frame whose buffer holds a single sample passes the `len` check, yet the C code reads outside that buffer. */
  lemma ShortBufferReadsOutsideText()
    ensures var b: Bytes := [0]; !NullOrEmpty(Some(Frame(Some(b), 640, 480))) && !TextScorable(Frame(Some(b), 640, 480))
  {
    var g := TextRegion(640, 480);
    AxisFirst(g.y0, g.y1, 5);
    AxisFirst(g.x0, g.x1, 5);
    assert !BoxAt(1, 640, g.Rows()[0] * 640 + g.Columns()[0]);
  }

  /**
   * On a 5 x 5 frame with a full buffer the grid starts at offset 0, so the
   * C code reads before the start of the buffer.
   */
  lemma SmallFrameReadsOutsideText()
    ensures TextRegion(5, 5) == Region(0, 4, 5, 0, 4, 5) && !BoxAt(25, 5, 0)
    ensures var b: Bytes := seq(25, _ => 0); !TextScorable(Frame(Some(b), 5, 5))
  {
    var g := TextRegion(5, 5);
    AxisFirst(g.y0, g.y1, 5);
    AxisFirst(g.x0, g.x1, 5);
    assert g.Rows()[0] * 5 + g.Columns()[0] == 0;
  }

  /**
   * The score with the checks the C code leaves out: the buffer must hold
   * `width * height` samples, and the frame must be at least 6 x 6 so that
   * the grid keeps one pixel away from every edge. A frame with no area
   * scores 0, as in the C code, where no sample is taken.
   */
  function CheckedTextSharpnessOf(fb: Option<Frame>, sqrt: real -> real): (r: Result<real, FrameError>)
    ensures !NullOrEmpty(fb) && (fb.value.width == 0 || fb.value.height == 0) ==> r == Ok(0.0)
    ensures r.Ok? && !NullOrEmpty(fb) && 0 < fb.value.width && 0 < fb.value.height
            ==> 6 <= fb.value.width && 6 <= fb.value.height && fb.value.width * fb.value.height <= |fb.value.buf.value|
    ensures !NullOrEmpty(fb) && 6 <= fb.value.width && 6 <= fb.value.height &&
              fb.value.width * fb.value.height <= |fb.value.buf.value|
            ==> r.Ok?
    ensures IsSquareRoot(sqrt) && r.Ok? ==> 0.0 <= r.value
  {
    if NullOrEmpty(fb) || fb.value.width == 0 || fb.value.height == 0 then Ok(0.0)
    else
      var f := fb.value;
      var buf := f.buf.value;
      if |buf| < f.width * f.height then Err(BufferTooShort)
      else if f.width < 6 || f.height < 6 then Err(FrameTooSmall)
      else
        LargeFrameIsTextScorable(f);
        var g := TextRegion(f.width, f.height);
        assert IsSquareRoot(sqrt) ==> 0.0 <= TextMean(buf, f.width, g, sqrt) by {
          if IsSquareRoot(sqrt) {
            TextMeanZeroIff(buf, f.width, g, sqrt);
          }
        }
        Ok(TextMean(buf, f.width, g, sqrt))
  }

  /**
   * On frames with no area, and on frames of at least 6 x 6 with a full
   * buffer, the C code scores safely and the checked score is the same.
   */
  lemma CheckedTextAgrees(fb: Option<Frame>, sqrt: real -> real)
    requires !NullOrEmpty(fb) ==>
               fb.value.width == 0 || fb.value.height == 0 ||
               (6 <= fb.value.width && 6 <= fb.value.height && fb.value.width * fb.value.height <= |fb.value.buf.value|)
    ensures !NullOrEmpty(fb) ==> TextScorable(fb.value)
    ensures CheckedTextSharpnessOf(fb, sqrt) == Ok(TextSharpnessOf(fb, sqrt))
  {
    if !NullOrEmpty(fb) {
      var f := fb.value;
      if f.width == 0 || f.height == 0 {
        var g := TextRegion(f.width, f.height);
        assert g.Rows() == [] || g.Columns() == [];
      } else {
        LargeFrameIsTextScorable(f);
      }
    }
  }

  /** calculate_text_sharpness with the missing checks added. */
  method CheckedTextSharpness(fb: Option<Frame>, sqrt: real -> real) returns (r: Result<real, FrameError>)
    ensures r == CheckedTextSharpnessOf(fb, sqrt)
  {
    if NullOrEmpty(fb) || fb.value.width == 0 || fb.value.height == 0 {
      return Ok(0.0);
    }
    var f := fb.value;
    var buf := f.buf.value;
    if |buf| < f.width * f.height {
      return Err(BufferTooShort);
    }
    if f.width < 6 || f.height < 6 {
      return Err(FrameTooSmall);
    }
    var g := TextRegion(f.width, f.height);
    LargeFrameIsTextScorable(f);
    var total, samples := SampleTextGrid(buf, f.width, g, sqrt);
    r := Ok(if samples > 0 then total / samples as real else 0.0);
  }
}
