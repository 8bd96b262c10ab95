/**
 * calculate_weighted_sharpness: a 5-point Laplacian sampled on a coarse grid
 * over the central half of the frame, each sample weighted 1.0 inside the
 * central third and 0.5 outside it, averaged by weight.
 */
module Sharpness {
  import opened Wrappers
  import opened Frames
  import opened Sampling
  import opened Sums

  /**
   * The grid as the C code sets it up: rows from height/4 below height*3/4 in
   * steps of height/15, columns from width/4 below width*3/4 in steps of
   * width/20, all in `size_t` arithmetic.
   */
  function SharpnessRegion(w: Size, h: Size): (g: Region)
    ensures g.x1 <= w && g.y1 <= h
    ensures 20 <= w && 15 <= h ==> g.Terminates()
  {
    Region(w / 4, Wrap(w * 3) / 4, w / 20, h / 4, Wrap(h * 3) / 4, h / 15)
  }

  /** |4p - left - right - above - below| at offset `i`, computed in `int` after promotion. */
  function Laplacian(buf: seq<byte>, w: nat, i: int): (r: nat)
    requires CrossAt(|buf|, w, i)
    ensures r <= 1020
    ensures Px(buf, i - 1) == Px(buf, i + 1) == Px(buf, i - w) == Px(buf, i + w) == Px(buf, i) ==> r == 0
  {
    Abs(4 * Px(buf, i) - Px(buf, i - 1) - Px(buf, i + 1) - Px(buf, i - w) - Px(buf, i + w))
  }

  /**
   * 1.0 inside the central third and 0.5 outside it. The upper bounds are
   * inclusive because the C test for the periphery is `x > width*2/3`.
   */
  function Weight(w: Size, h: Size, x: nat, y: nat): (r: real)
    ensures r == 1.0 || r == 0.5
    ensures r == 1.0 <==> w / 3 <= x <= Wrap(w * 2) / 3 && h / 3 <= y <= Wrap(h * 2) / 3
  {
    if x < w / 3 || x > Wrap(w * 2) / 3 || y < h / 3 || y > Wrap(h * 2) / 3 then 0.5 else 1.0
  }

  /** Every point of row `y` at columns `xs` has its cross stencil inside the buffer. */
  predicate RowSafe(buf: seq<byte>, w: nat, y: nat, xs: seq<nat>) {
    forall k :: 0 <= k < |xs| ==> CrossAt(|buf|, w, y * w + xs[k])
  }

  /** The weighted Laplacian at (x, y). */
  function Contribution(buf: seq<byte>, w: Size, h: Size, x: nat, y: nat): (r: real)
    requires CrossAt(|buf|, w, y * w + x)
    ensures Laplacian(buf, w, y * w + x) as real / 2.0 <= r <= Laplacian(buf, w, y * w + x) as real
  {
    Laplacian(buf, w, y * w + x) as real * Weight(w, h, x, y)
  }

  /** The sum of the weighted Laplacians along row `y` at the columns `xs[k..]`. */
  function RowSharpness(buf: seq<byte>, w: Size, h: Size, y: nat, xs: seq<nat>, k: nat): real
    requires k <= |xs| && RowSafe(buf, w, y, xs)
    decreases |xs| - k
  {
    if k == |xs| then 0.0 else Contribution(buf, w, h, xs[k], y) + RowSharpness(buf, w, h, y, xs, k + 1)
  }

  /** The sum of the weights along row `y` at the columns `xs[k..]`: between half a unit and a unit per point. */
  function RowWeight(w: Size, h: Size, y: nat, xs: seq<nat>, k: nat): (r: real)
    requires k <= |xs|
    ensures 0.5 * (|xs| - k) as real <= r <= (|xs| - k) as real
    decreases |xs| - k
  {
    if k == |xs| then 0.0 else Weight(w, h, xs[k], y) + RowWeight(w, h, y, xs, k + 1)
  }

  /**
   * The weighted Laplacians summed over the rows `ys[j..]` and the columns `xs`.
   * This recursion follows the C loops, and `SampleGrid` is proved against it;
   * `GridSharpnessIsSum` equates it with `GridSum` of a matrix, the form the
   * generic bounds in `Sums` are stated on.
   */
  function GridSharpness(buf: seq<byte>, w: Size, h: Size, ys: seq<nat>, xs: seq<nat>, j: nat): real
    requires j <= |ys| && CrossSafe(|buf|, w, ys, xs)
    decreases |ys| - j
  {
    if j == |ys| then 0.0
    else
      assert RowSafe(buf, w, ys[j], xs);
      RowSharpness(buf, w, h, ys[j], xs, 0) + GridSharpness(buf, w, h, ys, xs, j + 1)
  }

  /** The weights summed over the rows `ys[j..]` and the columns `xs`; positive exactly when a point remains. */
  function GridWeight(w: Size, h: Size, ys: seq<nat>, xs: seq<nat>, j: nat): (r: real)
    requires j <= |ys|
    ensures 0.0 <= r
    ensures 0.0 < r <==> j < |ys| && xs != []
    decreases |ys| - j
  {
    if j == |ys| then 0.0 else RowWeight(w, h, ys[j], xs, 0) + GridWeight(w, h, ys, xs, j + 1)
  }

  /** total_sharpness / total_weight, or 0 when the total weight is 0. */
  function WeightedMean(buf: seq<byte>, w: Size, h: Size, g: Region): real
    requires g.Terminates() && CrossSafe(|buf|, w, g.Rows(), g.Columns())
  {
    var total := GridSharpness(buf, w, h, g.Rows(), g.Columns(), 0);
    var weight := GridWeight(w, h, g.Rows(), g.Columns(), 0);
    if weight > 0.0 then total / weight else 0.0
  }

  /**
   * What the C code needs of a non-empty frame and does not check: both
   * loops advance, and every stencil read lies inside the buffer.
   */
  predicate Scorable(f: Frame) {
    var g := SharpnessRegion(f.width, f.height);
    f.buf.Some? && g.Terminates() && CrossSafe(|f.buf.value|, f.width, g.Rows(), g.Columns())
  }

  /** The score calculate_weighted_sharpness returns: 0 for a null or empty frame, and otherwise within the Laplacian's range. */
  function WeightedSharpnessOf(fb: Option<Frame>): (r: real)
    requires !NullOrEmpty(fb) ==> Scorable(fb.value)
    ensures NullOrEmpty(fb) ==> r == 0.0
    ensures 0.0 <= r <= 1020.0
  {
    if NullOrEmpty(fb) then 0.0
    else
      var f := fb.value;
      var g := SharpnessRegion(f.width, f.height);
      WeightedMeanRange(f.buf.value, f.width, f.height, g);
      WeightedMean(f.buf.value, f.width, f.height, g)
  }

  /** The body of the inner loop: the Laplacian at (x, y) and the weight of that point. */
  method SamplePoint(buf: Bytes, w: Size, h: Size, x: nat, y: nat) returns (laplacian: nat, weight: real)
    requires CrossAt(|buf|, w, y * w + x)
    ensures laplacian == Laplacian(buf, w, y * w + x) && weight == Weight(w, h, x, y)
    ensures laplacian as real * weight == Contribution(buf, w, h, x, y)
  {
    var idx := y * w + x;
    laplacian := Abs(4 * buf[idx] as int - buf[idx - 1] as int - buf[idx + 1] as int
                     - buf[idx - w] as int - buf[idx + w] as int);
    weight := 1.0;
    if x < w / 3 || x > Wrap(w * 2) / 3 || y < h / 3 || y > Wrap(h * 2) / 3 {
      weight := 0.5;
    }
  }

  /**
   * The inner loop of calculate_weighted_sharpness: row `y` of the grid `g`,
   * added to the running totals `sharpness0` and `weight0`.
   */
  method SampleRow(buf: Bytes, w: Size, h: Size, g: Region, y: nat, sharpness0: real, weight0: real)
    returns (totalSharpness: real, totalWeight: real)
    requires Advances(g.x0, g.x1, g.stepX) && RowSafe(buf, w, y, Axis(g.x0, g.x1, g.stepX))
    ensures totalSharpness == sharpness0 + RowSharpness(buf, w, h, y, Axis(g.x0, g.x1, g.stepX), 0)
    ensures totalWeight == weight0 + RowWeight(w, h, y, Axis(g.x0, g.x1, g.stepX), 0)
  {
    var xs := Axis(g.x0, g.x1, g.stepX);
    AxisFirst(g.x0, g.x1, g.stepX);
    totalSharpness, totalWeight := sharpness0, weight0;
    var x := g.x0;
    ghost var k := 0;
    while x < g.x1
      invariant k <= |xs| && (k < |xs| <==> x < g.x1) && (k < |xs| ==> xs[k] == x)
      invariant totalSharpness + RowSharpness(buf, w, h, y, xs, k) == sharpness0 + RowSharpness(buf, w, h, y, xs, 0)
      invariant totalWeight + RowWeight(w, h, y, xs, k) == weight0 + RowWeight(w, h, y, xs, 0)
      decreases |xs| - k
    {
      AxisNext(g.x0, g.x1, g.stepX, k);
      assert RowSharpness(buf, w, h, y, xs, k) == Contribution(buf, w, h, x, y) + RowSharpness(buf, w, h, y, xs, k + 1);
      assert RowWeight(w, h, y, xs, k) == Weight(w, h, x, y) + RowWeight(w, h, y, xs, k + 1);
      var laplacian, weight := SamplePoint(buf, w, h, x, y);
      totalSharpness := totalSharpness + laplacian as real * weight;
      totalWeight := totalWeight + weight;
      x := x + g.stepX;
      k := k + 1;
    }
  }

  /** The outer loop of calculate_weighted_sharpness over the rows of the grid `g`. */
  method SampleGrid(buf: Bytes, w: Size, h: Size, g: Region) returns (totalSharpness: real, totalWeight: real)
    requires g.Terminates() && CrossSafe(|buf|, w, g.Rows(), g.Columns())
    ensures totalSharpness == GridSharpness(buf, w, h, g.Rows(), g.Columns(), 0)
    ensures totalWeight == GridWeight(w, h, g.Rows(), g.Columns(), 0)
  {
    var ys, xs := g.Rows(), g.Columns();
    AxisFirst(g.y0, g.y1, g.stepY);
    totalSharpness, totalWeight := 0.0, 0.0;
    var y := g.y0;
    ghost var j := 0;
    while y < g.y1
      invariant j <= |ys| && (j < |ys| <==> y < g.y1) && (j < |ys| ==> ys[j] == y)
      invariant totalSharpness + GridSharpness(buf, w, h, ys, xs, j) == GridSharpness(buf, w, h, ys, xs, 0)
      invariant totalWeight + GridWeight(w, h, ys, xs, j) == GridWeight(w, h, ys, xs, 0)
      decreases |ys| - j
    {
      AxisNext(g.y0, g.y1, g.stepY, j);
      assert RowSafe(buf, w, y, xs);
      totalSharpness, totalWeight := SampleRow(buf, w, h, g, y, totalSharpness, totalWeight);
      y := y + g.stepY;
      j := j + 1;
    }
  }

  /** calculate_weighted_sharpness. */
  method CalculateWeightedSharpness(fb: Option<Frame>) returns (r: real)
    requires !NullOrEmpty(fb) ==> Scorable(fb.value)
    ensures r == WeightedSharpnessOf(fb)
    ensures NullOrEmpty(fb) ==> r == 0.0
  {
    if NullOrEmpty(fb) {
      return 0.0;
    }
    var f := fb.value;
    var totalSharpness, totalWeight := SampleGrid(f.buf.value, f.width, f.height, SharpnessRegion(f.width, f.height));
    r := if totalWeight > 0.0 then totalSharpness / totalWeight else 0.0;
  }

  /** Every Laplacian sampled on row `y` at the columns `xs[k..]` is 0. */
  predicate RowFlat(buf: seq<byte>, w: nat, y: nat, xs: seq<nat>, k: nat)
    requires RowSafe(buf, w, y, xs)
  {
    forall i :: k <= i < |xs| ==> Laplacian(buf, w, y * w + xs[i]) == 0
  }

  /** Every Laplacian sampled on the rows `ys[j..]` and the columns `xs` is 0. */
  predicate FlatFrom(buf: seq<byte>, w: nat, ys: seq<nat>, xs: seq<nat>, j: nat)
    requires CrossSafe(|buf|, w, ys, xs)
  {
    forall j' :: j <= j' < |ys| ==> RowSafe(buf, w, ys[j'], xs) && RowFlat(buf, w, ys[j'], xs, 0)
  }

  /** Along one row the weighted sum lies between 0 and 1020 times the total weight. */
  lemma {:induction false} RowBounded(buf: seq<byte>, w: Size, h: Size, y: nat, xs: seq<nat>, k: nat)
    requires k <= |xs| && RowSafe(buf, w, y, xs)
    ensures 0.0 <= RowSharpness(buf, w, h, y, xs, k) <= 1020.0 * RowWeight(w, h, y, xs, k)
    decreases |xs| - k
  {
    if k < |xs| {
      RowBounded(buf, w, h, y, xs, k + 1);
      if Weight(w, h, xs[k], y) == 1.0 {
        assert Contribution(buf, w, h, xs[k], y) <= 1020.0;
      } else {
        assert Contribution(buf, w, h, xs[k], y) <= 510.0;
      }
    }
  }

  /** Along one row the weighted sum is 0 exactly when every Laplacian on the row is. */
  lemma {:induction false} RowZero(buf: seq<byte>, w: Size, h: Size, y: nat, xs: seq<nat>, k: nat)
    requires k <= |xs| && RowSafe(buf, w, y, xs)
    ensures RowSharpness(buf, w, h, y, xs, k) == 0.0 <==> RowFlat(buf, w, y, xs, k)
    decreases |xs| - k
  {
    if k < |xs| {
      var c, tail := Contribution(buf, w, h, xs[k], y), RowSharpness(buf, w, h, y, xs, k + 1);
      assert RowSharpness(buf, w, h, y, xs, k) == c + tail;
      assert 0.0 <= tail && (tail == 0.0 <==> RowFlat(buf, w, y, xs, k + 1)) by {
        RowZero(buf, w, h, y, xs, k + 1);
        RowBounded(buf, w, h, y, xs, k + 1);
      }
      assert 0.0 <= c && (c == 0.0 <==> Laplacian(buf, w, y * w + xs[k]) == 0);
      assert RowFlat(buf, w, y, xs, k) <==> Laplacian(buf, w, y * w + xs[k]) == 0 && RowFlat(buf, w, y, xs, k + 1);
    }
  }

  /** Over the rows `ys[j..]` the weighted sum lies between 0 and 1020 times the total weight. */
  lemma {:induction false} GridBounded(buf: seq<byte>, w: Size, h: Size, ys: seq<nat>, xs: seq<nat>, j: nat)
    requires j <= |ys| && CrossSafe(|buf|, w, ys, xs)
    ensures 0.0 <= GridSharpness(buf, w, h, ys, xs, j) <= 1020.0 * GridWeight(w, h, ys, xs, j)
    decreases |ys| - j
  {
    if j < |ys| {
      GridBounded(buf, w, h, ys, xs, j + 1);
      assert RowSafe(buf, w, ys[j], xs);
      RowBounded(buf, w, h, ys[j], xs, 0);
    }
  }

  /** Over the rows `ys[j..]` the weighted sum is 0 exactly when every sampled Laplacian is. */
  lemma {:induction false} GridZero(buf: seq<byte>, w: Size, h: Size, ys: seq<nat>, xs: seq<nat>, j: nat)
    requires j <= |ys| && CrossSafe(|buf|, w, ys, xs)
    ensures GridSharpness(buf, w, h, ys, xs, j) == 0.0 <==> FlatFrom(buf, w, ys, xs, j)
    decreases |ys| - j
  {
    if j < |ys| {
      assert RowSafe(buf, w, ys[j], xs);
      var row, rest := RowSharpness(buf, w, h, ys[j], xs, 0), GridSharpness(buf, w, h, ys, xs, j + 1);
      assert GridSharpness(buf, w, h, ys, xs, j) == row + rest;
      assert 0.0 <= row && 0.0 <= rest by {
        RowBounded(buf, w, h, ys[j], xs, 0);
        GridBounded(buf, w, h, ys, xs, j + 1);
      }
      assert row == 0.0 <==> RowFlat(buf, w, ys[j], xs, 0) by {
        RowZero(buf, w, h, ys[j], xs, 0);
      }
      assert rest == 0.0 <==> FlatFrom(buf, w, ys, xs, j + 1) by {
        GridZero(buf, w, h, ys, xs, j + 1);
      }
      assert FlatFrom(buf, w, ys, xs, j) <==> RowFlat(buf, w, ys[j], xs, 0) && FlatFrom(buf, w, ys, xs, j + 1);
    }
  }

  /** Every Laplacian sampled on row `y` at the columns `xs[k..]` lies in [lo, hi]. */
  predicate RowWithin(buf: seq<byte>, w: nat, y: nat, xs: seq<nat>, k: nat, lo: real, hi: real)
    requires RowSafe(buf, w, y, xs)
  {
    forall i :: k <= i < |xs| ==> lo <= Laplacian(buf, w, y * w + xs[i]) as real <= hi
  }

  /** Every Laplacian sampled on the rows `ys[j..]` and the columns `xs` lies in [lo, hi]. */
  predicate GridWithin(buf: seq<byte>, w: nat, ys: seq<nat>, xs: seq<nat>, j: nat, lo: real, hi: real)
    requires CrossSafe(|buf|, w, ys, xs)
  {
    forall j' :: j <= j' < |ys| ==> RowSafe(buf, w, ys[j'], xs) && RowWithin(buf, w, ys[j'], xs, 0, lo, hi)
  }

  /** The Laplacians sampled on the grid, one row per value of `y`. */
  function Laplacians(buf: seq<byte>, w: Size, ys: seq<nat>, xs: seq<nat>): (m: seq<seq<real>>)
    requires CrossSafe(|buf|, w, ys, xs)
    ensures |m| == |ys| && forall j :: 0 <= j < |ys| ==> |m[j]| == |xs|
  {
    seq(|ys|, j requires 0 <= j < |ys| =>
      seq(|xs|, k requires 0 <= k < |xs| => Laplacian(buf, w, ys[j] * w + xs[k]) as real))
  }

  /** The weights of the sampled points, one row per value of `y`: never negative. */
  function Weights(w: Size, h: Size, ys: seq<nat>, xs: seq<nat>): (m: seq<seq<real>>)
    ensures |m| == |ys| && forall j :: 0 <= j < |ys| ==> |m[j]| == |xs|
    ensures NonNegativeFrom(m, 0)
  {
    seq(|ys|, j requires 0 <= j < |ys| => seq(|xs|, k requires 0 <= k < |xs| => Weight(w, h, xs[k], ys[j])))
  }

  /** Along a row, the recursive sum of weighted Laplacians is the total of the row `c` holding them. */
  lemma {:induction false} RowSharpnessIsSum(buf: seq<byte>, w: Size, h: Size, y: nat, xs: seq<nat>, c: seq<real>, k: nat)
    requires k <= |xs| && RowSafe(buf, w, y, xs) && |c| == |xs|
    requires forall i :: k <= i < |xs| ==> c[i] == Contribution(buf, w, h, xs[i], y)
    ensures RowSharpness(buf, w, h, y, xs, k) == RowSum(c, k)
    decreases |xs| - k
  {
    if k < |xs| {
      RowSharpnessIsSum(buf, w, h, y, xs, c, k + 1);
    }
  }

  /** Along a row, the recursive sum of weights is the total of the row `wt` holding them. */
  lemma {:induction false} RowWeightIsSum(w: Size, h: Size, y: nat, xs: seq<nat>, wt: seq<real>, k: nat)
    requires k <= |xs| && |wt| == |xs|
    requires forall i :: k <= i < |xs| ==> wt[i] == Weight(w, h, xs[i], y)
    ensures RowWeight(w, h, y, xs, k) == RowSum(wt, k)
    decreases |xs| - k
  {
    if k < |xs| {
      RowWeightIsSum(w, h, y, xs, wt, k + 1);
    }
  }

  /** The matrix `m` holds the weighted Laplacian of every sampled point. */
  predicate HoldsContributions(buf: seq<byte>, w: Size, h: Size, ys: seq<nat>, xs: seq<nat>, m: seq<seq<real>>)
    requires CrossSafe(|buf|, w, ys, xs)
  {
    |m| == |ys| &&
    forall j :: 0 <= j < |ys| ==>
      |m[j]| == |xs| && forall i :: 0 <= i < |xs| ==> m[j][i] == Contribution(buf, w, h, xs[i], ys[j])
  }

  /** The Laplacians weighted cell by cell are the weighted Laplacians of the sampled points. */
  lemma WeightedSamples(buf: seq<byte>, w: Size, h: Size, ys: seq<nat>, xs: seq<nat>)
    requires CrossSafe(|buf|, w, ys, xs)
    ensures HoldsContributions(buf, w, h, ys, xs, Products(Laplacians(buf, w, ys, xs), Weights(w, h, ys, xs)))
  {
    var l, wt := Laplacians(buf, w, ys, xs), Weights(w, h, ys, xs);
    var c := Products(l, wt);
    forall j, i | 0 <= j < |ys| && 0 <= i < |xs|
      ensures c[j][i] == Contribution(buf, w, h, xs[i], ys[j])
    {
      assert c[j][i] == l[j][i] * wt[j][i];
    }
  }

  /** Over the rows `ys[j..]`, the recursive sum of weighted Laplacians is the total of a matrix holding them. */
  lemma {:induction false} GridSharpnessIsSum(buf: seq<byte>, w: Size, h: Size, ys: seq<nat>, xs: seq<nat>, m: seq<seq<real>>, j: nat)
    requires CrossSafe(|buf|, w, ys, xs) && j <= |ys| && HoldsContributions(buf, w, h, ys, xs, m)
    ensures GridSharpness(buf, w, h, ys, xs, j) == GridSum(m, j)
    decreases |ys| - j
  {
    if j < |ys| {
      assert RowSafe(buf, w, ys[j], xs);
      RowSharpnessIsSum(buf, w, h, ys[j], xs, m[j], 0);
      GridSharpnessIsSum(buf, w, h, ys, xs, m, j + 1);
    }
  }

  /** Over the rows `ys[j..]`, the recursive sum of weights is the total of the weights. */
  lemma {:induction false} GridWeightIsSum(w: Size, h: Size, ys: seq<nat>, xs: seq<nat>, j: nat)
    requires j <= |ys|
    ensures GridWeight(w, h, ys, xs, j) == GridSum(Weights(w, h, ys, xs), j)
    decreases |ys| - j
  {
    if j < |ys| {
      RowWeightIsSum(w, h, ys[j], xs, Weights(w, h, ys, xs)[j], 0);
      GridWeightIsSum(w, h, ys, xs, j + 1);
    }
  }

  /** Every sampled Laplacian lies in [lo, hi] in the sense of the matrix of samples too. */
  lemma LaplaciansWithin(buf: seq<byte>, w: Size, ys: seq<nat>, xs: seq<nat>, lo: real, hi: real)
    requires CrossSafe(|buf|, w, ys, xs) && GridWithin(buf, w, ys, xs, 0, lo, hi)
    ensures AllBetween(Laplacians(buf, w, ys, xs), lo, hi)
  {
    var m := Laplacians(buf, w, ys, xs);
    forall j, k | 0 <= j < |m| && 0 <= k < |m[j]|
      ensures lo <= m[j][k] <= hi
    {
      assert RowWithin(buf, w, ys[j], xs, 0, lo, hi);
    }
  }

  /**
   * The weighted mean lies in [0, 1020]. It is 0 exactly when no point was
   * sampled or every sampled Laplacian is 0.
   */
  lemma WeightedMeanRange(buf: seq<byte>, w: Size, h: Size, g: Region)
    requires g.Terminates() && CrossSafe(|buf|, w, g.Rows(), g.Columns())
    ensures 0.0 <= WeightedMean(buf, w, h, g) <= 1020.0
    ensures WeightedMean(buf, w, h, g) == 0.0
            <==> g.Rows() == [] || g.Columns() == [] || FlatFrom(buf, w, g.Rows(), g.Columns(), 0)
  {
    var ys, xs := g.Rows(), g.Columns();
    GridBounded(buf, w, h, ys, xs, 0);
    GridZero(buf, w, h, ys, xs, 0);
    if GridWeight(w, h, ys, xs, 0) > 0.0 {
      MeanBetween(GridSharpness(buf, w, h, ys, xs, 0), GridWeight(w, h, ys, xs, 0), 0.0, 1020.0);
    } else {
      assert ys == [] || xs == [];
    }
  }

  /**
   * The weighted mean lies between the smallest and the largest sampled
   * Laplacian: whenever every sampled Laplacian lies in [lo, hi] and a point
   * was sampled, so does the score.
   */
  lemma WeightedMeanBetween(buf: seq<byte>, w: Size, h: Size, g: Region, lo: real, hi: real)
    requires g.Terminates() && CrossSafe(|buf|, w, g.Rows(), g.Columns())
    requires g.Rows() != [] && g.Columns() != [] && GridWithin(buf, w, g.Rows(), g.Columns(), 0, lo, hi)
    ensures lo <= WeightedMean(buf, w, h, g) <= hi
  {
    var ys, xs := g.Rows(), g.Columns();
    WeightedSamples(buf, w, h, ys, xs);
    GridSharpnessIsSum(buf, w, h, ys, xs, Products(Laplacians(buf, w, ys, xs), Weights(w, h, ys, xs)), 0);
    GridWeightIsSum(w, h, ys, xs, 0);
    LaplaciansWithin(buf, w, ys, xs, lo, hi);
    GridMeanBetween(Laplacians(buf, w, ys, xs), Weights(w, h, ys, xs), lo, hi);
  }

  /** A uniform frame has weighted sharpness 0. */
  lemma UniformFrameIsNotSharp(fb: Option<Frame>, c: byte)
    requires !NullOrEmpty(fb) ==> Scorable(fb.value) && Uniform(fb.value.buf.value, c)
    ensures WeightedSharpnessOf(fb) == 0.0
  {
    if !NullOrEmpty(fb) {
      var f := fb.value;
      var g := SharpnessRegion(f.width, f.height);
      var buf := f.buf.value;
      WeightedMeanRange(buf, f.width, f.height, g);
      forall j, k | 0 <= j < |g.Rows()| && 0 <= k < |g.Columns()|
        ensures Laplacian(buf, f.width, g.Rows()[j] * f.width + g.Columns()[k]) == 0
      {
        var i := g.Rows()[j] * f.width + g.Columns()[k];
        assert buf[i] == buf[i - 1] == buf[i + 1] == buf[i - f.width] == buf[i + f.width] == c;
      }
      assert FlatFrom(buf, f.width, g.Rows(), g.Columns(), 0);
    }
  }

  /**
   * For frames whose dimensions do not wrap when tripled, the two loops
   * finish exactly when the frame is at most one row high, or at least 15
   * rows high and either at most one column or at least 20 columns wide.
   */
  lemma SharpnessTerminatesIff(w: Size, h: Size)
    requires w * 3 < SizeLimit && h * 3 < SizeLimit
    ensures SharpnessRegion(w, h).Terminates() <==> h <= 1 || (15 <= h && (w <= 1 || 20 <= w))
  {
    var g := SharpnessRegion(w, h);
    assert g.y1 <= g.y0 <==> h <= 1;
    assert g.x1 <= g.x0 <==> w <= 1;
    assert 0 < g.stepY <==> 15 <= h;
    assert 0 < g.stepX <==> 20 <= w;
  }

  /** A frame of at least 20 x 15 pixels whose buffer holds every pixel is scored without a read outside it. */
  lemma LargeFrameIsScorable(f: Frame)
    requires f.buf.Some? && 20 <= f.width && 15 <= f.height && f.width * f.height <= |f.buf.value|
    ensures Scorable(f)
  {
    InteriorIsSafe(|f.buf.value|, f.width, f.height, SharpnessRegion(f.width, f.height));
  }

  /** A 640 x 14 frame: the row loop is entered but its step is 0, so it never ends. */
  lemma ShortFrameStalls()
    ensures var g := SharpnessRegion(640, 14); g.y0 < g.y1 && g.stepY == 0 && !g.Terminates()
  {
  }

  /**
   * A 640 x 480 frame whose buffer holds one byte passes the `len != 0`
   * test, yet the first sampled point, (160, 120), reads far past the end.
   */
  lemma ShortBufferReadsOutside()
    ensures var b: Bytes := [0]; var f := Frame(Some(b), 640, 480);
      var g := SharpnessRegion(640, 480);
      !NullOrEmpty(Some(f)) && g.Rows()[0] == 120 && g.Columns()[0] == 160
      && !CrossAt(|f.buf.value|, 640, 120 * 640 + 160) && !Scorable(f)
  {
    var g := SharpnessRegion(640, 480);
    AxisFirst(g.y0, g.y1, g.stepY);
    AxisFirst(g.x0, g.x1, g.stepX);
  }

  /** The sampling grid with each step raised to at least 1, so both loops always finish. */
  function FixedSharpnessRegion(w: Size, h: Size): (g: Region)
    ensures g.Terminates()
    ensures 20 <= w && 15 <= h ==> g == SharpnessRegion(w, h)
  {
    Region(w / 4, Wrap(w * 3) / 4, Max(1, w / 20), h / 4, Wrap(h * 3) / 4, Max(1, h / 15))
  }

  /**
   * The score with the checks the C code leaves out: the buffer must hold
   * `width * height` samples, and the frame must be at least 4 x 4 so that
   * the grid keeps one pixel away from every edge. A frame with no area
   * scores 0, as in the C code, where no sample is taken.
   */
  function CheckedSharpnessOf(fb: Option<Frame>): (r: Result<real, FrameError>)
    ensures !NullOrEmpty(fb) && (fb.value.width == 0 || fb.value.height == 0) ==> r == Ok(0.0)
    ensures r.Ok? && !NullOrEmpty(fb) && 0 < fb.value.width && 0 < fb.value.height
            ==> 4 <= fb.value.width && 4 <= fb.value.height && fb.value.width * fb.value.height <= |fb.value.buf.value|
    ensures !NullOrEmpty(fb) && 4 <= fb.value.width && 4 <= fb.value.height &&
              fb.value.width * fb.value.height <= |fb.value.buf.value|
            ==> r.Ok?
    ensures r.Ok? ==> 0.0 <= r.value <= 1020.0
  {
    if NullOrEmpty(fb) || fb.value.width == 0 || fb.value.height == 0 then Ok(0.0)
    else
      var f := fb.value;
      var buf := f.buf.value;
      if |buf| < f.width * f.height then Err(BufferTooShort)
      else if f.width < 4 || f.height < 4 then Err(FrameTooSmall)
      else
        InteriorIsSafe(|buf|, f.width, f.height, FixedSharpnessRegion(f.width, f.height));
        WeightedMeanRange(buf, f.width, f.height, FixedSharpnessRegion(f.width, f.height));
        Ok(WeightedMean(buf, f.width, f.height, FixedSharpnessRegion(f.width, f.height)))
  }

  /**
   * On frames of at least 20 x 15 with a full buffer, and on frames with no
   * area whose loops finish (no rows, or no columns and a row stride of at
   * least 1), the C code scores safely and in finite time, and the checked
   * score is the same.
   */
  lemma CheckedAgrees(fb: Option<Frame>)
    requires !NullOrEmpty(fb) ==>
               fb.value.height == 0 ||
               (fb.value.width == 0 && (fb.value.height == 1 || 15 <= fb.value.height)) ||
               (20 <= fb.value.width && 15 <= fb.value.height && fb.value.width * fb.value.height <= |fb.value.buf.value|)
    ensures !NullOrEmpty(fb) ==> Scorable(fb.value)
    ensures CheckedSharpnessOf(fb) == Ok(WeightedSharpnessOf(fb))
  {
    if !NullOrEmpty(fb) {
      var f := fb.value;
      if f.width == 0 || f.height == 0 {
        var g := SharpnessRegion(f.width, f.height);
        assert g.Terminates();
        assert g.Rows() == [] || g.Columns() == [];
      } else {
        LargeFrameIsScorable(f);
      }
    }
  }

  /** calculate_weighted_sharpness with the missing checks added and the steps kept positive. */
  method CheckedWeightedSharpness(fb: Option<Frame>) returns (r: Result<real, FrameError>)
    ensures r == CheckedSharpnessOf(fb)
  {
    if NullOrEmpty(fb) || fb.value.width == 0 || fb.value.height == 0 {
      return Ok(0.0);
    }
    var f := fb.value;
    var buf := f.buf.value;
    if |buf| < f.width * f.height {
      return Err(BufferTooShort);
    }
    if f.width < 4 || f.height < 4 {
      return Err(FrameTooSmall);
    }
    var g := FixedSharpnessRegion(f.width, f.height);
    InteriorIsSafe(|buf|, f.width, f.height, g);
    var totalSharpness, totalWeight := SampleGrid(buf, f.width, f.height, g);
    r := Ok(if totalWeight > 0.0 then totalSharpness / totalWeight else 0.0);
  }
}
