/**
 * The running totals of the text and quality scorers. The samples taken on
 * a grid are laid out as a matrix, one row per value of `y` and one column
 * per value of `x`; the loops add them up row by row, left to right.
 */
module Sums {

  /** The samples `r[k..]` of one row, added up. */
  function RowSum(r: seq<real>, k: nat): real
    requires k <= |r|
    decreases |r| - k
  {
    if k == |r| then 0.0 else r[k] + RowSum(r, k + 1)
  }

  /** The rows `m[j..]`, added up. */
  function GridSum(m: seq<seq<real>>, j: nat): real
    requires j <= |m|
    decreases |m| - j
  {
    if j == |m| then 0.0 else RowSum(m[j], 0) + GridSum(m, j + 1)
  }

  /** Every sample from row `j` on is non-negative. */
  predicate NonNegativeFrom(m: seq<seq<real>>, j: nat) {
    forall j' :: j <= j' < |m| ==> forall k :: 0 <= k < |m[j']| ==> 0.0 <= m[j'][k]
  }

  /** Every sample from row `j` on is 0. */
  predicate ZeroFrom(m: seq<seq<real>>, j: nat) {
    forall j' :: j <= j' < |m| ==> forall k :: 0 <= k < |m[j']| ==> m[j'][k] == 0.0
  }

  /** A row of non-negative samples adds up to a non-negative total, which is 0 exactly when every sample is. */
  lemma {:induction false} RowSumZeroIff(r: seq<real>, k: nat)
    requires k <= |r| && forall i :: k <= i < |r| ==> 0.0 <= r[i]
    ensures 0.0 <= RowSum(r, k)
    ensures RowSum(r, k) == 0.0 <==> forall i :: k <= i < |r| ==> r[i] == 0.0
    decreases |r| - k
  {
    if k < |r| {
      RowSumZeroIff(r, k + 1);
    }
  }

  /** Rows of non-negative samples add up to a non-negative total, which is 0 exactly when every sample is. */
  lemma {:induction false} GridSumZeroIff(m: seq<seq<real>>, j: nat)
    requires j <= |m| && NonNegativeFrom(m, j)
    ensures 0.0 <= GridSum(m, j)
    ensures GridSum(m, j) == 0.0 <==> ZeroFrom(m, j)
    decreases |m| - j
  {
    if j < |m| {
      GridSumZeroIff(m, j + 1);
      RowSumZeroIff(m[j], 0);
    }
  }

  /** A grid of `rows` x `columns` samples is empty exactly when one of its sides is. */
  lemma ProductZeroIff(rows: nat, columns: nat)
    ensures rows * columns <= 0 <==> rows == 0 || columns == 0
  {
    if rows > 0 && columns > 0 {
      assert rows * columns >= columns;
    }
  }

  /** One more row of `columns` samples adds `columns` to the count. */
  lemma NextRow(rows: nat, columns: nat)
    ensures (rows + 1) * columns == rows * columns + columns
  {
  }

  /** `total / samples`, or 0 when no sample was taken. */
  function Average(total: real, samples: int): real {
    if samples > 0 then total / samples as real else 0.0
  }

  /** The average of a non-negative total is non-negative, and 0 exactly when nothing was sampled or the total is 0. */
  lemma AverageZeroIff(total: real, samples: int)
    requires 0.0 <= total
    ensures 0.0 <= Average(total, samples)
    ensures Average(total, samples) == 0.0 <==> samples <= 0 || total == 0.0
  {
    if samples > 0 {
      var q := total / samples as real;
      assert q * samples as real == total;
    }
  }

  /**
   * Weighted samples `c` against their weights `wt`, cell by cell: every
   * weighted sample lies between lo and hi times its weight.
   */
  predicate CellsBetween(c: seq<seq<real>>, wt: seq<seq<real>>, lo: real, hi: real) {
    |c| == |wt| && (forall j :: 0 <= j < |c| ==> |c[j]| == |wt[j]|) &&
    forall j, k :: 0 <= j < |c| && 0 <= k < |c[j]| ==> lo * wt[j][k] <= c[j][k] <= hi * wt[j][k]
  }

  /** The row `r` with every sample multiplied by t. */
  function Scaled(r: seq<real>, t: real): (s: seq<real>)
    ensures |s| == |r| && forall i :: 0 <= i < |r| ==> s[i] == t * r[i]
  {
    seq(|r|, i requires 0 <= i < |r| => t * r[i])
  }

  /** The rows `m` with every sample multiplied by t. */
  function ScaledGrid(m: seq<seq<real>>, t: real): (s: seq<seq<real>>)
    ensures |s| == |m| && forall j :: 0 <= j < |m| ==> s[j] == Scaled(m[j], t)
  {
    seq(|m|, j requires 0 <= j < |m| => Scaled(m[j], t))
  }

  /** Scaling every sample scales the total of a row. */
  lemma {:induction false} RowSumScaled(r: seq<real>, t: real, k: nat)
    requires k <= |r|
    ensures RowSum(Scaled(r, t), k) == t * RowSum(r, k)
    decreases |r| - k
  {
    if k < |r| {
      RowSumScaled(r, t, k + 1);
      Distribute(t, r[k], RowSum(r, k + 1));
    }
  }

  /** Scaling every sample scales the total of the rows `m[j..]`. */
  lemma {:induction false} GridSumScaled(m: seq<seq<real>>, t: real, j: nat)
    requires j <= |m|
    ensures GridSum(ScaledGrid(m, t), j) == t * GridSum(m, j)
    decreases |m| - j
  {
    if j < |m| {
      GridSumScaled(m, t, j + 1);
      RowSumScaled(m[j], t, 0);
      Distribute(t, RowSum(m[j], 0), GridSum(m, j + 1));
    }
  }

  /** Rows of the same shape whose samples are pointwise no larger have no larger totals. */
  lemma {:induction false} RowSumMono(a: seq<real>, b: seq<real>, k: nat)
    requires |a| == |b| && k <= |a| && forall i :: k <= i < |a| ==> a[i] <= b[i]
    ensures RowSum(a, k) <= RowSum(b, k)
    decreases |a| - k
  {
    if k < |a| {
      RowSumMono(a, b, k + 1);
    }
  }

  /** The grids `a` and `b` have the same shape, and every sample of `a` is at most the matching one of `b`. */
  predicate Below(a: seq<seq<real>>, b: seq<seq<real>>) {
    |a| == |b| &&
    forall j :: 0 <= j < |a| ==> |a[j]| == |b[j]| && forall k :: 0 <= k < |a[j]| ==> a[j][k] <= b[j][k]
  }

  /** A grid pointwise below another has a total no larger over the rows `j..`. */
  lemma {:induction false} GridSumMono(a: seq<seq<real>>, b: seq<seq<real>>, j: nat)
    requires Below(a, b) && j <= |a|
    ensures GridSum(a, j) <= GridSum(b, j)
    decreases |a| - j
  {
    if j < |a| {
      RowSumMono(a[j], b[j], 0);
      GridSumMono(a, b, j + 1);
    }
  }

  /** Pointwise, the weighted samples lie between the weights scaled by lo and by hi. */
  lemma BetweenScaled(c: seq<seq<real>>, wt: seq<seq<real>>, lo: real, hi: real)
    requires CellsBetween(c, wt, lo, hi)
    ensures Below(ScaledGrid(wt, lo), c) && Below(c, ScaledGrid(wt, hi))
  {
    forall j | 0 <= j < |c|
      ensures |ScaledGrid(wt, lo)[j]| == |c[j]| == |ScaledGrid(wt, hi)[j]|
      ensures forall k :: 0 <= k < |c[j]| ==> ScaledGrid(wt, lo)[j][k] <= c[j][k] <= ScaledGrid(wt, hi)[j][k]
    {
      assert ScaledGrid(wt, lo)[j] == Scaled(wt[j], lo) && ScaledGrid(wt, hi)[j] == Scaled(wt[j], hi);
    }
  }

  /** The grids `a` and `b` have the same shape. */
  predicate SameShape(a: seq<seq<real>>, b: seq<seq<real>>) {
    |a| == |b| && forall j :: 0 <= j < |a| ==> |a[j]| == |b[j]|
  }

  /** Every sample of the grid `v` lies in [lo, hi]. */
  predicate AllBetween(v: seq<seq<real>>, lo: real, hi: real) {
    forall j, k :: 0 <= j < |v| && 0 <= k < |v[j]| ==> lo <= v[j][k] <= hi
  }

  /** The samples of `v` weighted cell by cell by `wt`. */
  function Products(v: seq<seq<real>>, wt: seq<seq<real>>): (m: seq<seq<real>>)
    requires SameShape(v, wt)
    ensures SameShape(m, v)
    ensures forall j, k :: 0 <= j < |v| && 0 <= k < |v[j]| ==> m[j][k] == v[j][k] * wt[j][k]
  {
    seq(|v|, j requires 0 <= j < |v| => seq(|v[j]|, k requires 0 <= k < |v[j]| => v[j][k] * wt[j][k]))
  }

  /** Samples in [lo, hi] with non-negative weights give weighted samples between lo and hi times their weights. */
  lemma ProductsBetween(v: seq<seq<real>>, wt: seq<seq<real>>, lo: real, hi: real)
    requires SameShape(v, wt) && AllBetween(v, lo, hi) && NonNegativeFrom(wt, 0)
    ensures CellsBetween(Products(v, wt), wt, lo, hi)
  {
    var m := Products(v, wt);
    forall j, k | 0 <= j < |m| && 0 <= k < |m[j]|
      ensures lo * wt[j][k] <= m[j][k] <= hi * wt[j][k]
    {
      MulLe(lo, v[j][k], wt[j][k]);
      MulLe(v[j][k], hi, wt[j][k]);
    }
  }

  /**
   * The weighted mean of samples in [lo, hi] with non-negative weights that
   * add up to more than 0 lies in [lo, hi].
   */
  lemma GridMeanBetween(v: seq<seq<real>>, wt: seq<seq<real>>, lo: real, hi: real)
    requires SameShape(v, wt) && AllBetween(v, lo, hi) && NonNegativeFrom(wt, 0) && 0.0 < GridSum(wt, 0)
    ensures lo <= GridSum(Products(v, wt), 0) / GridSum(wt, 0) <= hi
  {
    var c := Products(v, wt);
    ProductsBetween(v, wt, lo, hi);
    BetweenScaled(c, wt, lo, hi);
    GridSumMono(ScaledGrid(wt, lo), c, 0);
    GridSumMono(c, ScaledGrid(wt, hi), 0);
    ScaledMean(GridSum(c, 0), wt, lo, hi);
  }

  /** A total between the weights scaled by lo and by hi has its mean between lo and hi. */
  lemma ScaledMean(total: real, wt: seq<seq<real>>, lo: real, hi: real)
    requires 0.0 < GridSum(wt, 0)
    requires GridSum(ScaledGrid(wt, lo), 0) <= total <= GridSum(ScaledGrid(wt, hi), 0)
    ensures lo <= total / GridSum(wt, 0) <= hi
  {
    GridSumScaled(wt, lo, 0);
    GridSumScaled(wt, hi, 0);
    MeanBetween(total, GridSum(wt, 0), lo, hi);
  }

  /** A total between lo and hi times a positive weight has its mean between lo and hi, and the mean is 0 exactly when the total is. */
  lemma MeanBetween(total: real, weight: real, lo: real, hi: real)
    requires 0.0 < weight && lo * weight <= total <= hi * weight
    ensures lo <= total / weight <= hi
    ensures total / weight == 0.0 <==> total == 0.0
  {
    DivMul(total, weight);
    MulLeCancel(lo, total / weight, weight);
    MulLeCancel(total / weight, hi, weight);
  }

  /** Multiplying by a non-negative real keeps an order. */
  lemma MulLe(a: real, b: real, c: real)
    requires a <= b && 0.0 <= c
    ensures a * c <= b * c
  {
  }

  /** Multiplying by a positive real can be undone in an order. */
  lemma MulLeCancel(a: real, b: real, c: real)
    requires 0.0 < c && a * c <= b * c
    ensures a <= b
  {
  }

  lemma DivMul(a: real, b: real)
    requires b != 0.0
    ensures (a / b) * b == a
  {
  }
  /** Multiplication distributes over a sum. */
  lemma Distribute(t: real, a: real, b: real)
    ensures t * (a + b) == t * a + t * b
  {
  }
}
