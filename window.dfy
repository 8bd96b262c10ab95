/**
 * The 3x3 window around a sampled pixel, read by the text and quality
 * scorers, and the statistics their inner `dy`/`dx` loops keep over it:
 * the largest and smallest sample, the sum, and the sum of squared
 * deviations from the mean.
 */
module Window {
  import opened Frames

  /**
   * The nine samples around offset `i` in a `w`-wide frame, in the order the
   * loops `for dy in -1..1 { for dx in -1..1 }` visit them.
   */
  function Box(buf: seq<byte>, w: nat, i: int): (b: seq<int>)
    requires BoxAt(|buf|, w, i)
    ensures |b| == 9 && forall k :: 0 <= k < 9 ==> 0 <= b[k] < 256
  {
    [Px(buf, i - w - 1), Px(buf, i - w), Px(buf, i - w + 1),
     Px(buf, i - 1),     Px(buf, i),     Px(buf, i + 1),
     Px(buf, i + w - 1), Px(buf, i + w), Px(buf, i + w + 1)]
  }

  /** The read `buf[idx + dy*width + dx]` is in the buffer and is the window's sample number 3(dy+1) + (dx+1). */
  lemma BoxRead(buf: seq<byte>, w: nat, i: int, dy: int, dx: int)
    requires BoxAt(|buf|, w, i) && -1 <= dy <= 1 && -1 <= dx <= 1
    ensures 0 <= i + dy * w + dx < |buf|
    ensures Box(buf, w, i)[3 * (dy + 1) + dx + 1] == Px(buf, i + dy * w + dx)
  {
    if dy == -1 {
      assert dy * w + w == 0;
    } else if dy == 0 {
      assert dy * w == 0;
    } else {
      assert dy * w == w;
    }
  }

  /** All samples of `s` are equal. */
  predicate Flat(s: seq<int>) {
    forall k :: 0 <= k < |s| ==> s[k] == s[0]
  }

  /** `max_val` after visiting the first `n` samples of `s`, starting from `seed`: no smaller than any of them. */
  function MaxOver(seed: int, s: seq<int>, n: nat): (m: int)
    requires n <= |s|
    ensures seed <= m && forall k :: 0 <= k < n ==> s[k] <= m
  {
    if n == 0 then seed else Max(MaxOver(seed, s, n - 1), s[n - 1])
  }

  /** `min_val` after visiting the first `n` samples of `s`, starting from `seed`: no larger than any of them. */
  function MinOver(seed: int, s: seq<int>, n: nat): (m: int)
    requires n <= |s|
    ensures m <= seed && forall k :: 0 <= k < n ==> m <= s[k]
  {
    if n == 0 then seed else Min(MinOver(seed, s, n - 1), s[n - 1])
  }

  /** The running maximum never exceeds a common bound of the seed and the samples. */
  lemma {:induction false} MaxOverAtMost(seed: int, s: seq<int>, n: nat, c: int)
    requires n <= |s| && seed <= c && forall k :: 0 <= k < n ==> s[k] <= c
    ensures MaxOver(seed, s, n) <= c
  {
    if n > 0 {
      MaxOverAtMost(seed, s, n - 1, c);
    }
  }

  /** The running minimum never falls below a common bound of the seed and the samples. */
  lemma {:induction false} MinOverAtLeast(seed: int, s: seq<int>, n: nat, c: int)
    requires n <= |s| && c <= seed && forall k :: 0 <= k < n ==> c <= s[k]
    ensures c <= MinOver(seed, s, n)
  {
    if n > 0 {
      MinOverAtLeast(seed, s, n - 1, c);
    }
  }

  /**
   * `max_val - min_val` over a window, with the seeds 0 and 255 of the C
   * code: it lies in [0, 255].
   */
  function Range(b: seq<int>): (r: int)
    requires |b| == 9 && forall k :: 0 <= k < 9 ==> 0 <= b[k] < 256
    ensures 0 <= r <= 255
  {
    MaxOverAtMost(0, b, 9, 255);
    MinOverAtLeast(255, b, 9, 0);
    assert MinOver(255, b, 9) <= b[0] <= MaxOver(0, b, 9);
    MaxOver(0, b, 9) - MinOver(255, b, 9)
  }

  /** Every window of a uniform frame is flat. */
  lemma UniformBoxIsFlat(buf: seq<byte>, w: nat, i: int, c: byte)
    requires BoxAt(|buf|, w, i) && Uniform(buf, c)
    ensures Flat(Box(buf, w, i))
  {
    var b := Box(buf, w, i);
    assert forall k :: 0 <= k < 9 ==> b[k] == c as int;
  }

  /** The range of a window is 0 exactly when all nine samples are equal. */
  lemma RangeZeroIff(b: seq<int>)
    requires |b| == 9 && forall k :: 0 <= k < 9 ==> 0 <= b[k] < 256
    ensures Range(b) == 0 <==> Flat(b)
  {
    if Flat(b) {
      MaxOverAtMost(0, b, 9, b[0]);
      MinOverAtLeast(255, b, 9, b[0]);
    }
  }

  /** The sum of the first `n` samples of `s`. */
  function SumOver(s: seq<int>, n: nat): int
    requires n <= |s|
  {
    if n == 0 then 0 else SumOver(s, n - 1) + s[n - 1]
  }

  function Square(x: real): (r: real)
    ensures 0.0 <= r
  {
    x * x
  }

  /** (p - mean)^2, the term the variance loop adds for sample `p`. */
  function Deviation(p: int, mean: real): (r: real)
    ensures 0.0 <= r
  {
    Square(p as real - mean)
  }

  /** The squared deviations from `mean` of the first `n` samples of `s`. */
  function SquaredDeviations(s: seq<int>, mean: real, n: nat): (r: real)
    requires n <= |s|
    ensures 0.0 <= r
  {
    if n == 0 then 0.0 else SquaredDeviations(s, mean, n - 1) + Deviation(s[n - 1], mean)
  }

  /** `local_mean` after the first loop and the division by 9. */
  function Mean(b: seq<int>): real
    requires |b| == 9
  {
    SumOver(b, 9) as real / 9.0
  }

  /** `local_var` after the second loop and the division by 9. */
  function Variance(b: seq<int>): real
    requires |b| == 9
  {
    SquaredDeviations(b, Mean(b), 9) / 9.0
  }

  /**
   * The loops that keep `max_val` and `min_val` over the window around
   * `idx`, seeded with 0 and 255 as `uint8_t` values.
   */
  method LocalRange(buf: Bytes, w: Size, idx: nat) returns (maxVal: byte, minVal: byte)
    requires BoxAt(|buf|, w, idx)
    ensures maxVal as int == MaxOver(0, Box(buf, w, idx), 9) && minVal as int == MinOver(255, Box(buf, w, idx), 9)
  {
    ghost var b := Box(buf, w, idx);
    maxVal, minVal := 0, 255;
    var dy := -1;
    while dy <= 1
      invariant -1 <= dy <= 2
      invariant maxVal as int == MaxOver(0, b, 3 * (dy + 1)) && minVal as int == MinOver(255, b, 3 * (dy + 1))
    {
      var dx := -1;
      while dx <= 1
        invariant -1 <= dx <= 2
        invariant maxVal as int == MaxOver(0, b, 3 * (dy + 1) + dx + 1)
        invariant minVal as int == MinOver(255, b, 3 * (dy + 1) + dx + 1)
      {
        BoxRead(buf, w, idx, dy, dx);
        var pixel := buf[idx + dy * w + dx];
        ghost var n := 3 * (dy + 1) + dx + 1;
        assert b[n] == pixel as int;
        maxVal := if maxVal < pixel then pixel else maxVal;
        minVal := if pixel < minVal then pixel else minVal;
        assert maxVal as int == MaxOver(0, b, n + 1) && minVal as int == MinOver(255, b, n + 1);
        dx := dx + 1;
      }
      assert 3 * (dy + 1) + dx + 1 == 3 * (dy + 2);
      dy := dy + 1;
    }
  }

  /** The loops that compute `local_mean` and then `local_var` over the window around `idx`. */
  method LocalVariance(buf: Bytes, w: Size, idx: nat) returns (localMean: real, localVar: real)
    requires BoxAt(|buf|, w, idx)
    ensures localMean == Mean(Box(buf, w, idx)) && localVar == Variance(Box(buf, w, idx))
  {
    ghost var b := Box(buf, w, idx);
    localMean, localVar := 0.0, 0.0;
    var dy := -1;
    while dy <= 1
      invariant -1 <= dy <= 2 && localMean == SumOver(b, 3 * (dy + 1)) as real
    {
      var dx := -1;
      while dx <= 1
        invariant -1 <= dx <= 2 && localMean == SumOver(b, 3 * (dy + 1) + dx + 1) as real
      {
        BoxRead(buf, w, idx, dy, dx);
        localMean := localMean + buf[idx + dy * w + dx] as real;
        dx := dx + 1;
      }
      assert 3 * (dy + 1) + dx + 1 == 3 * (dy + 2);
      dy := dy + 1;
    }
    localMean := localMean / 9.0;

    dy := -1;
    while dy <= 1
      invariant -1 <= dy <= 2 && localVar == SquaredDeviations(b, localMean, 3 * (dy + 1))
    {
      var dx := -1;
      while dx <= 1
        invariant -1 <= dx <= 2 && localVar == SquaredDeviations(b, localMean, 3 * (dy + 1) + dx + 1)
      {
        BoxRead(buf, w, idx, dy, dx);
        var diff := buf[idx + dy * w + dx] as real - localMean;
        localVar := localVar + Square(diff);
        dx := dx + 1;
      }
      assert 3 * (dy + 1) + dx + 1 == 3 * (dy + 2);
      dy := dy + 1;
    }
    localVar := localVar / 9.0;
  }

  /** A flat prefix of `n` samples of value `c` sums to n * c. */
  lemma {:induction false} SumOverFlat(s: seq<int>, n: nat, c: int)
    requires n <= |s| && forall k :: 0 <= k < n ==> s[k] == c
    ensures SumOver(s, n) == n * c
  {
    if n > 0 {
      SumOverFlat(s, n - 1, c);
    }
  }

  /** The deviation from the mean `total / 9`, scaled by 9 to stay in the integers. */
  function ScaledDeviations(s: seq<int>, total: int, n: nat): (r: nat)
    requires n <= |s|
  {
    if n == 0 then 0 else ScaledDeviations(s, total, n - 1) + (9 * s[n - 1] - total) * (9 * s[n - 1] - total)
  }

  /** (p - total/9)^2 == (9p - total)^2 / 81. */
  lemma DeviationScaled(p: int, total: int)
    ensures Deviation(p, total as real / 9.0) == ((9 * p - total) * (9 * p - total)) as real / 81.0
  {
    var d := 9 * p - total;
    assert p as real - total as real / 9.0 == d as real / 9.0;
    assert (d as real / 9.0) * (d as real / 9.0) == (d * d) as real / 81.0;
  }

  lemma {:induction false} SquaredDeviationsScaled(s: seq<int>, total: int, n: nat)
    requires n <= |s|
    ensures SquaredDeviations(s, total as real / 9.0, n) == ScaledDeviations(s, total, n) as real / 81.0
  {
    if n > 0 {
      SquaredDeviationsScaled(s, total, n - 1);
      DeviationScaled(s[n - 1], total);
    }
  }

  /** The scaled deviations vanish exactly when every sample is total / 9. */
  lemma {:induction false} ScaledDeviationsZero(s: seq<int>, total: int, n: nat)
    requires n <= |s|
    ensures ScaledDeviations(s, total, n) == 0 <==> forall k :: 0 <= k < n ==> 9 * s[k] == total
  {
    if n > 0 {
      ScaledDeviationsZero(s, total, n - 1);
      var d := 9 * s[n - 1] - total;
      assert d * d == 0 <==> d == 0;
    }
  }

  /**
   * `local_var` is never negative, and it is 0 exactly when the nine samples
   * of the window are all equal.
   */
  lemma VarianceZeroIff(b: seq<int>)
    requires |b| == 9
    ensures 0.0 <= Variance(b)
    ensures Variance(b) == 0.0 <==> Flat(b)
  {
    var total := SumOver(b, 9);
    SquaredDeviationsScaled(b, total, 9);
    ScaledDeviationsZero(b, total, 9);
    if Flat(b) {
      SumOverFlat(b, 9, b[0]);
    } else if forall k :: 0 <= k < 9 ==> 9 * b[k] == total {
      assert forall k :: 0 <= k < 9 ==> b[k] == b[0];
    }
  }
}
