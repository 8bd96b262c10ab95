/**
 * The sampling grids of the scorers. Each scorer walks
 *   for (y = y0; y < y1; y += stepY) for (x = x0; x < x1; x += stepX)
 * and reads a small stencil around offset `y * width + x`.
 */
module Sampling {
  import opened Frames

  /** A loop `for (v = start; v < end; v += step)` either never runs or makes progress. */
  predicate Advances(start: nat, end: nat, step: nat) {
    end <= start || 0 < step
  }

  /** The values `v` takes in `for (v = start; v < end; v += step)`, in order. */
  function Axis(start: nat, end: nat, step: nat): (r: seq<nat>)
    requires Advances(start, end, step)
    ensures forall k :: 0 <= k < |r| ==> start <= r[k] < end
    decreases end - start
  {
    if end <= start then [] else [start] + Axis(start + step, end, step)
  }

  /** The first value of the loop variable, when the loop runs at all. */
  lemma AxisFirst(start: nat, end: nat, step: nat)
    requires Advances(start, end, step)
    ensures |Axis(start, end, step)| > 0 <==> start < end
    ensures start < end ==> Axis(start, end, step)[0] == start
  {
  }

  /**
   * One turn of the loop: after the value at index `k` comes `step` more,
   * and only while that stays below `end`.
   */
  lemma {:induction false} AxisNext(start: nat, end: nat, step: nat, k: nat)
    requires Advances(start, end, step) && k < |Axis(start, end, step)|
    ensures var r := Axis(start, end, step);
      (k + 1 < |r| <==> r[k] + step < end) && (k + 1 < |r| ==> r[k + 1] == r[k] + step)
    decreases k
  {
    var r := Axis(start, end, step);
    var rest := Axis(start + step, end, step);
    assert r == [start] + rest;
    if k == 0 {
      AxisFirst(start + step, end, step);
    } else {
      AxisNext(start + step, end, step, k - 1);
      assert r[k] == rest[k - 1];
    }
  }

  lemma MulMonotonic(a: int, b: int, c: nat)
    requires a <= b
    ensures a * c <= b * c
  {
  }

  /** Euclidean division has one quotient and one remainder. */
  lemma DivModUnique(x: int, n: int, q: int, r: int)
    requires 0 < n && 0 <= r < n && x == n * q + r
    ensures x / n == q && x % n == r
  {
    var q', r' := x / n, x % n;
    if q' > q {
      MulMonotonic(q + 1, q', n);
    } else if q' < q {
      MulMonotonic(q' + 1, q, n);
    }
  }

  /** Whole steps from `start`: either `v` is `start`, or it is a whole number of steps from `start + step`. */
  lemma StepMultiple(start: nat, step: nat, v: nat)
    requires 0 < step && start <= v
    ensures (v - start) % step == 0 <==> v == start || (start + step <= v && (v - start - step) % step == 0)
  {
    if start + step <= v {
      DivModUnique(v - start, step, (v - start - step) / step + 1, (v - start - step) % step);
    } else if start < v {
      DivModUnique(v - start, step, 0, v - start);
    } else {
      DivModUnique(0, step, 0, 0);
    }
  }

  /** `v` is visited exactly when it lies in `[start, end)` at a whole number of steps from `start`. */
  lemma {:induction false} AxisMembers(start: nat, end: nat, step: nat, v: nat)
    requires 0 < step
    ensures v in Axis(start, end, step) <==> start <= v < end && (v - start) % step == 0
    decreases end - start
  {
    if start < end {
      var rest := Axis(start + step, end, step);
      assert Axis(start, end, step) == [start] + rest;
      assert v in [start] + rest <==> v == start || v in rest;
      AxisMembers(start + step, end, step, v);
      if start <= v {
        StepMultiple(start, step, v);
      }
    }
  }

  /** The loop body runs `ceil((end - start) / step)` times. */
  lemma {:induction false} AxisLength(start: nat, end: nat, step: nat)
    requires 0 < step
    ensures |Axis(start, end, step)| == if start < end then (end - start + step - 1) / step else 0
    decreases end - start
  {
    if start < end {
      AxisLength(start + step, end, step);
      if start + step < end {
        DivModUnique(end - start + step - 1, step, (end - start - 1) / step + 1, (end - start - 1) % step);
      } else {
        DivModUnique(end - start + step - 1, step, 1, end - start - 1);
      }
    }
  }

  /**
   * The bounds and steps of a scorer's two nested loops: the outer loop over
   * rows `y`, the inner one over columns `x`.
   */
  datatype Region = Region(x0: nat, x1: nat, stepX: nat, y0: nat, y1: nat, stepY: nat) {

    /** Both loops finish: the row loop advances, and so does the column loop whenever it is reached. */
    predicate Terminates() {
      Advances(y0, y1, stepY) && (y1 <= y0 || Advances(x0, x1, stepX))
    }

    function Rows(): seq<nat>
      requires Terminates()
    {
      Axis(y0, y1, stepY)
    }

    function Columns(): seq<nat>
      requires Terminates()
    {
      if Advances(x0, x1, stepX) then Axis(x0, x1, stepX) else []
    }
  }

  /** Every sampled point's cross stencil lies inside a buffer of length `n`. */
  predicate CrossSafe(n: nat, w: nat, ys: seq<nat>, xs: seq<nat>) {
    forall j, k :: 0 <= j < |ys| && 0 <= k < |xs| ==> CrossAt(n, w, ys[j] * w + xs[k])
  }

  /** Every sampled point's 3x3 window lies inside a buffer of length `n`. */
  predicate BoxSafe(n: nat, w: nat, ys: seq<nat>, xs: seq<nat>) {
    forall j, k :: 0 <= j < |ys| && 0 <= k < |xs| ==> BoxAt(n, w, ys[j] * w + xs[k])
  }

  /** Every point of row `y` has its 3x3 window inside a buffer of length `n`. */
  predicate BoxRowSafe(n: nat, w: nat, y: nat, xs: seq<nat>) {
    forall k :: 0 <= k < |xs| ==> BoxAt(n, w, y * w + xs[k])
  }

  /**
   * A point one pixel away from every edge of a `w` x `h` frame has its 3x3
   * window, and so its cross stencil, inside a buffer of `w * h` samples.
   */
  lemma InteriorPoint(n: nat, w: nat, h: nat, x: nat, y: nat)
    requires 1 <= x < w - 1 && 1 <= y < h - 1 && w * h <= n
    ensures BoxAt(n, w, y * w + x) && CrossAt(n, w, y * w + x)
  {
    MulMonotonic(1, y, w);
    MulMonotonic(y + 1, h - 1, w);
    assert (h - 1) * w == h * w - w;
  }

  /**
   * A grid kept one pixel away from every edge of a `w` x `h` frame reads
   * only inside the frame, 3x3 windows included, provided the buffer holds
   * `w * h` samples.
   */
  lemma InteriorIsSafe(n: nat, w: nat, h: nat, g: Region)
    requires g.Terminates()
    requires 1 <= g.x0 && g.x1 < w && 1 <= g.y0 && g.y1 < h && w * h <= n
    ensures BoxSafe(n, w, g.Rows(), g.Columns())
    ensures CrossSafe(n, w, g.Rows(), g.Columns())
  {
    var ys, xs := g.Rows(), g.Columns();
    forall j, k | 0 <= j < |ys| && 0 <= k < |xs|
      ensures BoxAt(n, w, ys[j] * w + xs[k]) && CrossAt(n, w, ys[j] * w + xs[k])
    {
      InteriorPoint(n, w, h, xs[k], ys[j]);
    }
  }
}
