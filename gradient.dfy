/** calculate_gradient: the central-difference gradient magnitude at one pixel. */
module Gradient {
  import opened Frames

  /** `abs(a - b) / 2.0f` for two samples: half the absolute difference. */
  function HalfDifference(a: int, b: int): (d: real)
    requires 0 <= a < 256 && 0 <= b < 256
    ensures 0.0 <= d <= 127.5
    ensures d == 0.0 <==> a == b
  {
    Abs(a - b) as real / 2.0
  }

  /**
   * The gradient at pixel (x, y) of a `width`-wide frame: the horizontal and
   * vertical half differences dx and dy, combined as sqrt(dx * dx + dy * dy).
   * `height` is passed but not used, as in the C function. For a square root
   * the gradient is never negative, and it is zero exactly when both
   * neighbour pairs are equal: left equals right and above equals below.
   */
  function CalculateGradient(buf: seq<byte>, width: nat, height: nat, x: nat, y: nat, sqrt: real -> real): (r: real)
    requires CrossAt(|buf|, width, y * width + x)
    ensures IsSquareRoot(sqrt) ==>
              0.0 <= r &&
              (r == 0.0 <==> var idx := y * width + x;
                             Px(buf, idx + 1) == Px(buf, idx - 1) && Px(buf, idx + width) == Px(buf, idx - width))
  {
    var idx := y * width + x;
    var dx := HalfDifference(Px(buf, idx + 1), Px(buf, idx - 1));
    var dy := HalfDifference(Px(buf, idx + width), Px(buf, idx - width));
    HalvesZeroIff(Abs(Px(buf, idx + 1) - Px(buf, idx - 1)), Abs(Px(buf, idx + width) - Px(buf, idx - width)));
    sqrt(dx * dx + dy * dy)
  }

  lemma HalfSquare(d: nat)
    ensures (d as real / 2.0) * (d as real / 2.0) == (d * d) as real / 4.0
  {
  }

  /** The sum of the squared halves of two naturals is never negative, and 0 only when both are. */
  lemma HalvesZeroIff(a: nat, b: nat)
    ensures var v := (a as real / 2.0) * (a as real / 2.0) + (b as real / 2.0) * (b as real / 2.0);
      0.0 <= v && (v == 0.0 <==> a == 0 && b == 0)
  {
    HalfSquare(a);
    HalfSquare(b);
    SquaresZeroIff(a, b);
    assert 0 <= a * a && 0 <= b * b;
  }
}
