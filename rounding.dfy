/**
 * Python's built-in `round(x, n)`, stated on exact reals: the result is the
 * multiple of 10^-n nearest to x, and a tie goes to the even multiple.
 * The backend applies it to timestamps (3 places) and confidences (4 places).
 */
module Rounding {

  /** round(x, 3) */
  const MILLIS: nat := 1000
  /** round(x, 4) */
  const TEN_THOUSANDTHS: nat := 10000

  /** The integer nearest to y; a tie (fractional part exactly 1/2) goes to the even neighbour. */
  function RoundHalfEven(y: real): (n: int)
    ensures -0.5 <= y - n as real <= 0.5
    ensures y - y.Floor as real == 0.5 ==> n % 2 == 0
  {
    var f := y.Floor;
    var frac := y - f as real;
    if frac < 0.5 then f
    else if frac > 0.5 then f + 1
    else if f % 2 == 0 then f
    else f + 1
  }

  /** The two properties above single out one integer: RoundHalfEven is the rounding Python performs. */
  lemma RoundHalfEvenUnique(y: real, n: int)
    requires -0.5 <= y - n as real <= 0.5
    requires y - y.Floor as real == 0.5 ==> n % 2 == 0
    ensures n == RoundHalfEven(y)
  {
  }

  lemma FloorMonotone(a: real, b: real)
    requires a <= b
    ensures a.Floor <= b.Floor
  {
  }

  lemma RoundHalfEvenMonotone(a: real, b: real)
    requires a <= b
    ensures RoundHalfEven(a) <= RoundHalfEven(b)
  {
    FloorMonotone(a, b);
    var fa, fb := a.Floor, b.Floor;
    if fa < fb {
      assert RoundHalfEven(a) <= fa + 1 <= fb <= RoundHalfEven(b);
    }
  }

  /** x measured in steps of 1/scale. */
  function Scaled(x: real, scale: nat): real
    requires scale > 0
  {
    x * (scale as real)
  }

  /** n steps of 1/scale. */
  function Unscaled(n: int, scale: nat): real
    requires scale > 0
  {
    n as real / (scale as real)
  }

  /** round(x, places) where scale == 10^places. */
  function RoundTo(x: real, scale: nat): real
    requires scale > 0
  {
    Unscaled(RoundHalfEven(Scaled(x, scale)), scale)
  }

  /** The rounded value is a whole number of 1/scale steps, within half a step of x. */
  lemma RoundToNearest(x: real, scale: nat)
    requires scale > 0
    ensures Scaled(RoundTo(x, scale), scale) == RoundHalfEven(Scaled(x, scale)) as real
    ensures -0.5 <= Scaled(x, scale) - Scaled(RoundTo(x, scale), scale) <= 0.5
  {
    var n := RoundHalfEven(Scaled(x, scale));
    assert Scaled(Unscaled(n, scale), scale) == n as real;
  }

  /** Rounding never reverses the order of two values. */
  lemma RoundToMonotone(a: real, b: real, scale: nat)
    requires scale > 0
    requires a <= b
    ensures RoundTo(a, scale) <= RoundTo(b, scale)
  {
    ScaleMonotone(a, b, scale);
    RoundHalfEvenMonotone(Scaled(a, scale), Scaled(b, scale));
    UnscaleMonotone(RoundHalfEven(Scaled(a, scale)), RoundHalfEven(Scaled(b, scale)), scale);
  }

  lemma ScaleMonotone(a: real, b: real, scale: nat)
    requires a <= b && scale > 0
    ensures Scaled(a, scale) <= Scaled(b, scale)
  {
  }

  lemma UnscaleMonotone(m: int, n: int, scale: nat)
    requires m <= n && scale > 0
    ensures Unscaled(m, scale) <= Unscaled(n, scale)
  {
  }

  lemma RoundToZero(scale: nat)
    requires scale > 0
    ensures RoundTo(0.0, scale) == 0.0
  {
    assert Scaled(0.0, scale) == 0.0;
    assert RoundHalfEven(0.0) == 0;
  }
}
