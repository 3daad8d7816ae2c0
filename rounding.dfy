/**
 * Python's built-in `round(x, ndigits)` applied to an exact real: the value
 * is rounded to the nearest multiple of 1/scale (scale = 10^ndigits), and a
 * value exactly half-way between two multiples goes to the even one.
 */
module PyRound {
  import opened Common

  /** The integer nearest to y, ties to the even neighbour. */
  function RoundHalfEven(y: real): (n: int)
    ensures -(1.0 / 2.0) <= (n as real) - y <= 1.0 / 2.0
    ensures y == (y.Floor as real) ==> n == y.Floor
  {
    var f := y.Floor;
    var frac := y - f as real;
    if frac < 1.0 / 2.0 then f
    else if frac > 1.0 / 2.0 then f + 1
    else if f % 2 == 0 then f
    else f + 1
  }

  /** `x` measured in units of 1/scale. */
  function Scaled(x: real, scale: nat): real {
    x * (scale as real)
  }

  /** `round(x, d)` where scale = 10^d. */
  function Round(x: real, scale: nat): (r: real)
    requires scale > 0
  {
    (RoundHalfEven(Scaled(x, scale)) as real) / (scale as real)
  }

  /** Rounding moves a value by at most half a unit of the last kept digit. */
  lemma RoundError(x: real, scale: nat)
    requires scale > 0
    ensures -(1.0 / 2.0) <= (Round(x, scale) - x) * (scale as real) <= 1.0 / 2.0
  {
    var y := Scaled(x, scale);
    var n := RoundHalfEven(y);
    calc {
      (Round(x, scale) - x) * (scale as real);
      ((n as real) / (scale as real) - x) * (scale as real);
      (n as real) - y;
    }
  }

  /** Rounding never turns a value of one sign into a value of the other sign. */
  lemma RoundKeepsSign(x: real, scale: nat)
    requires scale > 0
    ensures x >= 0.0 ==> Round(x, scale) >= 0.0
    ensures x <= 0.0 ==> Round(x, scale) <= 0.0
    ensures x == 0.0 ==> Round(x, scale) == 0.0
  {
    var y := Scaled(x, scale);
    var n := RoundHalfEven(y);
    if x >= 0.0 {
      assert y >= 0.0;
      assert n >= 0;
    }
    if x <= 0.0 {
      assert y <= 0.0;
      assert n <= 0;
    }
  }

  /** Rounding to an integer is monotone. */
  lemma RoundHalfEvenMonotone(y: real, y': real)
    requires y <= y'
    ensures RoundHalfEven(y) <= RoundHalfEven(y')
  {
    assert y.Floor <= y'.Floor;
  }

  /** Rounding is monotone. */
  lemma RoundMonotone(x: real, x': real, scale: nat)
    requires scale > 0
    requires x <= x'
    ensures Round(x, scale) <= Round(x', scale)
  {
    ScaleMonotone(x, x', scale);
    RoundHalfEvenMonotone(Scaled(x, scale), Scaled(x', scale));
    DivideMonotone(RoundHalfEven(Scaled(x, scale)) as real, RoundHalfEven(Scaled(x', scale)) as real, scale as real);
  }

  lemma ScaleMonotone(a: real, b: real, scale: nat)
    requires a <= b && scale > 0
    ensures Scaled(a, scale) <= Scaled(b, scale)
  {
    var s := scale as real;
    assert b * s - a * s == (b - a) * s;
  }
}
