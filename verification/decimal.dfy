/** Decimal rounding as Python's `round(x, d)` performs it on exact reals:
    to the nearest multiple of `10^-d`, ties to the even multiple. */
module Decimal {

  function Pow10(d: nat): (r: nat)
    ensures r >= 1
  {
    if d == 0 then 1 else 10 * Pow10(d - 1)
  }

  /** The integer nearest to `x`, ties to the even one (Python's `round`). */
  function RoundHalfEven(x: real): (n: int)
    ensures x - 0.5 <= n as real <= x + 0.5
  {
    var f := x.Floor;
    var frac := x - f as real;
    if frac < 0.5 then f
    else if frac > 0.5 then f + 1
    else if f % 2 == 0 then f else f + 1
  }

  /** `round(x, d)`: `x` rounded to `d` decimal places, ties to even. */
  function RoundTo(x: real, d: nat): (r: real)
    ensures -0.5 / Pow10(d) as real <= r - x <= 0.5 / Pow10(d) as real
  {
    var p := Pow10(d) as real;
    var n := RoundHalfEven(x * p);
    assert n as real / p - x == (n as real - x * p) / p;
    n as real / p
  }

  function Abs(x: real): real {
    if x < 0.0 then -x else x
  }
}
