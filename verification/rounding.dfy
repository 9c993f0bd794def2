/** Python's built-in `round`, which rounds half-way cases to the even
    neighbour ("banker's rounding"), over exact reals. */
module Rounding {

  function Abs(x: real): (r: real)
    ensures r >= 0.0 && (r == x || r == -x)
  {
    if x < 0.0 then -x else x
  }

  /** True when `k` is a correct round-half-to-even of `x`: no farther than
      one half from `x`, and even whenever it is exactly one half away. */
  predicate IsHalfEvenRounding(x: real, k: int) {
    && -0.5 <= k as real - x <= 0.5
    && (Abs(k as real - x) == 0.5 ==> k % 2 == 0)
  }

  /** `round(x)` with no digits argument. */
  function RoundHalfEven(x: real): (r: int)
    ensures IsHalfEvenRounding(x, r)
  {
    var f := x.Floor;
    var d := x - f as real;
    if d < 0.5 then f
    else if d > 0.5 then f + 1
    else if f % 2 == 0 then f
    else f + 1
  }

  /** The characterisation has a single solution, so `RoundHalfEven` is the
      only rounding that meets it. */
  lemma RoundHalfEvenUnique(x: real, k: int)
    requires IsHalfEvenRounding(x, k)
    ensures k == RoundHalfEven(x)
  {
  }

  /** `x` is a whole number of cents. */
  predicate WholeCents(x: real) {
    (x * 100.0).Floor as real == x * 100.0
  }

  /** `round(x, 2)`: the nearest multiple of 0.01, half-way cases to even. */
  function Round2(x: real): (r: real)
    ensures -0.005 <= r - x <= 0.005
    ensures WholeCents(r)
  {
    var k := RoundHalfEven(x * 100.0);
    assert -0.5 <= k as real - x * 100.0 <= 0.5;
    assert k as real / 100.0 * 100.0 == k as real;
    k as real / 100.0
  }
}
