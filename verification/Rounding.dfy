/** The two roundings the program applies: persisted PnL to eight decimals
    (`math.Round(x*1e8)/1e8`) and order quantities down to the lot step
    (`math.Floor(x/step)*step`).  Floats are modelled as reals. */
module Rounding {

  const SCALE: real := 100000000.0
  const HALF_UNIT: real := 0.000000005

  /** math.Round: to the nearest integer, halves away from zero. */
  function RoundHalfAway(x: real): int {
    if x >= 0.0 then (x + 0.5).Floor else -((0.5 - x).Floor)
  }

  function Round8(x: real): real {
    RoundHalfAway(x * SCALE) as real / SCALE
  }

  /** Rounding to eight decimals moves a value by at most half a unit of the
      eighth decimal and does not depend on the sign of the value. */
  lemma Round8Within(x: real)
    ensures x - HALF_UNIT <= Round8(x) <= x + HALF_UNIT
    ensures Round8(-x) == -Round8(x)
  {
  }

  function RoundDown(value: real, step: real): real {
    if step == 0.0 then value else (value / step).Floor as real * step
  }
}
