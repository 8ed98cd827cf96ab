/** `clamp` as written: the out-of-range branches return the opposite bound. */
module Clamping {

  /** `clamp` as written. Its result is always one of the three arguments and,
      for an ordered range, inside it; an in-range value is returned as is. */
  function Clamp(value: int, minValue: int, maxValue: int): (r: int)
    ensures r == value || r == minValue || r == maxValue
    ensures minValue <= maxValue ==> minValue <= r <= maxValue
    ensures minValue <= value <= maxValue ==> r == value
  {
    if value < minValue then maxValue
    else if value > maxValue then minValue
    else value
  }

  /** The swapped branches: below the range gives the upper bound, above it
      the lower bound. */
  lemma ClampOutOfRange(value: int, minValue: int, maxValue: int)
    ensures value < minValue ==> Clamp(value, minValue, maxValue) == maxValue
    ensures !(value < minValue) && value > maxValue ==> Clamp(value, minValue, maxValue) == minValue
  {
  }

  /** The evidently intended clamp: the nearest point of the range. */
  function ClampFixed(value: int, minValue: int, maxValue: int): (r: int)
    ensures minValue <= maxValue ==> minValue <= r <= maxValue
    ensures minValue <= value <= maxValue ==> r == value
    ensures minValue <= maxValue ==>
      forall y :: minValue <= y <= maxValue ==> Dist(r, value) <= Dist(y, value)
  {
    if value < minValue then minValue
    else if value > maxValue then maxValue
    else value
  }

  function Dist(x: int, y: int): nat
  {
    if x <= y then y - x else x - y
  }

  /** The written clamp differs from the intended one at every value outside
      a non-degenerate range, where it returns the farthest point instead. */
  lemma ClampDeparts(value: int, minValue: int, maxValue: int)
    requires minValue < maxValue
    requires value < minValue || value > maxValue
    ensures Clamp(value, minValue, maxValue) != ClampFixed(value, minValue, maxValue)
    ensures forall y :: minValue <= y <= maxValue ==>
      Dist(y, value) <= Dist(Clamp(value, minValue, maxValue), value)
  {
  }
}
