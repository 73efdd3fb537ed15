/**
 * Unit conversion shared by the location engines: `convertMsToKmH` and the
 * `Math.round(float)` it relies on. Floats are modelled as exact reals.
 */
module Units {

  /** The float literal 3.6f, taken as the exact real 3.6. */
  const FACTOR_M_PER_S_TO_KM_PER_H: real := 3.6

  /** Bounds of a Java `int`. */
  const INT_MAX: int := 0x7fff_ffff
  const INT_MIN: int := -0x8000_0000

  /**
   * Java's `Math.round(float)`: the nearest integer, halves rounded up,
   * saturated to the range of `int`.
   */
  function Round(x: real): (r: int)
    ensures INT_MIN <= r <= INT_MAX
    ensures INT_MIN as real - 0.5 <= x < INT_MAX as real + 0.5 ==>
              r as real - 0.5 <= x < r as real + 0.5
    ensures x >= INT_MAX as real + 0.5 ==> r == INT_MAX
    ensures x < INT_MIN as real - 0.5 ==> r == INT_MIN
  {
    var f := (x + 0.5).Floor;
    if f > INT_MAX then INT_MAX else if f < INT_MIN then INT_MIN else f
  }

  /**
   * `convertMsToKmH`: a speed in m/s as whole km/h, the nearest one whenever
   * it fits in an `int`, and never negative for a non-negative speed.
   */
  function ConvertMsToKmH(value: real): (r: int)
    ensures INT_MIN <= r <= INT_MAX
    ensures value >= 0.0 ==> r >= 0
    ensures INT_MIN as real <= value * FACTOR_M_PER_S_TO_KM_PER_H <= INT_MAX as real ==>
              -0.5 <= r as real - value * FACTOR_M_PER_S_TO_KM_PER_H <= 0.5
  {
    Round(value * FACTOR_M_PER_S_TO_KM_PER_H)
  }

  /** A non-negative speed never converts to a negative one. */
  lemma ConvertNonNegative(value: real)
    requires value >= 0.0
    ensures ConvertMsToKmH(value) >= 0
  {
  }

  /** Conversion is monotonic: a faster speed never shows a smaller km/h value. */
  lemma ConvertMonotonic(v: real, w: real)
    requires v <= w
    ensures ConvertMsToKmH(v) <= ConvertMsToKmH(w)
  {
  }

  /** The conversion rounds to the nearest km/h: it is off by at most half a unit. */
  lemma ConvertIsNearest(value: real)
    requires INT_MIN as real <= value * FACTOR_M_PER_S_TO_KM_PER_H <= INT_MAX as real
    ensures -0.5 <= ConvertMsToKmH(value) as real - value * FACTOR_M_PER_S_TO_KM_PER_H <= 0.5
  {
  }

  /**
   * Round trip: a whole km/h value turned into m/s (`x / 3.6`) converts back to
   * exactly that value, for every value an `int` can hold.
   */
  lemma ConvertRoundTrip(kmh: int)
    requires INT_MIN <= kmh <= INT_MAX
    ensures ConvertMsToKmH(kmh as real / FACTOR_M_PER_S_TO_KM_PER_H) == kmh
  {
    assert kmh as real / FACTOR_M_PER_S_TO_KM_PER_H * FACTOR_M_PER_S_TO_KM_PER_H == kmh as real;
  }
}
