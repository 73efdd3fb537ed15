/**
 * The parts of `android.location.Location` the engines read, and the section
 * helpers shared by all three engine snapshots (`computeDistance`,
 * `computeTimeElapsed`, `getAverageSpeedHistory`).
 */
module Locations {
  import opened Units

  /** Latitude and longitude; only the external distance function looks at them. */
  datatype Position = Position(latitude: real, longitude: real)

  /**
   * A location sample: speed in m/s, elapsed-realtime timestamp in
   * nanoseconds, and position. `Location.set` copies every field, so the
   * engines hold samples by value.
   */
  datatype Sample = Sample(speed: real, nanos: int, position: Position)

  /** What `Location.reset()` and `new Location(provider)` leave behind: every field zero. */
  const Cleared: Sample := Sample(0.0, 0, Position(0.0, 0.0))

  /** An anchor is armed when it holds a non-zero speed. */
  predicate Armed(anchor: Sample)
  {
    anchor.speed > 0.0
  }

  /** `Location.distanceTo`, the platform's geodesic, supplied from outside. */
  type DistanceFn = (Position, Position) -> real

  /** The last recorded section: distance in meters, elapsed time in whole seconds. */
  datatype Section = Section(distance: real, timeElapsed: int)

  const NoSection: Section := Section(0.0, 0)

  /** `android.location.LocationProvider.AVAILABLE`: the status that means the provider works. */
  const AVAILABLE: int := 2

  const NANOS_PER_SECOND: int := 1_000_000_000

  /** `TimeUnit.NANOSECONDS.toSeconds`: Java's long division, truncating toward zero. */
  function ToSeconds(nanos: int): (s: int)
    ensures nanos >= 0 ==> 0 <= s && s * NANOS_PER_SECOND <= nanos < (s + 1) * NANOS_PER_SECOND
    ensures nanos < 0 ==> s <= 0 && -s * NANOS_PER_SECOND <= -nanos < (-s + 1) * NANOS_PER_SECOND
  {
    if nanos >= 0 then nanos / NANOS_PER_SECOND else -((-nanos) / NANOS_PER_SECOND)
  }

  /** `computeDistance`: the platform distance, clamped below at zero. */
  function ComputeDistance(distanceTo: DistanceFn, from: Sample, to: Sample): (d: real)
    ensures d >= 0.0
    ensures d >= distanceTo(from.position, to.position)
    ensures d == 0.0 || d == distanceTo(from.position, to.position)
  {
    if distanceTo(from.position, to.position) > 0.0 then distanceTo(from.position, to.position) else 0.0
  }

  /**
   * `computeTimeElapsed`: whole seconds of `from.nanos - to.nanos`, clamped
   * below at zero. With this operand order (anchor minus closing sample) the
   * result is zero unless the closing sample is at least a second OLDER than
   * the anchor; in particular it is zero whenever the closing sample is later.
   */
  function ComputeTimeElapsed(from: Sample, to: Sample): (t: int)
    ensures t >= 0
    ensures t == 0 <==> from.nanos - to.nanos < NANOS_PER_SECOND
    ensures to.nanos >= from.nanos ==> t == 0
    ensures t > 0 ==> t * NANOS_PER_SECOND <= from.nanos - to.nanos < (t + 1) * NANOS_PER_SECOND
  {
    var s := ToSeconds(from.nanos - to.nanos);
    if s > 0 then s else 0
  }

  /** `computeSectionParamsToLocation`: the section from an anchor to a closing location. */
  function ComputeSection(distanceTo: DistanceFn, from: Sample, to: Sample): (s: Section)
    ensures s.distance >= 0.0 && s.timeElapsed >= 0
  {
    Section(ComputeDistance(distanceTo, from, to), ComputeTimeElapsed(from, to))
  }

  /**
   * `getAverageSpeedHistory`: `convertMsToKmH(distance / timeElapsed)` with
   * float division. A zero elapsed time follows IEEE 754: a positive distance
   * gives +Infinity, which `Math.round` saturates to `INT_MAX`; a zero distance
   * gives NaN, which `Math.round` maps to 0.
   */
  function AverageSpeedHistory(section: Section): (kmh: int)
    ensures section.timeElapsed == 0 && section.distance > 0.0 ==> kmh == INT_MAX
    ensures section.timeElapsed == 0 && section.distance == 0.0 ==> kmh == 0
    ensures section.timeElapsed == 0 && section.distance < 0.0 ==> kmh == INT_MIN
    ensures section.timeElapsed > 0 && section.distance >= 0.0 ==> kmh >= 0
    ensures section.timeElapsed != 0 &&
            INT_MIN as real <= section.distance / section.timeElapsed as real * FACTOR_M_PER_S_TO_KM_PER_H <= INT_MAX as real
            ==> -0.5 <= kmh as real - section.distance / section.timeElapsed as real * FACTOR_M_PER_S_TO_KM_PER_H <= 0.5
  {
    if section.timeElapsed == 0 then
      (if section.distance > 0.0 then INT_MAX else if section.distance < 0.0 then INT_MIN else 0)
    else
      var speed := section.distance / section.timeElapsed as real;
      ConvertNonNegativeAt(section);
      ConvertMsToKmH(speed)
  }

  lemma ConvertNonNegativeAt(section: Section)
    requires section.timeElapsed != 0
    ensures section.timeElapsed > 0 && section.distance >= 0.0 ==>
              ConvertMsToKmH(section.distance / section.timeElapsed as real) >= 0
  {
    if section.timeElapsed > 0 && section.distance >= 0.0 {
      ConvertNonNegative(section.distance / section.timeElapsed as real);
    }
  }

  /**
   * Every section the helpers can record for samples taken in time order has
   * a zero elapsed time, so the average speed of a section with any distance
   * saturates to `INT_MAX`.
   */
  lemma InOrderSectionSaturates(distanceTo: DistanceFn, from: Sample, to: Sample)
    requires to.nanos >= from.nanos
    requires distanceTo(from.position, to.position) > 0.0
    ensures AverageSpeedHistory(ComputeSection(distanceTo, from, to)) == INT_MAX
  {
  }

  /** Elapsed time as a section measures it, for a closing sample a whole number of seconds older. */
  lemma ElapsedCountsWholeSeconds(from: Sample, to: Sample, k: nat)
    requires from.nanos - to.nanos == k * NANOS_PER_SECOND
    ensures ComputeTimeElapsed(from, to) == k
  {
  }
}
