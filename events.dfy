/**
 * The notifications an engine hands to its inherited `notify*` methods, one
 * constructor per method, in the order the engine makes the calls.
 */
module Events {
  import opened Units
  import opened Locations

  datatype Notification =
    | StateChanged(enabled: bool)                     // notifyOnStateChanged
    | SpeedChanged(speed: real, location: Sample)     // notifyOnSpeedChanged
    | SpeedActivityChanged(active: bool)              // notifyOnSpeedActivityChanged
    | AverageSpeedChanged(averageSpeed: real, distance: real, timeElapsed: int)  // notifyOnAverageSpeedChanged

  /**
   * `updateLocationSpeed`: the speed notification a sample produces, carrying
   * the sample and its speed in km/h to the nearest unit.
   */
  function SpeedNotification(location: Sample): (n: Notification)
    ensures n.SpeedChanged? && n.location == location
    ensures INT_MIN as real <= location.speed * FACTOR_M_PER_S_TO_KM_PER_H <= INT_MAX as real ==>
              -0.5 <= n.speed - location.speed * FACTOR_M_PER_S_TO_KM_PER_H <= 0.5
    ensures location.speed >= 0.0 ==> n.speed >= 0.0
  {
    SpeedChanged(ConvertMsToKmH(location.speed) as real, location)
  }

  /**
   * A call to one of the abstract tracking commands (`startTracking`,
   * `stopTracking`), whose effect belongs to the concrete subclass.
   */
  datatype TrackingCall = StartTrackingCall | StopTrackingCall

  /** How many speed-changed notifications a log holds. */
  function SpeedEvents(log: seq<Notification>): (n: nat)
  {
    if |log| == 0 then 0 else (if log[0].SpeedChanged? then 1 else 0) + SpeedEvents(log[1..])
  }

  /** How many activity-changed notifications carrying `active` a log holds. */
  function ActivityEvents(log: seq<Notification>, active: bool): (n: nat)
  {
    if |log| == 0 then 0
    else (if log[0] == SpeedActivityChanged(active) then 1 else 0) + ActivityEvents(log[1..], active)
  }

  /** Both counts add up over a concatenation of logs. */
  lemma {:induction false} CountsDistribute(a: seq<Notification>, b: seq<Notification>)
    ensures SpeedEvents(a + b) == SpeedEvents(a) + SpeedEvents(b)
    ensures forall active :: ActivityEvents(a + b, active) == ActivityEvents(a, active) + ActivityEvents(b, active)
  {
    if |a| == 0 {
      assert a + b == b;
    } else {
      assert (a + b)[1..] == a[1..] + b;
      CountsDistribute(a[1..], b);
    }
  }

  /**
   * The activity value a log leaves behind: the value of its last
   * activity-changed notification, or `initial` when it has none.
   */
  function LastActivity(log: seq<Notification>, initial: bool): (active: bool)
  {
    if |log| == 0 then initial
    else if log[|log| - 1].SpeedActivityChanged? then log[|log| - 1].active
    else LastActivity(log[..|log| - 1], initial)
  }

  /** Scanning a concatenation: the second part decides, starting from what the first left. */
  lemma {:induction false} LastActivityAppend(a: seq<Notification>, b: seq<Notification>, initial: bool)
    ensures LastActivity(a + b, initial) == LastActivity(b, LastActivity(a, initial))
  {
    if |b| == 0 {
      assert a + b == a;
    } else {
      assert (a + b)[..|a + b| - 1] == a + b[..|b| - 1];
      LastActivityAppend(a, b[..|b| - 1], initial);
    }
  }
}
