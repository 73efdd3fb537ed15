/**
 * The speed-activity / section state machine of `GpsLocationProvider`, as a
 * function of the engine's fields. Both snapshots of that class (the one in
 * `service/` that talks to the location manager itself, and the one in
 * `service/gps/` that goes through a `GpsLocationCallback`) run exactly this
 * machine; their classes are proved against it.
 */
module ProviderEngine {
  import opened Units
  import opened Locations
  import opened Events

  /** `MIN_SPEED_RUNNING = 1f / 3.6f`: 1 km/h in m/s (the comment beside it says 3 km/h). */
  const MIN_SPEED_RUNNING: real := 1.0 / FACTOR_M_PER_S_TO_KM_PER_H

  /** The engine's fields: anchor, last location, the two flags and the last section. */
  datatype Engine = Engine(
    start: Sample,
    last: Sample,
    trackingRunning: bool,
    speedActive: bool,
    section: Section)

  /** The state `initParameters` sets up. */
  const Initial: Engine := Engine(Cleared, Cleared, false, false, NoSection)

  /**
   * What every handler keeps: the activity flag says whether an anchor is
   * armed, an anchor is either cleared or a sample at or above the threshold,
   * and the section is never negative.
   */
  ghost predicate Inv(e: Engine)
  {
    && (e.speedActive <==> Armed(e.start))
    && (e.start.speed == 0.0 || e.start.speed >= MIN_SPEED_RUNNING)
    && e.section.distance >= 0.0
    && e.section.timeElapsed >= 0
  }

  /** The state after a handler and the `notify*` calls it made, in order. */
  datatype Step = Step(next: Engine, events: seq<Notification>)

  /**
   * `onLocationChanged`: the running flag is untouched, the activity flag
   * changes only together with a notification of its new value, and the
   * speed notification comes last.
   */
  function OnLocationChanged(e: Engine, location: Sample, distanceTo: DistanceFn): (s: Step)
    ensures s.next.trackingRunning == e.trackingRunning
    ensures 1 <= |s.events| && s.events[|s.events| - 1] == SpeedNotification(location)
    ensures s.next.speedActive != e.speedActive ==> s.events[0] == SpeedActivityChanged(s.next.speedActive)
  {
    var seen := e.(last := location);
    if location.speed >= MIN_SPEED_RUNNING && e.start.speed == 0.0 then
      Step(seen.(start := location, speedActive := true),
           [SpeedActivityChanged(true), SpeedNotification(location)])
    else if location.speed < MIN_SPEED_RUNNING && e.start.speed > 0.0 then
      Step(seen.(section := ComputeSection(distanceTo, e.start, location),
                 start := Cleared, last := Cleared, speedActive := false),
           [SpeedActivityChanged(false), SpeedNotification(location)])
    else
      Step(seen, [SpeedNotification(location)])
  }

  /** `updateTrackingState`: only the running flag changes, and the listeners hear its new value. */
  function UpdateTrackingState(e: Engine, running: bool): (s: Step)
    ensures s.next.trackingRunning == running && s.next.(trackingRunning := e.trackingRunning) == e
    ensures s.events == [StateChanged(running)]
  {
    Step(e.(trackingRunning := running), [StateChanged(running)])
  }

  /**
   * `onProviderDisabled`: close against the last location, reset, stop,
   * deactivate; the engine is left idle with a non-negative section.
   */
  function OnProviderDisabled(e: Engine, distanceTo: DistanceFn): (s: Step)
    ensures !s.next.trackingRunning && !s.next.speedActive && !Armed(s.next.start)
    ensures s.next.section.distance >= 0.0 && s.next.section.timeElapsed >= 0
    ensures s.events == [StateChanged(false), SpeedActivityChanged(false)]
  {
    Step(e.(section := ComputeSection(distanceTo, e.start, e.last),
            start := Cleared, last := Cleared, trackingRunning := false, speedActive := false),
         [StateChanged(false), SpeedActivityChanged(false)])
  }

  /** `onProviderEnabled`: running, and nothing else changes. */
  function OnProviderEnabled(e: Engine): (s: Step)
    ensures s.next == e.(trackingRunning := true) && s.events == [StateChanged(true)]
  {
    UpdateTrackingState(e, true)
  }

  /** `onStatusChanged`: AVAILABLE means running, any other status means stopped. */
  function OnStatusChanged(e: Engine, status: int): (s: Step)
    ensures s.next.trackingRunning <==> status == AVAILABLE
    ensures s.next.(trackingRunning := e.trackingRunning) == e
    ensures s.events == [StateChanged(s.next.trackingRunning)]
  {
    UpdateTrackingState(e, status == AVAILABLE)
  }

  /**
   * `startTracking`, given what `isTrackingReady()` answers: running when
   * ready, otherwise nothing at all happens.
   */
  function StartTracking(e: Engine, ready: bool): (s: Step)
    ensures s.next.trackingRunning == (ready || e.trackingRunning)
    ensures s.next.(trackingRunning := e.trackingRunning) == e
    ensures s.events == if ready then [StateChanged(true)] else []
  {
    if ready then UpdateTrackingState(e, true) else Step(e, [])
  }

  /** `stopTracking`: not running, whatever the state, and the listeners hear it. */
  function StopTracking(e: Engine): (s: Step)
    ensures !s.next.trackingRunning && s.next.(trackingRunning := e.trackingRunning) == e
    ensures s.events == [StateChanged(false)]
  {
    UpdateTrackingState(e, false)
  }

  /**
   * `toggleTracking` (inherited): the running flag flips, except that a
   * stopped engine that is not ready stays stopped and says nothing.
   */
  function ToggleTracking(e: Engine, ready: bool): (s: Step)
    ensures s.next.trackingRunning == (!e.trackingRunning && ready)
    ensures s.next.(trackingRunning := e.trackingRunning) == e
    ensures s.events == if e.trackingRunning || ready then [StateChanged(s.next.trackingRunning)] else []
  {
    if e.trackingRunning then StopTracking(e) else StartTracking(e, ready)
  }

  /** A stream of samples fed to `onLocationChanged` one after the other. */
  function Run(e: Engine, samples: seq<Sample>, distanceTo: DistanceFn): (s: Step)
    decreases |samples|
  {
    if |samples| == 0 then Step(e, [])
    else
      var first := OnLocationChanged(e, samples[0], distanceTo);
      var rest := Run(first.next, samples[1..], distanceTo);
      Step(rest.next, first.events + rest.events)
  }

  // ---------------------------------------------------------------------
  // One sample
  // ---------------------------------------------------------------------

  lemma InitialIsValid()
    ensures Inv(Initial)
    ensures !Initial.speedActive && !Initial.trackingRunning
  {
  }

  /** Every handler keeps the invariant. */
  lemma HandlersPreserveInv(e: Engine, location: Sample, status: int, ready: bool, distanceTo: DistanceFn)
    requires Inv(e)
    ensures Inv(OnLocationChanged(e, location, distanceTo).next)
    ensures Inv(OnProviderDisabled(e, distanceTo).next)
    ensures Inv(OnProviderEnabled(e).next)
    ensures Inv(OnStatusChanged(e, status).next)
    ensures Inv(StartTracking(e, ready).next)
    ensures Inv(StopTracking(e).next)
    ensures Inv(ToggleTracking(e, ready).next)
  {
  }

  /**
   * Arming: the activity flag turns on exactly when a sample at or above the
   * threshold arrives while no anchor is armed, and that sample becomes the
   * anchor. An activity-on notification is emitted exactly then.
   */
  lemma ArmRule(e: Engine, location: Sample, distanceTo: DistanceFn)
    requires Inv(e)
    ensures var s := OnLocationChanged(e, location, distanceTo);
            (!e.speedActive && s.next.speedActive) <==> (location.speed >= MIN_SPEED_RUNNING && !Armed(e.start))
    ensures var s := OnLocationChanged(e, location, distanceTo);
            location.speed >= MIN_SPEED_RUNNING && !Armed(e.start) ==> s.next.start == location
    ensures var s := OnLocationChanged(e, location, distanceTo);
            SpeedActivityChanged(true) in s.events <==> (location.speed >= MIN_SPEED_RUNNING && !Armed(e.start))
  {
  }

  /** While armed, further samples at or above the threshold neither re-arm nor close. */
  lemma NoRearm(e: Engine, location: Sample, distanceTo: DistanceFn)
    requires Inv(e) && Armed(e.start)
    requires location.speed >= MIN_SPEED_RUNNING
    ensures var s := OnLocationChanged(e, location, distanceTo);
            s.next == e.(last := location) && s.events == [SpeedNotification(location)]
  {
  }

  /**
   * Closing: an armed engine that sees a sample below the threshold records
   * the section from the anchor to that sample, clears the anchor AND the last
   * location (which it had just set to the closing sample), and deactivates.
   */
  lemma CloseRule(e: Engine, location: Sample, distanceTo: DistanceFn)
    requires Inv(e) && Armed(e.start)
    requires location.speed < MIN_SPEED_RUNNING
    ensures var s := OnLocationChanged(e, location, distanceTo);
            && s.next.section == ComputeSection(distanceTo, e.start, location)
            && s.next.start == Cleared && s.next.last == Cleared
            && !s.next.speedActive && s.next.trackingRunning == e.trackingRunning
            && s.events == [SpeedActivityChanged(false), SpeedNotification(location)]
  {
  }

  /** Below the threshold with nothing armed: no transition, no section, only the speed event. */
  lemma StationaryStaysStationary(e: Engine, location: Sample, distanceTo: DistanceFn)
    requires Inv(e) && !Armed(e.start)
    requires location.speed < MIN_SPEED_RUNNING
    ensures var s := OnLocationChanged(e, location, distanceTo);
            s.next == e.(last := location) && s.events == [SpeedNotification(location)]
  {
  }

  /**
   * The threshold is inclusive: a sample of exactly `MIN_SPEED_RUNNING` keeps
   * an armed engine active, one 0.01 m/s below closes the section.
   */
  lemma BoundaryIsInclusive(e: Engine, p: Position, nanos: int, distanceTo: DistanceFn)
    requires Inv(e) && Armed(e.start)
    ensures OnLocationChanged(e, Sample(MIN_SPEED_RUNNING, nanos, p), distanceTo).next.speedActive
    ensures !OnLocationChanged(e, Sample(MIN_SPEED_RUNNING - 0.01, nanos, p), distanceTo).next.speedActive
  {
  }

  /**
   * Every sample yields exactly one speed notification, carrying the rounded
   * km/h speed; it is the last notification of the handler and can only be
   * preceded by one activity notification.
   */
  lemma OneSpeedEventLast(e: Engine, location: Sample, distanceTo: DistanceFn)
    ensures var s := OnLocationChanged(e, location, distanceTo);
            && 1 <= |s.events| <= 2
            && s.events[|s.events| - 1] == SpeedChanged(ConvertMsToKmH(location.speed) as real, location)
            && (|s.events| == 2 ==> s.events[0].SpeedActivityChanged?)
            && SpeedEvents(s.events) == 1
  {
    var s := OnLocationChanged(e, location, distanceTo);
    if |s.events| == 2 {
      assert s.events[1..] == [s.events[1]];
      assert s.events[1..][1..] == [];
      assert SpeedEvents(s.events[1..]) == 1;
    } else {
      assert s.events[1..] == [];
    }
  }

  /**
   * Provider disabled, armed or not: the section is measured from the anchor
   * to the last location, both are cleared, and the listeners hear
   * running-false then active-false.
   */
  lemma DisabledForcesClose(e: Engine, distanceTo: DistanceFn)
    ensures var s := OnProviderDisabled(e, distanceTo);
            && s.next.section == ComputeSection(distanceTo, e.start, e.last)
            && s.next.start == Cleared && s.next.last == Cleared
            && !s.next.trackingRunning && !s.next.speedActive
            && s.events == [StateChanged(false), SpeedActivityChanged(false)]
  {
  }

  /**
   * Because a close also clears the last location, disabling the provider
   * right after a close overwrites the section just recorded with one measured
   * between two cleared locations, of zero elapsed time.
   */
  lemma DisableAfterCloseLosesSection(e: Engine, location: Sample, distanceTo: DistanceFn)
    requires Inv(e) && Armed(e.start) && location.speed < MIN_SPEED_RUNNING
    ensures var closed := OnLocationChanged(e, location, distanceTo).next;
            OnProviderDisabled(closed, distanceTo).next.section
              == Section(ComputeDistance(distanceTo, Cleared, Cleared), 0)
  {
  }

  /**
   * Tracking commands: start does nothing when not ready and otherwise sets
   * running and notifies once; stop always clears running and notifies; the
   * status maps AVAILABLE to running and anything else to stopped.
   */
  lemma TrackingCommands(e: Engine, ready: bool, status: int)
    ensures !ready ==> StartTracking(e, ready) == Step(e, [])
    ensures ready ==> StartTracking(e, ready).next == e.(trackingRunning := true)
    ensures ready ==> StartTracking(e, ready).events == [StateChanged(true)]
    ensures StopTracking(e).next == e.(trackingRunning := false)
    ensures StopTracking(e).events == [StateChanged(false)]
    ensures OnStatusChanged(e, status).next.trackingRunning <==> status == AVAILABLE
    ensures ToggleTracking(e, ready) == if e.trackingRunning then StopTracking(e) else StartTracking(e, ready)
  {
  }

  /** The activity flag after a sample is the value of the last activity notification, if any. */
  lemma StepActiveIsLastActivity(e: Engine, location: Sample, distanceTo: DistanceFn)
    requires Inv(e)
    ensures var s := OnLocationChanged(e, location, distanceTo);
            s.next.speedActive == LastActivity(s.events, e.speedActive)
  {
    var s := OnLocationChanged(e, location, distanceTo);
    assert s.events[..|s.events| - 1] == if |s.events| == 2 then [s.events[0]] else [];
    if |s.events| == 2 {
      assert [s.events[0]][..0] == [];
    }
  }

  // ---------------------------------------------------------------------
  // Streams of samples
  // ---------------------------------------------------------------------

  /** Running two streams one after the other is running their concatenation. */
  lemma {:induction false} RunAppend(e: Engine, a: seq<Sample>, b: seq<Sample>, distanceTo: DistanceFn)
    ensures var ra := Run(e, a, distanceTo);
            var rb := Run(ra.next, b, distanceTo);
            Run(e, a + b, distanceTo) == Step(rb.next, ra.events + rb.events)
    decreases |a|
  {
    if |a| == 0 {
      assert a + b == b;
    } else {
      assert (a + b)[0] == a[0];
      assert (a + b)[1..] == a[1..] + b;
      var first := OnLocationChanged(e, a[0], distanceTo);
      RunAppend(first.next, a[1..], b, distanceTo);
    }
  }

  /** The invariant holds after any stream of samples. */
  lemma {:induction false} RunPreservesInv(e: Engine, samples: seq<Sample>, distanceTo: DistanceFn)
    requires Inv(e)
    ensures Inv(Run(e, samples, distanceTo).next)
    decreases |samples|
  {
    if |samples| > 0 {
      HandlersPreserveInv(e, samples[0], 0, false, distanceTo);
      RunPreservesInv(OnLocationChanged(e, samples[0], distanceTo).next, samples[1..], distanceTo);
    }
  }

  /** A stream of n samples produces exactly n speed notifications. */
  lemma {:induction false} RunSpeedEvents(e: Engine, samples: seq<Sample>, distanceTo: DistanceFn)
    ensures SpeedEvents(Run(e, samples, distanceTo).events) == |samples|
    decreases |samples|
  {
    if |samples| > 0 {
      var first := OnLocationChanged(e, samples[0], distanceTo);
      OneSpeedEventLast(e, samples[0], distanceTo);
      RunSpeedEvents(first.next, samples[1..], distanceTo);
      CountsDistribute(first.events, Run(first.next, samples[1..], distanceTo).events);
    }
  }

  /**
   * `isSpeedActive()` after any stream is exactly the flag of the last
   * activity notification (`updateSpeedActive`), or the starting flag if none.
   */
  lemma {:induction false} RunActiveIsLastActivity(e: Engine, samples: seq<Sample>, distanceTo: DistanceFn)
    requires Inv(e)
    ensures var r := Run(e, samples, distanceTo);
            r.next.speedActive == LastActivity(r.events, e.speedActive)
    decreases |samples|
  {
    if |samples| > 0 {
      var first := OnLocationChanged(e, samples[0], distanceTo);
      var rest := Run(first.next, samples[1..], distanceTo);
      StepActiveIsLastActivity(e, samples[0], distanceTo);
      HandlersPreserveInv(e, samples[0], 0, false, distanceTo);
      RunActiveIsLastActivity(first.next, samples[1..], distanceTo);
      LastActivityAppend(first.events, rest.events, e.speedActive);
    }
  }

  /**
   * While armed, samples at or above the threshold leave the anchor, the
   * flags and the section alone and produce no activity notification.
   */
  lemma {:induction false} MovingRun(e: Engine, samples: seq<Sample>, distanceTo: DistanceFn)
    requires Inv(e) && Armed(e.start)
    requires forall i :: 0 <= i < |samples| ==> samples[i].speed >= MIN_SPEED_RUNNING
    ensures var r := Run(e, samples, distanceTo);
            && r.next.start == e.start && r.next.speedActive == e.speedActive
            && r.next.section == e.section && r.next.trackingRunning == e.trackingRunning
            && ActivityEvents(r.events, true) == 0 && ActivityEvents(r.events, false) == 0
    decreases |samples|
  {
    if |samples| > 0 {
      var first := OnLocationChanged(e, samples[0], distanceTo);
      NoRearm(e, samples[0], distanceTo);
      MovingRun(first.next, samples[1..], distanceTo);
      CountsDistribute(first.events, Run(first.next, samples[1..], distanceTo).events);
    }
  }

  /**
   * A whole section: starting with nothing armed, a sample at or above the
   * threshold, any number of samples at or above it, then one below it. The
   * engine goes active exactly once (on the first sample) and inactive
   * exactly once (on the last), ends inactive with nothing armed, and the
   * section is measured from the first sample to the last one.
   */
  lemma SectionLifecycle(e: Engine, opening: Sample, moving: seq<Sample>, closing: Sample, distanceTo: DistanceFn)
    requires Inv(e) && !Armed(e.start)
    requires opening.speed >= MIN_SPEED_RUNNING
    requires forall i :: 0 <= i < |moving| ==> moving[i].speed >= MIN_SPEED_RUNNING
    requires closing.speed < MIN_SPEED_RUNNING
    ensures var r := Run(e, [opening] + moving + [closing], distanceTo);
            && ActivityEvents(r.events, true) == 1
            && ActivityEvents(r.events, false) == 1
            && !r.next.speedActive && r.next.start == Cleared && r.next.last == Cleared
            && r.next.section == ComputeSection(distanceTo, opening, closing)
  {
    var armed := OnLocationChanged(e, opening, distanceTo);
    var mid := Run(armed.next, moving, distanceTo);
    var closed := OnLocationChanged(mid.next, closing, distanceTo);
    assert Run(e, [opening] + moving + [closing], distanceTo)
        == Step(closed.next, armed.events + mid.events + closed.events) by {
      RunBetween(e, opening, moving, closing, distanceTo);
    }
    assert armed.next.start == opening by {
      ArmRule(e, opening, distanceTo);
    }
    assert Inv(armed.next) by {
      HandlersPreserveInv(e, opening, 0, false, distanceTo);
    }
    assert Armed(opening);
    assert Inv(mid.next) && mid.next.start == opening by {
      MovingRun(armed.next, moving, distanceTo);
      RunPreservesInv(armed.next, moving, distanceTo);
    }
    assert ActivityEvents(mid.events, true) == 0 && ActivityEvents(mid.events, false) == 0 by {
      MovingRun(armed.next, moving, distanceTo);
    }
    CloseRule(mid.next, closing, distanceTo);
    assert armed.events == [SpeedActivityChanged(true), SpeedNotification(opening)];
    TransitionCounts(armed.events, mid.events, closed.events, SpeedNotification(opening), SpeedNotification(closing), true);
    TransitionCounts(armed.events, mid.events, closed.events, SpeedNotification(opening), SpeedNotification(closing), false);
  }

  /** A stream of a first sample, a middle part and a last sample, taken apart. */
  lemma RunBetween(e: Engine, first: Sample, middle: seq<Sample>, last: Sample, distanceTo: DistanceFn)
    ensures var a := OnLocationChanged(e, first, distanceTo);
            var m := Run(a.next, middle, distanceTo);
            var c := OnLocationChanged(m.next, last, distanceTo);
            Run(e, [first] + middle + [last], distanceTo) == Step(c.next, a.events + m.events + c.events)
  {
    var a := OnLocationChanged(e, first, distanceTo);
    var m := Run(a.next, middle, distanceTo);
    RunSingle(e, first, distanceTo);
    RunSingle(m.next, last, distanceTo);
    RunAppend(e, [first], middle, distanceTo);
    RunAppend(e, [first] + middle, [last], distanceTo);
  }

  /** Activity counts of an arm, a run without activity changes, and a close. */
  lemma TransitionCounts(a: seq<Notification>, m: seq<Notification>, c: seq<Notification>,
                         onEvent: Notification, offEvent: Notification, active: bool)
    requires onEvent.SpeedChanged? && offEvent.SpeedChanged?
    requires a == [SpeedActivityChanged(true), onEvent] && c == [SpeedActivityChanged(false), offEvent]
    requires ActivityEvents(m, active) == 0
    ensures ActivityEvents(a + m + c, active) == 1
  {
    PairActivityEvents(true, onEvent, active);
    PairActivityEvents(false, offEvent, active);
    CountsDistribute(a, m);
    CountsDistribute(a + m, c);
  }

  /** Counting in the two-event log of a transition. */
  lemma PairActivityEvents(b: bool, speed: Notification, active: bool)
    requires speed.SpeedChanged?
    ensures ActivityEvents([SpeedActivityChanged(b), speed], active) == if b == active then 1 else 0
  {
    var log := [SpeedActivityChanged(b), speed];
    assert log[1..] == [speed];
    assert log[1..][1..] == [];
    assert ActivityEvents(log[1..], active) == 0;
  }

  /** A stream of one sample is that sample's handler. */
  lemma RunSingle(e: Engine, location: Sample, distanceTo: DistanceFn)
    ensures Run(e, [location], distanceTo) == OnLocationChanged(e, location, distanceTo)
  {
    var s := OnLocationChanged(e, location, distanceTo);
    assert [location][1..] == [];
    assert s.events + [] == s.events;
  }

  /**
   * The sample sequence of the provider's unit test: 0, 5, 20, 3 m/s, exactly
   * the threshold, then 0.01 below it. The flag reads false, true, true,
   * true, true, false.
   */
  lemma TrackSpeedActivityScenario(distanceTo: DistanceFn, p: Position)
  {
    var e0 := StartTracking(Initial, true).next;
    var e1 := OnLocationChanged(e0, Sample(0.0, 0, p), distanceTo).next;
    assert !e1.speedActive;
    var e2 := OnLocationChanged(e1, Sample(5.0, 0, p), distanceTo).next;
    assert e2.speedActive;
    var e3 := OnLocationChanged(e2, Sample(20.0, 0, p), distanceTo).next;
    assert e3.speedActive;
    var e4 := OnLocationChanged(e3, Sample(3.0, 0, p), distanceTo).next;
    assert e4.speedActive;
    var e5 := OnLocationChanged(e4, Sample(MIN_SPEED_RUNNING, 0, p), distanceTo).next;
    assert e5.speedActive;
    var e6 := OnLocationChanged(e5, Sample(MIN_SPEED_RUNNING - 0.01, 0, p), distanceTo).next;
    assert !e6.speedActive;
  }
}
