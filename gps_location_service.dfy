/**
 * `service/GpsLocationService`: the oldest snapshot of the engine. The
 * section state lives in an inner `GpsLocationListener`; the service keeps
 * only `mTrackingEnabled`. It differs from `GpsLocationProvider` in three
 * ways: the threshold is 3 km/h, a reset clears only the anchor (the last
 * location always holds the latest sample), and `startTracking` requests
 * updates without touching the running flag.
 */
module ServiceEngine {
  import opened Units
  import opened Locations
  import opened Events
  import opened Platform

  /** `MIN_SPEED_RUNNING = 3f / 3.6f`: 3 km/h in m/s. */
  const MIN_SPEED_RUNNING: real := 3.0 / FACTOR_M_PER_S_TO_KM_PER_H

  // ---------------------------------------------------------------------
  // The state machine
  // ---------------------------------------------------------------------

  /** The listener's fields and the service's running flag. */
  datatype Tracker = Tracker(begin: Sample, last: Sample, section: Section, trackingEnabled: bool)

  /** A fresh service: both locations cleared, no section, not running. */
  const Initial: Tracker := Tracker(Cleared, Cleared, NoSection, false)

  /** An anchor is either cleared or at or above the threshold, and the section is never negative. */
  ghost predicate Inv(t: Tracker)
  {
    && (t.begin.speed == 0.0 || t.begin.speed >= MIN_SPEED_RUNNING)
    && t.section.distance >= 0.0
    && t.section.timeElapsed >= 0
  }

  /** The state after a handler and the `notify*` calls it made, in order. */
  datatype Step = Step(next: Tracker, events: seq<Notification>)

  /**
   * `GpsLocationListener.onLocationChanged`: the sample becomes the last
   * location, the running flag is untouched, arming or disarming comes with a
   * notification of the new activity, and the speed notification comes last.
   */
  function OnLocationChanged(t: Tracker, location: Sample, distanceTo: DistanceFn): (s: Step)
    ensures s.next.last == location && s.next.trackingEnabled == t.trackingEnabled
    ensures 1 <= |s.events| && s.events[|s.events| - 1] == SpeedNotification(location)
    ensures Armed(s.next.begin) != Armed(t.begin) ==> s.events[0] == SpeedActivityChanged(Armed(s.next.begin))
  {
    var seen := t.(last := location);
    if location.speed >= MIN_SPEED_RUNNING && t.begin.speed == 0.0 then
      Step(seen.(begin := location), [SpeedActivityChanged(true), SpeedNotification(location)])
    else if location.speed < MIN_SPEED_RUNNING && t.begin.speed > 0.0 then
      Step(seen.(section := ComputeSection(distanceTo, t.begin, location), begin := Cleared),
           [SpeedActivityChanged(false), SpeedNotification(location)])
    else
      Step(seen, [SpeedNotification(location)])
  }

  /** `updateTrackingState`: only the running flag changes, and the listeners hear its new value. */
  function UpdateTrackingState(t: Tracker, enabled: bool): (s: Step)
    ensures s.next.trackingEnabled == enabled && s.next.(trackingEnabled := t.trackingEnabled) == t
    ensures s.events == [StateChanged(enabled)]
  {
    Step(t.(trackingEnabled := enabled), [StateChanged(enabled)])
  }

  /**
   * `GpsLocationListener.onProviderDisabled`: stopped and disarmed with a
   * non-negative section, while the last location is kept.
   */
  function OnProviderDisabled(t: Tracker, distanceTo: DistanceFn): (s: Step)
    ensures !s.next.trackingEnabled && !Armed(s.next.begin) && s.next.last == t.last
    ensures s.next.section.distance >= 0.0 && s.next.section.timeElapsed >= 0
    ensures s.events == [StateChanged(false), SpeedActivityChanged(false)]
  {
    Step(t.(section := ComputeSection(distanceTo, t.begin, t.last), begin := Cleared, trackingEnabled := false),
         [StateChanged(false), SpeedActivityChanged(false)])
  }

  /** `GpsLocationListener.onProviderEnabled`: running, and nothing else changes. */
  function OnProviderEnabled(t: Tracker): (s: Step)
    ensures s.next == t.(trackingEnabled := true) && s.events == [StateChanged(true)]
  {
    UpdateTrackingState(t, true)
  }

  /** `GpsLocationListener.onStatusChanged`: AVAILABLE means running, any other status means stopped. */
  function OnStatusChanged(t: Tracker, status: int): (s: Step)
    ensures s.next.trackingEnabled <==> status == AVAILABLE
    ensures s.next.(trackingEnabled := t.trackingEnabled) == t
    ensures s.events == [StateChanged(s.next.trackingEnabled)]
  {
    UpdateTrackingState(t, status == AVAILABLE)
  }

  /** `startTracking`: whether ready or not, the state is unchanged and the listeners hear nothing. */
  function StartTracking(t: Tracker): (s: Step)
    ensures s.next == t && s.events == []
  {
    Step(t, [])
  }

  /** `stopTracking`: not running, whatever the state, and the listeners hear it. */
  function StopTracking(t: Tracker): (s: Step)
    ensures !s.next.trackingEnabled && s.next.(trackingEnabled := t.trackingEnabled) == t
    ensures s.events == [StateChanged(false)]
  {
    UpdateTrackingState(t, false)
  }

  /**
   * `toggleTracking` (inherited): since start never sets the flag, a toggle
   * can only stop; a stopped service stays stopped and says nothing.
   */
  function ToggleTracking(t: Tracker): (s: Step)
    ensures !s.next.trackingEnabled && s.next.(trackingEnabled := t.trackingEnabled) == t
    ensures s.events == if t.trackingEnabled then [StateChanged(false)] else []
  {
    if t.trackingEnabled then StopTracking(t) else StartTracking(t)
  }

  /** A stream of samples fed to `onLocationChanged` one after the other. */
  function Run(t: Tracker, samples: seq<Sample>, distanceTo: DistanceFn): (s: Step)
    decreases |samples|
  {
    if |samples| == 0 then Step(t, [])
    else
      var first := OnLocationChanged(t, samples[0], distanceTo);
      var rest := Run(first.next, samples[1..], distanceTo);
      Step(rest.next, first.events + rest.events)
  }

  // ---------------------------------------------------------------------
  // Properties
  // ---------------------------------------------------------------------

  lemma HandlersPreserveInv(t: Tracker, location: Sample, status: int, distanceTo: DistanceFn)
    requires Inv(t)
    ensures Inv(OnLocationChanged(t, location, distanceTo).next)
    ensures Inv(OnProviderDisabled(t, distanceTo).next)
    ensures Inv(OnProviderEnabled(t).next)
    ensures Inv(OnStatusChanged(t, status).next)
    ensures Inv(StartTracking(t).next)
    ensures Inv(StopTracking(t).next)
    ensures Inv(ToggleTracking(t).next)
  {
  }

  /**
   * Arm and close: arming happens exactly on a sample at or above 3 km/h
   * while nothing is armed and makes it the anchor; closing happens exactly on
   * a sample below it while armed and records the section to that sample.
   * Arming notifies active-true, closing active-false, and the speed
   * notification comes last either way.
   */
  lemma ArmAndCloseRule(t: Tracker, location: Sample, distanceTo: DistanceFn)
    requires Inv(t)
    ensures var s := OnLocationChanged(t, location, distanceTo);
            (!Armed(t.begin) && Armed(s.next.begin)) <==> (location.speed >= MIN_SPEED_RUNNING && !Armed(t.begin))
    ensures var s := OnLocationChanged(t, location, distanceTo);
            (Armed(t.begin) && !Armed(s.next.begin)) <==> (location.speed < MIN_SPEED_RUNNING && Armed(t.begin))
    ensures var s := OnLocationChanged(t, location, distanceTo);
            location.speed >= MIN_SPEED_RUNNING && !Armed(t.begin) ==>
              s.next.begin == location && s.events == [SpeedActivityChanged(true), SpeedNotification(location)]
    ensures var s := OnLocationChanged(t, location, distanceTo);
            location.speed < MIN_SPEED_RUNNING && Armed(t.begin) ==>
              s.next.section == ComputeSection(distanceTo, t.begin, location)
              && s.events == [SpeedActivityChanged(false), SpeedNotification(location)]
    ensures var s := OnLocationChanged(t, location, distanceTo);
            s.events[|s.events| - 1] == SpeedNotification(location) && 1 <= |s.events| <= 2
  {
  }

  /** The last location is the latest sample, a close included: a reset never clears it. */
  lemma {:induction false} LastIsLatestSample(t: Tracker, samples: seq<Sample>, distanceTo: DistanceFn)
    requires |samples| > 0
    ensures Run(t, samples, distanceTo).next.last == samples[|samples| - 1]
    decreases |samples|
  {
    if |samples| > 1 {
      LastIsLatestSample(OnLocationChanged(t, samples[0], distanceTo).next, samples[1..], distanceTo);
    }
  }

  /** The invariant holds after any stream of samples. */
  lemma {:induction false} RunPreservesInv(t: Tracker, samples: seq<Sample>, distanceTo: DistanceFn)
    requires Inv(t)
    ensures Inv(Run(t, samples, distanceTo).next)
    decreases |samples|
  {
    if |samples| > 0 {
      HandlersPreserveInv(t, samples[0], 0, distanceTo);
      RunPreservesInv(OnLocationChanged(t, samples[0], distanceTo).next, samples[1..], distanceTo);
    }
  }

  /**
   * Although this engine keeps no activity flag, the activity its listeners
   * last heard about is always whether an anchor is armed.
   */
  lemma {:induction false} NotifiedActivityIsArmed(t: Tracker, samples: seq<Sample>, distanceTo: DistanceFn)
    requires Inv(t)
    ensures var r := Run(t, samples, distanceTo);
            LastActivity(r.events, Armed(t.begin)) == Armed(r.next.begin)
    decreases |samples|
  {
    if |samples| > 0 {
      var first := OnLocationChanged(t, samples[0], distanceTo);
      var rest := Run(first.next, samples[1..], distanceTo);
      assert LastActivity(first.events, Armed(t.begin)) == Armed(first.next.begin) by {
        assert first.events[..|first.events| - 1] == if |first.events| == 2 then [first.events[0]] else [];
        if |first.events| == 2 {
          assert [first.events[0]][..0] == [];
        }
      }
      HandlersPreserveInv(t, samples[0], 0, distanceTo);
      NotifiedActivityIsArmed(first.next, samples[1..], distanceTo);
      LastActivityAppend(first.events, rest.events, Armed(t.begin));
    }
  }

  /**
   * Provider disabled: the section is measured from the anchor to the last
   * location, only the anchor is cleared, and the listeners hear
   * running-false then active-false.
   */
  lemma DisabledRule(t: Tracker, distanceTo: DistanceFn)
    ensures var s := OnProviderDisabled(t, distanceTo);
            && s.next.section == ComputeSection(distanceTo, t.begin, t.last)
            && s.next.begin == Cleared && s.next.last == t.last
            && !s.next.trackingEnabled
            && s.events == [StateChanged(false), SpeedActivityChanged(false)]
  {
  }

  /**
   * Tracking commands: starting never changes the running flag nor notifies,
   * so only provider-enabled or status AVAILABLE set it; stopping always clears
   * it and notifies once.
   */
  lemma TrackingCommands(t: Tracker, status: int)
    ensures StartTracking(t) == Step(t, [])
    ensures StopTracking(t) == Step(t.(trackingEnabled := false), [StateChanged(false)])
    ensures OnProviderEnabled(t).next.trackingEnabled
    ensures OnStatusChanged(t, status).next.trackingEnabled <==> status == AVAILABLE
    ensures !t.trackingEnabled ==> !ToggleTracking(t).next.trackingEnabled
  {
  }

  /** Samples never change the running flag. */
  lemma {:induction false} RunKeepsTrackingFlag(t: Tracker, samples: seq<Sample>, distanceTo: DistanceFn)
    ensures Run(t, samples, distanceTo).next.trackingEnabled == t.trackingEnabled
    decreases |samples|
  {
    if |samples| > 0 {
      RunKeepsTrackingFlag(OnLocationChanged(t, samples[0], distanceTo).next, samples[1..], distanceTo);
    }
  }

  /**
   * The 3 km/h threshold: a sample of 2 km/h neither arms a fresh tracker
   * (it would arm `GpsLocationProvider`, whose threshold is 1 km/h) nor keeps
   * an armed one active.
   */
  lemma ThresholdIsThreeKmH(t: Tracker, p: Position, nanos: int, distanceTo: DistanceFn)
    requires Inv(t)
    ensures var slow := Sample(2.0 / FACTOR_M_PER_S_TO_KM_PER_H, nanos, p);
            !Armed(OnLocationChanged(t, slow, distanceTo).next.begin)
    ensures ConvertMsToKmH(MIN_SPEED_RUNNING) == 3
  {
  }
}

/** The classes of `GpsLocationService`, proved against `ServiceEngine`. */
module ListenerGpsEngine {
  import opened Units
  import opened Locations
  import opened Events
  import opened Platform
  import opened ServiceEngine

  /** The inner `GpsLocationListener`: anchor, last location and the last section. */
  class GpsLocationListener {
    const distanceTo: DistanceFn
    /** `beginLocation`. */
    var beginLocation: Sample
    /** `lastLocation`. */
    var lastLocation: Sample
    /** `distance`, in meters. */
    var distance: real
    /** `timeElapsed`, in seconds. */
    var timeElapsed: int

    constructor (distanceTo: DistanceFn)
      ensures this.distanceTo == distanceTo
      ensures beginLocation == Cleared && lastLocation == Cleared && distance == 0.0 && timeElapsed == 0
    {
      this.distanceTo := distanceTo;
      beginLocation, lastLocation := Cleared, Cleared;
      distance, timeElapsed := 0.0, 0;
    }

    method GetDistance() returns (r: real)
      ensures r == distance
    {
      r := distance;
    }

    method GetTimeElapsed() returns (r: int)
      ensures r == timeElapsed
    {
      r := timeElapsed;
    }

    method ResetLocations()
      modifies this`beginLocation
      ensures beginLocation == Cleared
    {
      beginLocation := Cleared;
    }

    method UpdateSectionParamsToLocation(toLocation: Sample)
      modifies this`distance, this`timeElapsed
      ensures Section(distance, timeElapsed) == ComputeSection(distanceTo, beginLocation, toLocation)
      ensures distance >= 0.0 && timeElapsed >= 0
    {
      distance := ComputeDistance(distanceTo, beginLocation, toLocation);
      timeElapsed := ComputeTimeElapsed(beginLocation, toLocation);
    }

    /** `onLocationChanged`; `outer` is the enclosing service. */
    method OnLocationChanged(outer: GpsLocationService, location: Sample)
      requires outer.listener == this && outer.Valid()
      modifies this, outer`notifications
      ensures outer.Valid()
      ensures var s := ServiceEngine.OnLocationChanged(old(outer.State()), location, distanceTo);
              outer.State() == s.next && outer.notifications == old(outer.notifications) + s.events
    {
      HandlersPreserveInv(outer.State(), location, 0, distanceTo);
      lastLocation := location;
      if location.speed >= MIN_SPEED_RUNNING && beginLocation.speed == 0.0 {
        beginLocation := location;
        outer.NotifyOnSpeedActivityChanged(true);
      } else if location.speed < MIN_SPEED_RUNNING && beginLocation.speed > 0.0 {
        UpdateSectionParamsToLocation(location);
        ResetLocations();
        outer.NotifyOnSpeedActivityChanged(false);
      }
      outer.UpdateLocationSpeed(location.speed, location);
    }

    /** `onProviderDisabled`. */
    method OnProviderDisabled(outer: GpsLocationService)
      requires outer.listener == this && outer.Valid()
      modifies this, outer`notifications, outer`trackingEnabled
      ensures outer.Valid()
      ensures var s := ServiceEngine.OnProviderDisabled(old(outer.State()), distanceTo);
              outer.State() == s.next && outer.notifications == old(outer.notifications) + s.events
    {
      HandlersPreserveInv(outer.State(), Cleared, 0, distanceTo);
      UpdateSectionParamsToLocation(lastLocation);
      ResetLocations();
      outer.UpdateTrackingState(false);
      outer.NotifyOnSpeedActivityChanged(false);
    }

    /** `onProviderEnabled`. */
    method OnProviderEnabled(outer: GpsLocationService)
      requires outer.listener == this && outer.Valid()
      modifies outer`notifications, outer`trackingEnabled
      ensures outer.Valid()
      ensures var s := ServiceEngine.OnProviderEnabled(old(outer.State()));
              outer.State() == s.next && outer.notifications == old(outer.notifications) + s.events
    {
      outer.UpdateTrackingState(true);
    }

    /** `onStatusChanged`. */
    method OnStatusChanged(outer: GpsLocationService, status: int)
      requires outer.listener == this && outer.Valid()
      modifies outer`notifications, outer`trackingEnabled
      ensures outer.Valid()
      ensures var s := ServiceEngine.OnStatusChanged(old(outer.State()), status);
              outer.State() == s.next && outer.notifications == old(outer.notifications) + s.events
    {
      if status == AVAILABLE {
        outer.UpdateTrackingState(true);
      } else {
        outer.UpdateTrackingState(false);
      }
    }
  }

  class GpsLocationService {
    /** `mLocationManager`, with the permission state of `mContext`. */
    const manager: LocationManager
    /** `mLocationListener`. */
    const listener: GpsLocationListener
    /** `mTrackingEnabled`. */
    var trackingEnabled: bool
    /** The inherited `notify*` calls made so far, in order. */
    var notifications: seq<Notification>

    /** The listener's fields and the running flag, as a value of the state machine. */
    function State(): (t: Tracker)
      reads this, listener
    {
      Tracker(listener.beginLocation, listener.lastLocation,
              Section(listener.distance, listener.timeElapsed), trackingEnabled)
    }

    ghost predicate Valid()
      reads this, listener
    {
      Inv(State())
    }

    /** The private constructor and `initComponents`. */
    constructor (manager: LocationManager, distanceTo: DistanceFn)
      ensures Valid() && fresh(listener)
      ensures State() == Initial && notifications == []
      ensures this.manager == manager && listener.distanceTo == distanceTo
    {
      this.manager := manager;
      listener := new GpsLocationListener(distanceTo);
      trackingEnabled := false;
      notifications := [];
    }

    method UpdateTrackingState(enabled: bool)
      modifies this`trackingEnabled, this`notifications
      ensures trackingEnabled == enabled
      ensures notifications == old(notifications) + [StateChanged(enabled)]
    {
      trackingEnabled := enabled;
      notifications := notifications + [StateChanged(enabled)];
    }

    method UpdateLocationSpeed(speed: real, location: Sample)
      modifies this`notifications
      ensures notifications == old(notifications) + [SpeedChanged(ConvertMsToKmH(speed) as real, location)]
    {
      notifications := notifications + [SpeedChanged(ConvertMsToKmH(speed) as real, location)];
    }

    /** The inherited `notifyOnSpeedActivityChanged`, called by the inner listener. */
    method NotifyOnSpeedActivityChanged(active: bool)
      modifies this`notifications
      ensures notifications == old(notifications) + [SpeedActivityChanged(active)]
    {
      notifications := notifications + [SpeedActivityChanged(active)];
    }

    method IsTrackingReady() returns (r: bool)
      ensures r == manager.TrackingReady()
    {
      r := manager.TrackingReady();
    }

    method IsTrackingRunning() returns (r: bool)
      ensures r == trackingEnabled
    {
      r := trackingEnabled;
    }

    /** `startTracking`: when ready, request updates for the listener; the flag is left alone. */
    method StartTracking()
      requires Valid()
      modifies manager`listeners
      ensures Valid()
      ensures var s := ServiceEngine.StartTracking(old(State()));
              State() == s.next && notifications == old(notifications) + s.events
      ensures manager.listeners == if old(manager.TrackingReady()) then old(manager.listeners) + {listener} else old(manager.listeners)
    {
      var ready := IsTrackingReady();
      if !ready {
        return;
      }
      manager.RequestLocationUpdates(listener);
    }

    /** `stopTracking`: remove the listener's updates, stop running and notify. */
    method StopTracking()
      requires Valid()
      modifies this`trackingEnabled, this`notifications, manager`listeners
      ensures Valid()
      ensures var s := ServiceEngine.StopTracking(old(State()));
              State() == s.next && notifications == old(notifications) + s.events
      ensures manager.listeners == old(manager.listeners) - {listener}
    {
      manager.RemoveUpdates(listener);
      UpdateTrackingState(false);
    }

    /** `toggleTracking` (inherited from `LocationService`). */
    method ToggleTracking()
      requires Valid()
      modifies this`trackingEnabled, this`notifications, manager`listeners
      ensures Valid()
      ensures var s := ServiceEngine.ToggleTracking(old(State()));
              State() == s.next && notifications == old(notifications) + s.events
      ensures manager.listeners == if old(trackingEnabled) then old(manager.listeners) - {listener}
                                   else if old(manager.TrackingReady()) then old(manager.listeners) + {listener}
                                   else old(manager.listeners)
    {
      var running := IsTrackingRunning();
      if running {
        StopTracking();
      } else {
        StartTracking();
      }
    }

    /** `getAverageSpeedHistory`: the listener's section in km/h. */
    method GetAverageSpeedHistory() returns (r: int)
      ensures r == AverageSpeedHistory(Section(listener.distance, listener.timeElapsed))
    {
      var d := listener.GetDistance();
      var t := listener.GetTimeElapsed();
      r := AverageSpeedHistory(Section(d, t));
    }
  }

  /**
   * A ready service: starting requests updates but does not report running;
   * the provider coming up does. A section that closes keeps the closing
   * sample as the last location.
   */
  method ServiceScenario(distanceTo: DistanceFn, p: Position)
  {
    var manager := new LocationManager(true, true);
    var service := new GpsLocationService(manager, distanceTo);
    var listener := service.listener;
    service.StartTracking();
    assert manager.listeners == {listener} && !service.trackingEnabled;
    listener.OnProviderEnabled(service);
    assert service.trackingEnabled;
    listener.OnLocationChanged(service, Sample(10.0, 0, p));
    assert Armed(listener.beginLocation);
    listener.OnLocationChanged(service, Sample(0.0, 5, p));
    assert !Armed(listener.beginLocation) && listener.lastLocation == Sample(0.0, 5, p);
    assert service.notifications[|service.notifications| - 2] == SpeedActivityChanged(false);
    service.StopTracking();
    assert manager.listeners == {} && !service.trackingEnabled;
  }
}
