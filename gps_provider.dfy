/**
 * `service/gps/GpsLocationProvider`: the engine that reaches the location
 * manager through a `GpsLocationCallback`. Its fields are updated in place by
 * the handlers; each handler is proved to move the fields exactly as the
 * `ProviderEngine` state machine says and to make the same `notify*` calls,
 * in the same order.
 */
module GpsEngine {
  import opened Locations
  import opened Events
  import opened Platform
  import ProviderEngine

  class GpsLocationProvider {
    /** `mLocationCallback`. */
    const callback: GpsLocationCallback
    /** `Location.distanceTo` of the platform. */
    const distanceTo: DistanceFn
    /** `mStartLocation`: the anchor of the running section. */
    var startLocation: Sample
    /** `mLastLocation`. */
    var lastLocation: Sample
    /** `mTrackingRunning`. */
    var trackingRunning: bool
    /** `mSpeedActive`. */
    var speedActive: bool
    /** `mDistance`, in meters. */
    var distance: real
    /** `mTimeElapsed`, in seconds. */
    var timeElapsed: int
    /** The inherited `notify*` calls made so far, in order. */
    var notifications: seq<Notification>

    /** The fields, as a value of the state machine. */
    function State(): (e: ProviderEngine.Engine)
      reads this
    {
      ProviderEngine.Engine(startLocation, lastLocation, trackingRunning, speedActive, Section(distance, timeElapsed))
    }

    ghost predicate Valid()
      reads this
    {
      ProviderEngine.Inv(State())
    }

    /** The package-private constructor: `initParameters`, then keep the callback. */
    constructor (callback: GpsLocationCallback, distanceTo: DistanceFn)
      ensures Valid()
      ensures State() == ProviderEngine.Initial && notifications == []
      ensures this.callback == callback && this.distanceTo == distanceTo
    {
      this.callback := callback;
      this.distanceTo := distanceTo;
      trackingRunning, distance, timeElapsed := false, 0.0, 0;
      startLocation, lastLocation := Cleared, Cleared;
      speedActive := false;
      notifications := [];
    }

    method UpdateTrackingState(running: bool)
      modifies this`trackingRunning, this`notifications
      ensures trackingRunning == running
      ensures notifications == old(notifications) + [StateChanged(running)]
    {
      trackingRunning := running;
      notifications := notifications + [StateChanged(running)];
    }

    method UpdateLocationSpeed(speed: real, location: Sample)
      modifies this`notifications
      ensures notifications == old(notifications) + [SpeedChanged(Units.ConvertMsToKmH(speed) as real, location)]
    {
      notifications := notifications + [SpeedChanged(Units.ConvertMsToKmH(speed) as real, location)];
    }

    method UpdateSpeedActive(active: bool)
      modifies this`speedActive, this`notifications
      ensures speedActive == active
      ensures notifications == old(notifications) + [SpeedActivityChanged(active)]
    {
      speedActive := active;
      notifications := notifications + [SpeedActivityChanged(active)];
    }

    method ResetLocations()
      modifies this`startLocation, this`lastLocation
      ensures startLocation == Cleared && lastLocation == Cleared
    {
      startLocation, lastLocation := Cleared, Cleared;
    }

    method ComputeSectionParamsToLocation(toLocation: Sample)
      modifies this`distance, this`timeElapsed
      ensures Section(distance, timeElapsed) == ComputeSection(distanceTo, startLocation, toLocation)
      ensures distance >= 0.0 && timeElapsed >= 0
    {
      distance := ComputeDistance(distanceTo, startLocation, toLocation);
      timeElapsed := ComputeTimeElapsed(startLocation, toLocation);
    }

    method IsTrackingReady() returns (r: bool)
      ensures r == callback.trackingReady
    {
      r := callback.IsTrackingReady();
    }

    method IsTrackingRunning() returns (r: bool)
      ensures r == trackingRunning
    {
      r := trackingRunning;
    }

    /** `isSpeedActive`: with the invariant, true exactly while an anchor is armed. */
    method IsSpeedActive() returns (r: bool)
      requires Valid()
      ensures r == speedActive
      ensures r <==> Armed(startLocation)
    {
      r := speedActive;
    }

    /** `getAverageSpeedHistory`: the last section's average speed in km/h. */
    method GetAverageSpeedHistory() returns (r: int)
      ensures r == AverageSpeedHistory(Section(distance, timeElapsed))
    {
      r := AverageSpeedHistory(Section(distance, timeElapsed));
    }

    /** `startTracking`: nothing when not ready, else register this listener and go running. */
    method StartTracking()
      requires Valid()
      modifies this`trackingRunning, this`notifications, callback`listeners
      ensures Valid()
      ensures var s := ProviderEngine.StartTracking(old(State()), old(callback.trackingReady));
              State() == s.next && notifications == old(notifications) + s.events
      ensures callback.listeners == if old(callback.trackingReady) then old(callback.listeners) + {this} else old(callback.listeners)
    {
      ProviderEngine.HandlersPreserveInv(State(), Cleared, 0, callback.trackingReady, distanceTo);
      var ready := IsTrackingReady();
      if !ready {
        return;
      }
      callback.StartTracking(this);
      UpdateTrackingState(true);
    }

    /** `stopTracking`: unregister this listener and stop running. */
    method StopTracking()
      requires Valid()
      modifies this`trackingRunning, this`notifications, callback`listeners
      ensures Valid()
      ensures var s := ProviderEngine.StopTracking(old(State()));
              State() == s.next && notifications == old(notifications) + s.events
      ensures callback.listeners == old(callback.listeners) - {this}
    {
      ProviderEngine.HandlersPreserveInv(State(), Cleared, 0, false, distanceTo);
      callback.StopTracking(this);
      UpdateTrackingState(false);
    }

    /** `toggleTracking` (inherited from `LocationService`). */
    method ToggleTracking()
      requires Valid()
      modifies this`trackingRunning, this`notifications, callback`listeners
      ensures Valid()
      ensures var s := ProviderEngine.ToggleTracking(old(State()), old(callback.trackingReady));
              State() == s.next && notifications == old(notifications) + s.events
      ensures callback.listeners == if old(trackingRunning) then old(callback.listeners) - {this}
                                    else if old(callback.trackingReady) then old(callback.listeners) + {this}
                                    else old(callback.listeners)
    {
      var running := IsTrackingRunning();
      if running {
        StopTracking();
      } else {
        StartTracking();
      }
    }

    /** `onLocationChanged`. */
    method OnLocationChanged(location: Sample)
      requires Valid()
      modifies this
      ensures Valid()
      ensures var s := ProviderEngine.OnLocationChanged(old(State()), location, distanceTo);
              State() == s.next && notifications == old(notifications) + s.events
    {
      ProviderEngine.HandlersPreserveInv(State(), location, 0, false, distanceTo);
      lastLocation := location;
      if location.speed >= ProviderEngine.MIN_SPEED_RUNNING && startLocation.speed == 0.0 {
        startLocation := location;
        UpdateSpeedActive(true);
      } else if location.speed < ProviderEngine.MIN_SPEED_RUNNING && startLocation.speed > 0.0 {
        ComputeSectionParamsToLocation(location);
        ResetLocations();
        UpdateSpeedActive(false);
      }
      UpdateLocationSpeed(location.speed, location);
    }

    /** `onProviderDisabled`. */
    method OnProviderDisabled()
      requires Valid()
      modifies this
      ensures Valid()
      ensures var s := ProviderEngine.OnProviderDisabled(old(State()), distanceTo);
              State() == s.next && notifications == old(notifications) + s.events
    {
      ProviderEngine.HandlersPreserveInv(State(), Cleared, 0, false, distanceTo);
      ComputeSectionParamsToLocation(lastLocation);
      ResetLocations();
      UpdateTrackingState(false);
      UpdateSpeedActive(false);
    }

    /** `onProviderEnabled`. */
    method OnProviderEnabled()
      requires Valid()
      modifies this
      ensures Valid()
      ensures var s := ProviderEngine.OnProviderEnabled(old(State()));
              State() == s.next && notifications == old(notifications) + s.events
    {
      ProviderEngine.HandlersPreserveInv(State(), Cleared, 0, false, distanceTo);
      UpdateTrackingState(true);
    }

    /** `onStatusChanged`. */
    method OnStatusChanged(status: int)
      requires Valid()
      modifies this
      ensures Valid()
      ensures var s := ProviderEngine.OnStatusChanged(old(State()), status);
              State() == s.next && notifications == old(notifications) + s.events
    {
      ProviderEngine.HandlersPreserveInv(State(), Cleared, status, false, distanceTo);
      if status == AVAILABLE {
        UpdateTrackingState(true);
      } else {
        UpdateTrackingState(false);
      }
    }
  }

  /** The provider's listener tests: starting registers one listener, stopping removes it. */
  method ListenerTests(distanceTo: DistanceFn)
  {
    var callback := new GpsLocationCallback(true);
    var provider := new GpsLocationProvider(callback, distanceTo);
    var ready := provider.IsTrackingReady();
    assert ready;
    provider.StartTracking();
    assert |callback.listeners| == 1;
    provider.StopTracking();
    assert |callback.listeners| == 0;
  }

  /**
   * The start of the provider's speed-activity test, on an enabled provider:
   * a speed of 0 reads inactive, then 5 reads active.
   */
  method SpeedActivityTest(distanceTo: DistanceFn, p: Position)
  {
    var callback := new GpsLocationCallback(true);
    var provider := new GpsLocationProvider(callback, distanceTo);
    provider.StartTracking();
    var active;
    provider.OnLocationChanged(Sample(0.0, 0, p));
    active := provider.IsSpeedActive();
    assert !active;
    provider.OnLocationChanged(Sample(5.0, 1, p));
    active := provider.IsSpeedActive();
    assert active;
  }

  /** The middle of that test: once active, 20 and then 3 keep it active. */
  method StaysActiveTest(distanceTo: DistanceFn, p: Position)
  {
    var callback := new GpsLocationCallback(true);
    var provider := new GpsLocationProvider(callback, distanceTo);
    provider.StartTracking();
    var active;
    provider.OnLocationChanged(Sample(5.0, 1, p));
    provider.OnLocationChanged(Sample(20.0, 2, p));
    active := provider.IsSpeedActive();
    assert active;
    provider.OnLocationChanged(Sample(3.0, 3, p));
    active := provider.IsSpeedActive();
    assert active;
  }

  /**
   * The end of that test: once active, exactly the threshold keeps the provider
   * active and 0.01 below it makes it inactive; stopping unregisters it.
   */
  method ThresholdTest(distanceTo: DistanceFn, p: Position)
  {
    var callback := new GpsLocationCallback(true);
    var provider := new GpsLocationProvider(callback, distanceTo);
    provider.StartTracking();
    var active;
    provider.OnLocationChanged(Sample(3.0, 3, p));
    provider.OnLocationChanged(Sample(ProviderEngine.MIN_SPEED_RUNNING, 4, p));
    active := provider.IsSpeedActive();
    assert active;
    provider.OnLocationChanged(Sample(ProviderEngine.MIN_SPEED_RUNNING - 0.01, 5, p));
    active := provider.IsSpeedActive();
    assert !active;
    provider.StopTracking();
    assert callback.listeners == {};
  }
}
