/**
 * `service/GpsLocationProvider`: the same engine as the `service/gps`
 * snapshot, talking to the location manager itself. Ready means the location
 * permission is granted and the GPS provider is enabled; starting and
 * stopping request and remove the provider's own location updates.
 */
module DirectGpsEngine {
  import opened Locations
  import opened Events
  import opened Platform
  import ProviderEngine

  class GpsLocationProvider {
    /** `mLocationManager`, with the permission state of `mContext`. */
    const manager: LocationManager
    /** `Location.distanceTo` of the platform. */
    const distanceTo: DistanceFn
    /** `mStartLocation`: the anchor of the running section. */
    var startLocation: Sample
    /** `mLastLocation`. */
    var lastLocation: Sample
    /** `mTrackingRunning`. */
    var trackingRunning: bool
    /** `mSpeedActive`. */
    var speedActive: bool
    /** `mDistance`, in meters. */
    var distance: real
    /** `mTimeElapsed`, in seconds. */
    var timeElapsed: int
    /** The inherited `notify*` calls made so far, in order. */
    var notifications: seq<Notification>

    /** The fields, as a value of the state machine. */
    function State(): (e: ProviderEngine.Engine)
      reads this
    {
      ProviderEngine.Engine(startLocation, lastLocation, trackingRunning, speedActive, Section(distance, timeElapsed))
    }

    ghost predicate Valid()
      reads this
    {
      ProviderEngine.Inv(State())
    }

    /** The private constructor: `initParameters`, then `initComponents` fetches the manager. */
    constructor (manager: LocationManager, distanceTo: DistanceFn)
      ensures Valid()
      ensures State() == ProviderEngine.Initial && notifications == []
      ensures this.manager == manager && this.distanceTo == distanceTo
    {
      this.manager := manager;
      this.distanceTo := distanceTo;
      trackingRunning, distance, timeElapsed := false, 0.0, 0;
      startLocation, lastLocation := Cleared, Cleared;
      speedActive := false;
      notifications := [];
    }

    method UpdateTrackingState(running: bool)
      modifies this`trackingRunning, this`notifications
      ensures trackingRunning == running
      ensures notifications == old(notifications) + [StateChanged(running)]
    {
      trackingRunning := running;
      notifications := notifications + [StateChanged(running)];
    }

    method UpdateLocationSpeed(speed: real, location: Sample)
      modifies this`notifications
      ensures notifications == old(notifications) + [SpeedChanged(Units.ConvertMsToKmH(speed) as real, location)]
    {
      notifications := notifications + [SpeedChanged(Units.ConvertMsToKmH(speed) as real, location)];
    }

    method UpdateSpeedActive(active: bool)
      modifies this`speedActive, this`notifications
      ensures speedActive == active
      ensures notifications == old(notifications) + [SpeedActivityChanged(active)]
    {
      speedActive := active;
      notifications := notifications + [SpeedActivityChanged(active)];
    }

    method ResetLocations()
      modifies this`startLocation, this`lastLocation
      ensures startLocation == Cleared && lastLocation == Cleared
    {
      startLocation, lastLocation := Cleared, Cleared;
    }

    method ComputeSectionParamsToLocation(toLocation: Sample)
      modifies this`distance, this`timeElapsed
      ensures Section(distance, timeElapsed) == ComputeSection(distanceTo, startLocation, toLocation)
      ensures distance >= 0.0 && timeElapsed >= 0
    {
      distance := ComputeDistance(distanceTo, startLocation, toLocation);
      timeElapsed := ComputeTimeElapsed(startLocation, toLocation);
    }

    method IsTrackingReady() returns (r: bool)
      ensures r == manager.TrackingReady()
    {
      r := manager.TrackingReady();
    }

    method IsTrackingRunning() returns (r: bool)
      ensures r == trackingRunning
    {
      r := trackingRunning;
    }

    /** `isSpeedActive`: with the invariant, true exactly while an anchor is armed. */
    method IsSpeedActive() returns (r: bool)
      requires Valid()
      ensures r == speedActive
      ensures r <==> Armed(startLocation)
    {
      r := speedActive;
    }

    /** `getAverageSpeedHistory`: the last section's average speed in km/h. */
    method GetAverageSpeedHistory() returns (r: int)
      ensures r == AverageSpeedHistory(Section(distance, timeElapsed))
    {
      r := AverageSpeedHistory(Section(distance, timeElapsed));
    }

    /** `startTracking`: nothing when not ready, else request updates for this listener and go running. */
    method StartTracking()
      requires Valid()
      modifies this`trackingRunning, this`notifications, manager`listeners
      ensures Valid()
      ensures var s := ProviderEngine.StartTracking(old(State()), old(manager.TrackingReady()));
              State() == s.next && notifications == old(notifications) + s.events
      ensures manager.listeners == if old(manager.TrackingReady()) then old(manager.listeners) + {this} else old(manager.listeners)
    {
      ProviderEngine.HandlersPreserveInv(State(), Cleared, 0, manager.TrackingReady(), distanceTo);
      var ready := IsTrackingReady();
      if !ready {
        return;
      }
      manager.RequestLocationUpdates(this);
      UpdateTrackingState(true);
    }

    /** `stopTracking`: remove this listener's updates and stop running. */
    method StopTracking()
      requires Valid()
      modifies this`trackingRunning, this`notifications, manager`listeners
      ensures Valid()
      ensures var s := ProviderEngine.StopTracking(old(State()));
              State() == s.next && notifications == old(notifications) + s.events
      ensures manager.listeners == old(manager.listeners) - {this}
    {
      ProviderEngine.HandlersPreserveInv(State(), Cleared, 0, false, distanceTo);
      manager.RemoveUpdates(this);
      UpdateTrackingState(false);
    }

    /** `toggleTracking` (inherited from `LocationService`). */
    method ToggleTracking()
      requires Valid()
      modifies this`trackingRunning, this`notifications, manager`listeners
      ensures Valid()
      ensures var s := ProviderEngine.ToggleTracking(old(State()), old(manager.TrackingReady()));
              State() == s.next && notifications == old(notifications) + s.events
      ensures manager.listeners == if old(trackingRunning) then old(manager.listeners) - {this}
                                   else if old(manager.TrackingReady()) then old(manager.listeners) + {this}
                                   else old(manager.listeners)
    {
      var running := IsTrackingRunning();
      if running {
        StopTracking();
      } else {
        StartTracking();
      }
    }

    /** `onLocationChanged`. */
    method OnLocationChanged(location: Sample)
      requires Valid()
      modifies this
      ensures Valid()
      ensures var s := ProviderEngine.OnLocationChanged(old(State()), location, distanceTo);
              State() == s.next && notifications == old(notifications) + s.events
    {
      ProviderEngine.HandlersPreserveInv(State(), location, 0, false, distanceTo);
      lastLocation := location;
      if location.speed >= ProviderEngine.MIN_SPEED_RUNNING && startLocation.speed == 0.0 {
        startLocation := location;
        UpdateSpeedActive(true);
      } else if location.speed < ProviderEngine.MIN_SPEED_RUNNING && startLocation.speed > 0.0 {
        ComputeSectionParamsToLocation(location);
        ResetLocations();
        UpdateSpeedActive(false);
      }
      UpdateLocationSpeed(location.speed, location);
    }

    /** `onProviderDisabled`. */
    method OnProviderDisabled()
      requires Valid()
      modifies this
      ensures Valid()
      ensures var s := ProviderEngine.OnProviderDisabled(old(State()), distanceTo);
              State() == s.next && notifications == old(notifications) + s.events
    {
      ProviderEngine.HandlersPreserveInv(State(), Cleared, 0, false, distanceTo);
      ComputeSectionParamsToLocation(lastLocation);
      ResetLocations();
      UpdateTrackingState(false);
      UpdateSpeedActive(false);
    }

    /** `onProviderEnabled`. */
    method OnProviderEnabled()
      requires Valid()
      modifies this
      ensures Valid()
      ensures var s := ProviderEngine.OnProviderEnabled(old(State()));
              State() == s.next && notifications == old(notifications) + s.events
    {
      ProviderEngine.HandlersPreserveInv(State(), Cleared, 0, false, distanceTo);
      UpdateTrackingState(true);
    }

    /** `onStatusChanged`. */
    method OnStatusChanged(status: int)
      requires Valid()
      modifies this
      ensures Valid()
      ensures var s := ProviderEngine.OnStatusChanged(old(State()), status);
              State() == s.next && notifications == old(notifications) + s.events
    {
      ProviderEngine.HandlersPreserveInv(State(), Cleared, status, false, distanceTo);
      if status == AVAILABLE {
        UpdateTrackingState(true);
      } else {
        UpdateTrackingState(false);
      }
    }
  }

  /**
   * Without the location permission nothing starts; once it is granted,
   * starting requests updates for the provider and a fast sample arms it.
   */
  method PermissionScenario(distanceTo: DistanceFn, p: Position)
  {
    var manager := new LocationManager(false, true);
    var provider := new GpsLocationProvider(manager, distanceTo);
    provider.StartTracking();
    assert manager.listeners == {} && !provider.trackingRunning && provider.notifications == [];
    manager.permissionGranted := true;
    provider.StartTracking();
    assert manager.listeners == {provider} && provider.trackingRunning;
    provider.OnLocationChanged(Sample(2.0, 0, p));
    assert provider.speedActive && provider.startLocation == Sample(2.0, 0, p);
    provider.OnProviderDisabled();
    assert !provider.speedActive && !provider.trackingRunning;
    assert provider.notifications[|provider.notifications| - 2..] == [StateChanged(false), SpeedActivityChanged(false)];
  }
}
