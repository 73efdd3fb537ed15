/**
 * What the engines see of the operating system: the GPS callback interface
 * of the `service/gps` snapshot and the location manager the older
 * snapshots talk to directly. Each is a readiness answer plus the set of
 * listeners currently registered for location updates.
 */
module Platform {
  /** `GpsLocationCallback`: readiness, and (un)registration of a location listener. */
  class GpsLocationCallback {
    /** What `isTrackingReady()` answers. */
    var trackingReady: bool
    /** The listeners registered with the location manager behind the callback. */
    var listeners: set<object>

    constructor (ready: bool)
      ensures trackingReady == ready && listeners == {}
    {
      trackingReady, listeners := ready, {};
    }

    method IsTrackingReady() returns (r: bool)
      ensures r == trackingReady
    {
      r := trackingReady;
    }

    /** `startTracking(listener)`: request location updates for `l`. */
    method StartTracking(l: object)
      modifies this`listeners
      ensures listeners == old(listeners) + {l}
    {
      listeners := listeners + {l};
    }

    /** `stopTracking(listener)`: remove the updates of `l`. */
    method StopTracking(l: object)
      modifies this`listeners
      ensures listeners == old(listeners) - {l}
    {
      listeners := listeners - {l};
    }
  }

  /**
   * The location manager together with the permission state: ready means
   * the location permission is granted and the GPS provider is enabled.
   */
  class LocationManager {
    var permissionGranted: bool
    var providerEnabled: bool
    /** The listeners registered for updates of the GPS provider. */
    var listeners: set<object>

    constructor (granted: bool, enabled: bool)
      ensures permissionGranted == granted && providerEnabled == enabled && listeners == {}
    {
      permissionGranted, providerEnabled, listeners := granted, enabled, {};
    }

    /** `isLocationPermissionGranted(context) && isProviderEnabled(GPS_PROVIDER)`. */
    function TrackingReady(): (ready: bool)
      reads this
    {
      permissionGranted && providerEnabled
    }

    /** `requestLocationUpdates(GPS_PROVIDER, 500, 0, l)`. */
    method RequestLocationUpdates(l: object)
      modifies this`listeners
      ensures listeners == old(listeners) + {l}
    {
      listeners := listeners + {l};
    }

    /** `removeUpdates(l)`. */
    method RemoveUpdates(l: object)
      modifies this`listeners
      ensures listeners == old(listeners) - {l}
    {
      listeners := listeners - {l};
    }
  }
}
