/**
 * `LocationProvider`: the later base class with three listener lists
 * (recording state, speed and activity, average speed), their notifications,
 * and the `toggleTracking` dispatch. The abstract queries are fields holding
 * what the concrete subclass answers.
 */
module LocationProviderRegistry {
  import opened Locations
  import opened Events
  import opened Listeners

  class LocationProvider {
    /** `mOnSpeedRecordingStateChangedListeners`. */
    var stateListeners: seq<object>
    /** `mOnSpeedChangedListeners`: speed and activity callbacks. */
    var speedListeners: seq<object>
    /** `mOnAverageSpeedChangedListeners`. */
    var averageSpeedListeners: seq<object>
    /** Every listener callback made so far, in order. */
    var deliveries: seq<Delivery>
    /** What the subclass's `isTrackingReady()`, `isTrackingRunning()` and `isSpeedActive()` answer. */
    var trackingReady: bool
    var trackingRunning: bool
    var speedActive: bool
    /** Calls made to the subclass's `startTracking`/`stopTracking`. */
    var trackingCalls: seq<TrackingCall>

    ghost predicate Valid()
      reads this
    {
      NoDuplicates(stateListeners) && NoDuplicates(speedListeners) && NoDuplicates(averageSpeedListeners)
    }

    constructor (ready: bool, running: bool, active: bool)
      ensures Valid()
      ensures stateListeners == [] && speedListeners == [] && averageSpeedListeners == [] && deliveries == []
      ensures trackingReady == ready && trackingRunning == running && speedActive == active
      ensures trackingCalls == []
    {
      stateListeners, speedListeners, averageSpeedListeners, deliveries := [], [], [], [];
      trackingReady, trackingRunning, speedActive := ready, running, active;
      trackingCalls := [];
    }

    /**
     * The subclass's `startTracking`, as the GPS providers implement it:
     * nothing when not ready, otherwise running and the state listeners hear
     * it (`updateTrackingState(true)`). The fake service is always ready, so
     * it always takes the second branch. The call itself is recorded.
     */
    method StartTracking()
      modifies this`trackingCalls, this`trackingRunning, this`deliveries
      ensures trackingCalls == old(trackingCalls) + [StartTrackingCall]
      ensures trackingRunning == (old(trackingRunning) || trackingReady)
      ensures deliveries == old(deliveries) + if trackingReady then Broadcast(stateListeners, StateChanged(true)) else []
    {
      trackingCalls := trackingCalls + [StartTrackingCall];
      if trackingReady {
        trackingRunning := true;
        NotifyOnStateChanged(true);
      }
    }

    /**
     * The subclass's `stopTracking`, as every implementation in the repository
     * does it: not running, and the state listeners hear it
     * (`updateTrackingState(false)`).
     */
    method StopTracking()
      modifies this`trackingCalls, this`trackingRunning, this`deliveries
      ensures trackingCalls == old(trackingCalls) + [StopTrackingCall]
      ensures !trackingRunning
      ensures deliveries == old(deliveries) + Broadcast(stateListeners, StateChanged(false))
    {
      trackingCalls := trackingCalls + [StopTrackingCall];
      trackingRunning := false;
      NotifyOnStateChanged(false);
    }

    /**
     * `toggleTracking`: stop when running, start otherwise; the running flag
     * flips unless a stopped provider is not ready, and the state listeners
     * hear every change.
     */
    method ToggleTracking()
      modifies this`trackingCalls, this`trackingRunning, this`deliveries
      ensures trackingCalls == old(trackingCalls) + [if old(trackingRunning) then StopTrackingCall else StartTrackingCall]
      ensures trackingRunning == (!old(trackingRunning) && trackingReady)
      ensures deliveries == old(deliveries) + if old(trackingRunning) || trackingReady
                                             then Broadcast(stateListeners, StateChanged(trackingRunning)) else []
    {
      if trackingRunning {
        StopTracking();
      } else {
        StartTracking();
      }
    }

    method RegisterOnLocationServiceStateChangedListener(l: object)
      requires Valid()
      modifies this`stateListeners
      ensures Valid()
      ensures l in old(stateListeners) ==> stateListeners == old(stateListeners)
      ensures l !in old(stateListeners) ==> stateListeners == old(stateListeners) + [l]
    {
      if l in stateListeners {
        return;
      }
      stateListeners := stateListeners + [l];
    }

    method UnregisterOnLocationServiceStateChangedListener(l: object)
      requires Valid()
      modifies this`stateListeners
      ensures Valid()
      ensures stateListeners == Removed(old(stateListeners), l)
      ensures l !in stateListeners
      ensures forall y :: y != l ==> (y in stateListeners <==> y in old(stateListeners))
    {
      RemovedFromNoDuplicates(stateListeners, l);
      if l in stateListeners {
        stateListeners := Removed(stateListeners, l);
      }
    }

    method RegisterOnLocationServiceSpeedChangedListener(l: object)
      requires Valid()
      modifies this`speedListeners
      ensures Valid()
      ensures l in old(speedListeners) ==> speedListeners == old(speedListeners)
      ensures l !in old(speedListeners) ==> speedListeners == old(speedListeners) + [l]
    {
      if l in speedListeners {
        return;
      }
      speedListeners := speedListeners + [l];
    }

    method UnregisterOnLocationServiceSpeedChangedListener(l: object)
      requires Valid()
      modifies this`speedListeners
      ensures Valid()
      ensures speedListeners == Removed(old(speedListeners), l)
      ensures l !in speedListeners
      ensures forall y :: y != l ==> (y in speedListeners <==> y in old(speedListeners))
    {
      RemovedFromNoDuplicates(speedListeners, l);
      if l in speedListeners {
        speedListeners := Removed(speedListeners, l);
      }
    }

    method RegisterOnLocationServiceAverageSpeedChangedListener(l: object)
      requires Valid()
      modifies this`averageSpeedListeners
      ensures Valid()
      ensures l in old(averageSpeedListeners) ==> averageSpeedListeners == old(averageSpeedListeners)
      ensures l !in old(averageSpeedListeners) ==> averageSpeedListeners == old(averageSpeedListeners) + [l]
    {
      if l in averageSpeedListeners {
        return;
      }
      averageSpeedListeners := averageSpeedListeners + [l];
    }

    method UnregisterOnLocationServiceAverageSpeedChangedListener(l: object)
      requires Valid()
      modifies this`averageSpeedListeners
      ensures Valid()
      ensures averageSpeedListeners == Removed(old(averageSpeedListeners), l)
      ensures l !in averageSpeedListeners
      ensures forall y :: y != l ==> (y in averageSpeedListeners <==> y in old(averageSpeedListeners))
    {
      RemovedFromNoDuplicates(averageSpeedListeners, l);
      if l in averageSpeedListeners {
        averageSpeedListeners := Removed(averageSpeedListeners, l);
      }
    }

    method NotifyOnStateChanged(enabled: bool)
      modifies this`deliveries
      ensures deliveries == old(deliveries) + Broadcast(stateListeners, StateChanged(enabled))
    {
      var calls := FanOut(stateListeners, StateChanged(enabled));
      deliveries := deliveries + calls;
    }

    method NotifyOnSpeedChanged(speed: real, location: Sample)
      modifies this`deliveries
      ensures deliveries == old(deliveries) + Broadcast(speedListeners, SpeedChanged(speed, location))
    {
      var calls := FanOut(speedListeners, SpeedChanged(speed, location));
      deliveries := deliveries + calls;
    }

    method NotifyOnSpeedActivityChanged(active: bool)
      modifies this`deliveries
      ensures deliveries == old(deliveries) + Broadcast(speedListeners, SpeedActivityChanged(active))
    {
      var calls := FanOut(speedListeners, SpeedActivityChanged(active));
      deliveries := deliveries + calls;
    }

    method NotifyOnAverageSpeedChanged(averageSpeed: real, distance: real, timeElapsed: int)
      modifies this`deliveries
      ensures deliveries == old(deliveries) + Broadcast(averageSpeedListeners, AverageSpeedChanged(averageSpeed, distance, timeElapsed))
    {
      var calls := FanOut(averageSpeedListeners, AverageSpeedChanged(averageSpeed, distance, timeElapsed));
      deliveries := deliveries + calls;
    }
  }

  /**
   * A client of the registry: a listener registered for speed events gets
   * speed and activity calls, one registered for average speed gets only
   * average-speed calls.
   */
  method ChannelScenario(speed: object, average: object)
    requires speed != average
  {
    var provider := new LocationProvider(true, false, false);
    provider.RegisterOnLocationServiceSpeedChangedListener(speed);
    provider.RegisterOnLocationServiceAverageSpeedChangedListener(average);
    provider.NotifyOnSpeedActivityChanged(true);
    provider.NotifyOnAverageSpeedChanged(12.0, 100.0, 30);
    assert provider.deliveries == [Delivery(speed, SpeedActivityChanged(true)), Delivery(average, AverageSpeedChanged(12.0, 100.0, 30))];
    provider.ToggleTracking();
    assert provider.trackingCalls == [StartTrackingCall] && provider.trackingRunning;
  }
}
