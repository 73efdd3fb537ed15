/**
 * `LocationService`: the base class of the engines. It keeps two listener
 * lists, notifies them, and dispatches `toggleTracking` to the abstract
 * tracking commands.
 */
module LocationServiceRegistry {
  import opened Locations
  import opened Events
  import opened Listeners

  class LocationService {
    /** `mOnLocationServiceStateChangedListeners`. */
    var stateListeners: seq<object>
    /** `mOnLocationServiceSpeedChangedListeners`: speed and activity callbacks. */
    var speedListeners: seq<object>
    /** Every listener callback made so far, in order. */
    var deliveries: seq<Delivery>
    /** What the subclass's `isTrackingRunning()` answers. */
    var trackingRunning: bool
    /** Calls made to the subclass's `startTracking`/`stopTracking`. */
    var trackingCalls: seq<TrackingCall>

    ghost predicate Valid()
      reads this
    {
      NoDuplicates(stateListeners) && NoDuplicates(speedListeners)
    }

    constructor (running: bool)
      ensures Valid()
      ensures stateListeners == [] && speedListeners == [] && deliveries == []
      ensures trackingRunning == running && trackingCalls == []
    {
      stateListeners, speedListeners, deliveries := [], [], [];
      trackingRunning, trackingCalls := running, [];
    }

    /** `toggleTracking`: stop when running, start otherwise. */
    method ToggleTracking()
      modifies this`trackingCalls
      ensures trackingCalls == old(trackingCalls) + [if trackingRunning then StopTrackingCall else StartTrackingCall]
    {
      if trackingRunning {
        trackingCalls := trackingCalls + [StopTrackingCall];
      } else {
        trackingCalls := trackingCalls + [StartTrackingCall];
      }
    }

    method RegisterOnLocationServiceStateChangedListener(l: object)
      requires Valid()
      modifies this`stateListeners
      ensures Valid()
      ensures l in old(stateListeners) ==> stateListeners == old(stateListeners)
      ensures l !in old(stateListeners) ==> stateListeners == old(stateListeners) + [l]
    {
      if l in stateListeners {
        return;
      }
      stateListeners := stateListeners + [l];
    }

    method UnregisterOnLocationServiceStateChangedListener(l: object)
      requires Valid()
      modifies this`stateListeners
      ensures Valid()
      ensures stateListeners == Removed(old(stateListeners), l)
      ensures l !in stateListeners
      ensures forall y :: y != l ==> (y in stateListeners <==> y in old(stateListeners))
    {
      RemovedFromNoDuplicates(stateListeners, l);
      if l in stateListeners {
        stateListeners := Removed(stateListeners, l);
      }
    }

    method RegisterOnLocationServiceSpeedChangedListener(l: object)
      requires Valid()
      modifies this`speedListeners
      ensures Valid()
      ensures l in old(speedListeners) ==> speedListeners == old(speedListeners)
      ensures l !in old(speedListeners) ==> speedListeners == old(speedListeners) + [l]
    {
      if l in speedListeners {
        return;
      }
      speedListeners := speedListeners + [l];
    }

    method UnregisterOnLocationServiceSpeedChangedListener(l: object)
      requires Valid()
      modifies this`speedListeners
      ensures Valid()
      ensures speedListeners == Removed(old(speedListeners), l)
      ensures l !in speedListeners
      ensures forall y :: y != l ==> (y in speedListeners <==> y in old(speedListeners))
    {
      RemovedFromNoDuplicates(speedListeners, l);
      if l in speedListeners {
        speedListeners := Removed(speedListeners, l);
      }
    }

    method NotifyOnStateChanged(enabled: bool)
      modifies this`deliveries
      ensures deliveries == old(deliveries) + Broadcast(stateListeners, StateChanged(enabled))
    {
      var calls := FanOut(stateListeners, StateChanged(enabled));
      deliveries := deliveries + calls;
    }

    method NotifyOnSpeedChanged(speed: real, location: Sample)
      modifies this`deliveries
      ensures deliveries == old(deliveries) + Broadcast(speedListeners, SpeedChanged(speed, location))
    {
      var calls := FanOut(speedListeners, SpeedChanged(speed, location));
      deliveries := deliveries + calls;
    }

    method NotifyOnSpeedActivityChanged(active: bool)
      modifies this`deliveries
      ensures deliveries == old(deliveries) + Broadcast(speedListeners, SpeedActivityChanged(active))
    {
      var calls := FanOut(speedListeners, SpeedActivityChanged(active));
      deliveries := deliveries + calls;
    }
  }

  /**
   * A client of the registry: registering twice, then notifying, reaches the
   * listener once; after unregistering, a notification reaches no one.
   */
  method RegistryScenario(state: object, speed: object)
  {
    var service := new LocationService(false);
    service.RegisterOnLocationServiceStateChangedListener(state);
    service.RegisterOnLocationServiceStateChangedListener(state);
    assert service.stateListeners == [state];
    service.RegisterOnLocationServiceSpeedChangedListener(speed);
    service.NotifyOnStateChanged(true);
    assert service.deliveries == [Delivery(state, StateChanged(true))];
    service.NotifyOnSpeedActivityChanged(false);
    assert service.deliveries == [Delivery(state, StateChanged(true)), Delivery(speed, SpeedActivityChanged(false))];
    service.UnregisterOnLocationServiceStateChangedListener(state);
    assert service.stateListeners == [];
    service.NotifyOnStateChanged(false);
    assert |service.deliveries| == 2;
  }
}
