/**
 * `SpeedTrackingPresenter`: turns user actions into tracking commands and
 * provider events into view commands. The view records the commands it is
 * given; the presenter's two listener objects are the ones it registers with
 * a `LocationProvider`.
 */
module SpeedTracking {
  import opened Locations
  import opened Events
  import opened Listeners
  import opened LocationProviderRegistry

  /** The calls of `SpeedTrackingContract.View`. */
  datatype ViewCommand =
    | UpdateButtonState(start: bool)
    | ShowTrackingNotReady
    | ShowInstantSpeedScreen
    | ShowFeedbackScreen

  /** `showInstantSpeedScreen(show)`: the instant-speed screen when `show`, the feedback screen otherwise. */
  function ScreenFor(show: bool): (c: ViewCommand)
    ensures c == ShowInstantSpeedScreen <==> show
    ensures c == ShowFeedbackScreen <==> !show
  {
    if show then ShowInstantSpeedScreen else ShowFeedbackScreen
  }

  /** The view commands the presenter's listeners issue for one event. */
  function Response(event: Notification): (r: seq<ViewCommand>)
    ensures event.StateChanged? ==> r == [ScreenFor(event.enabled), UpdateButtonState(!event.enabled)]
    ensures event.SpeedActivityChanged? ==> r == [ScreenFor(event.active)]
    ensures r == [] <==> event.SpeedChanged? || event.AverageSpeedChanged?
  {
    match event
    case StateChanged(enabled) => [ScreenFor(enabled), UpdateButtonState(!enabled)]
    case SpeedActivityChanged(active) => [ScreenFor(active)]
    case SpeedChanged(_, _) => []
    case AverageSpeedChanged(_, _, _) => []
  }

  /** The view commands for a sequence of events, in arrival order. */
  function Responses(events: seq<Notification>): (r: seq<ViewCommand>)
  {
    if |events| == 0 then [] else Response(events[0]) + Responses(events[1..])
  }

  /** Responses to consecutive parts of an event stream are consecutive. */
  lemma {:induction false} ResponsesAppend(a: seq<Notification>, b: seq<Notification>)
    ensures Responses(a + b) == Responses(a) + Responses(b)
  {
    if |a| == 0 {
      assert a + b == b;
    } else {
      assert (a + b)[0] == a[0];
      assert (a + b)[1..] == a[1..] + b;
      ResponsesAppend(a[1..], b);
    }
  }

  /**
   * Activity events map one-to-one, in order, onto screens: the k-th
   * activity event shows the instant-speed screen exactly when it says active.
   */
  lemma {:induction false} ActivityScreensInOrder(events: seq<Notification>)
    requires forall i :: 0 <= i < |events| ==> events[i].SpeedActivityChanged?
    ensures |Responses(events)| == |events|
    ensures forall k :: 0 <= k < |events| ==> Responses(events)[k] == ScreenFor(events[k].active)
  {
    if |events| > 0 {
      ActivityScreensInOrder(events[1..]);
      assert Responses(events) == [ScreenFor(events[0].active)] + Responses(events[1..]);
    }
  }

  /** Speed events never reach the view. */
  lemma {:induction false} SpeedEventsAreSilent(events: seq<Notification>)
    requires forall i :: 0 <= i < |events| ==> events[i].SpeedChanged?
    ensures Responses(events) == []
  {
    if |events| > 0 {
      SpeedEventsAreSilent(events[1..]);
    }
  }

  /**
   * What one call of a `notify*` loop makes the presenter's listeners do: the
   * state listener answers the state changes addressed to it, the speed
   * listener the activity and speed changes addressed to it. Calls to any
   * other listener do not reach this view.
   */
  function HeardOne(d: Delivery, state: object, speed: object): (r: seq<ViewCommand>)
  {
    if d.listener == state && d.event.StateChanged? then Response(d.event)
    else if d.listener == speed && (d.event.SpeedActivityChanged? || d.event.SpeedChanged?) then Response(d.event)
    else []
  }

  /** What a sequence of calls makes the presenter's listeners do, in call order. */
  function Heard(calls: seq<Delivery>, state: object, speed: object): (r: seq<ViewCommand>)
  {
    if |calls| == 0 then [] else HeardOne(calls[0], state, speed) + Heard(calls[1..], state, speed)
  }

  lemma {:induction false} HeardAppend(a: seq<Delivery>, b: seq<Delivery>, state: object, speed: object)
    ensures Heard(a + b, state, speed) == Heard(a, state, speed) + Heard(b, state, speed)
  {
    if |a| == 0 {
      assert a + b == b;
    } else {
      assert (a + b)[0] == a[0];
      assert (a + b)[1..] == a[1..] + b;
      HeardAppend(a[1..], b, state, speed);
    }
  }

  /**
   * A state change broadcast over a list without duplicates reaches the
   * presenter once if its state listener is registered, and not at all
   * otherwise: the view gets the matching screen and button state once.
   */
  lemma {:induction false} HeardStateBroadcast(listeners: seq<object>, enabled: bool, state: object, speed: object)
    requires NoDuplicates(listeners)
    ensures Heard(Broadcast(listeners, StateChanged(enabled)), state, speed)
            == if state in listeners then Response(StateChanged(enabled)) else []
  {
    if |listeners| > 0 {
      assert NoDuplicates(listeners[1..]);
      HeardStateBroadcast(listeners[1..], enabled, state, speed);
      assert listeners[0] == state ==> state !in listeners[1..];
      assert state in listeners <==> listeners[0] == state || state in listeners[1..];
    }
  }

  /** The view: the commands it has been given, in order. */
  class View {
    var commands: seq<ViewCommand>

    constructor ()
      ensures commands == []
    {
      commands := [];
    }

    method UpdateButtonState(start: bool)
      modifies this
      ensures commands == old(commands) + [ViewCommand.UpdateButtonState(start)]
    {
      commands := commands + [ViewCommand.UpdateButtonState(start)];
    }

    method ShowTrackingNotReady()
      modifies this
      ensures commands == old(commands) + [ViewCommand.ShowTrackingNotReady]
    {
      commands := commands + [ViewCommand.ShowTrackingNotReady];
    }

    method ShowInstantSpeedScreen()
      modifies this
      ensures commands == old(commands) + [ViewCommand.ShowInstantSpeedScreen]
    {
      commands := commands + [ViewCommand.ShowInstantSpeedScreen];
    }

    method ShowFeedbackScreen()
      modifies this
      ensures commands == old(commands) + [ViewCommand.ShowFeedbackScreen]
    {
      commands := commands + [ViewCommand.ShowFeedbackScreen];
    }

    /** The presenter's private `showInstantSpeedScreen(show)`, acting on this view. */
    method ShowScreen(show: bool)
      modifies this
      ensures commands == old(commands) + [ScreenFor(show)]
    {
      if show {
        ShowInstantSpeedScreen();
      } else {
        ShowFeedbackScreen();
      }
    }
  }

  /** `mLocationServiceStateChangedListener`. */
  class StateChangedListener {
    const view: View

    constructor (view: View)
      ensures this.view == view
    {
      this.view := view;
    }

    /** The screen matching the new state, then the button offers to start when tracking stopped. */
    method OnLocationServiceStateChanged(enabled: bool)
      modifies view
      ensures view.commands == old(view.commands) + Response(StateChanged(enabled))
    {
      view.ShowScreen(enabled);
      view.UpdateButtonState(!enabled);
    }
  }

  /** `mOnLocationServiceSpeedChangedListener`. */
  class SpeedChangedListener {
    const view: View

    constructor (view: View)
      ensures this.view == view
    {
      this.view := view;
    }

    method OnSpeedActivityChanged(active: bool)
      modifies view
      ensures view.commands == old(view.commands) + Response(SpeedActivityChanged(active))
    {
      view.ShowScreen(active);
    }

    /** Nothing to do. */
    method OnSpeedChanged(speed: real, location: Sample)
      ensures view.commands == old(view.commands)
    {
    }
  }

  class SpeedTrackingPresenter {
    /** `mView`. */
    const view: View
    /** `mLocationProvider`. */
    const provider: LocationProvider
    const stateListener: StateChangedListener
    const speedListener: SpeedChangedListener

    ghost predicate Valid()
      reads this, provider
    {
      && stateListener.view == view && speedListener.view == view
      && provider.Valid()
    }

    constructor (view: View, provider: LocationProvider)
      requires provider.Valid()
      ensures Valid() && fresh(stateListener) && fresh(speedListener)
      ensures this.view == view && this.provider == provider
    {
      this.view := view;
      this.provider := provider;
      stateListener := new StateChangedListener(view);
      speedListener := new SpeedChangedListener(view);
    }

    /** `registerListeners`: each listener is in its list once, appended if it was missing. */
    method RegisterListeners()
      requires Valid()
      modifies provider`stateListeners, provider`speedListeners
      ensures Valid()
      ensures provider.stateListeners == if stateListener in old(provider.stateListeners)
                                         then old(provider.stateListeners) else old(provider.stateListeners) + [stateListener]
      ensures provider.speedListeners == if speedListener in old(provider.speedListeners)
                                         then old(provider.speedListeners) else old(provider.speedListeners) + [speedListener]
    {
      provider.RegisterOnLocationServiceStateChangedListener(stateListener);
      provider.RegisterOnLocationServiceSpeedChangedListener(speedListener);
    }

    /** `unregisterListeners`: neither listener is left in its list, and the others stay. */
    method UnregisterListeners()
      requires Valid()
      modifies provider`stateListeners, provider`speedListeners
      ensures Valid()
      ensures provider.stateListeners == Removed(old(provider.stateListeners), stateListener)
      ensures provider.speedListeners == Removed(old(provider.speedListeners), speedListener)
      ensures stateListener !in provider.stateListeners && speedListener !in provider.speedListeners
    {
      provider.UnregisterOnLocationServiceStateChangedListener(stateListener);
      provider.UnregisterOnLocationServiceSpeedChangedListener(speedListener);
    }

    /** `start`: register both listeners, then show the screen matching `isSpeedActive()`. */
    method Start()
      requires Valid()
      modifies provider`stateListeners, provider`speedListeners, view
      ensures Valid()
      ensures stateListener in provider.stateListeners && speedListener in provider.speedListeners
      ensures provider.stateListeners == if stateListener in old(provider.stateListeners)
                                         then old(provider.stateListeners) else old(provider.stateListeners) + [stateListener]
      ensures provider.speedListeners == if speedListener in old(provider.speedListeners)
                                         then old(provider.speedListeners) else old(provider.speedListeners) + [speedListener]
      ensures view.commands == old(view.commands) + [ScreenFor(provider.speedActive)]
    {
      RegisterListeners();
      view.ShowScreen(provider.speedActive);
    }

    /** `stop`. */
    method Stop()
      requires Valid()
      modifies provider`stateListeners, provider`speedListeners
      ensures Valid()
      ensures stateListener !in provider.stateListeners && speedListener !in provider.speedListeners
      ensures provider.stateListeners == Removed(old(provider.stateListeners), stateListener)
      ensures provider.speedListeners == Removed(old(provider.speedListeners), speedListener)
    {
      UnregisterListeners();
    }

    /**
     * The calls a provider's `notify*` loop makes, as they reach this
     * presenter: each call addressed to one of its listeners runs that
     * listener's callback on the view.
     */
    method Deliver(calls: seq<Delivery>)
      requires Valid()
      modifies view
      ensures view.commands == old(view.commands) + Heard(calls, stateListener, speedListener)
    {
      for i := 0 to |calls|
        invariant view.commands == old(view.commands) + Heard(calls[..i], stateListener, speedListener)
      {
        assert calls[..i + 1] == calls[..i] + [calls[i]];
        HeardAppend(calls[..i], [calls[i]], stateListener, speedListener);
        DeliverOne(calls[i]);
      }
      assert calls[..|calls|] == calls;
    }

    /** One call of a `notify*` loop: the addressed listener of this presenter, if any, runs its callback. */
    method DeliverOne(d: Delivery)
      requires Valid()
      modifies view
      ensures view.commands == old(view.commands) + HeardOne(d, stateListener, speedListener)
    {
      if d.listener == stateListener && d.event.StateChanged? {
        stateListener.OnLocationServiceStateChanged(d.event.enabled);
      } else if d.listener == speedListener && d.event.SpeedActivityChanged? {
        speedListener.OnSpeedActivityChanged(d.event.active);
      } else if d.listener == speedListener && d.event.SpeedChanged? {
        speedListener.OnSpeedChanged(d.event.speed, d.event.location);
      }
    }

    /**
     * `toggleTracking`: when not ready, only tell the view so and leave the
     * provider alone; otherwise start when stopped and stop when running, so
     * the running flag flips, and the provider's state notification makes the
     * registered state listener show the matching screen and button state.
     */
    method ToggleTracking()
      requires Valid()
      modifies view, provider`trackingCalls, provider`trackingRunning, provider`deliveries
      ensures Valid()
      ensures !provider.trackingReady ==>
                && view.commands == old(view.commands) + [ShowTrackingNotReady]
                && provider.trackingCalls == old(provider.trackingCalls)
                && provider.trackingRunning == old(provider.trackingRunning)
                && provider.deliveries == old(provider.deliveries)
      ensures provider.trackingReady ==>
                && provider.trackingCalls == old(provider.trackingCalls)
                     + [if old(provider.trackingRunning) then StopTrackingCall else StartTrackingCall]
                && provider.trackingRunning == !old(provider.trackingRunning)
                && provider.deliveries == old(provider.deliveries)
                     + Broadcast(provider.stateListeners, StateChanged(provider.trackingRunning))
                && view.commands == old(view.commands)
                     + if stateListener in provider.stateListeners then Response(StateChanged(provider.trackingRunning)) else []
    {
      if !provider.trackingReady {
        view.ShowTrackingNotReady();
      } else {
        var before := provider.deliveries;
        if !provider.trackingRunning {
          provider.StartTracking();
        } else {
          provider.StopTracking();
        }
        assert provider.deliveries[|before|..] == Broadcast(provider.stateListeners, StateChanged(provider.trackingRunning));
        HeardStateBroadcast(provider.stateListeners, provider.trackingRunning, stateListener, speedListener);
        Deliver(provider.deliveries[|before|..]);
      }
    }

    /**
     * `startTracking`: the provider's start, unconditionally; when it is ready
     * it runs and the registered state listener shows the instant-speed screen
     * and offers to stop.
     */
    method StartTracking()
      requires Valid()
      modifies view, provider`trackingCalls, provider`trackingRunning, provider`deliveries
      ensures Valid()
      ensures provider.trackingCalls == old(provider.trackingCalls) + [StartTrackingCall]
      ensures provider.trackingRunning == (old(provider.trackingRunning) || provider.trackingReady)
      ensures provider.deliveries == old(provider.deliveries)
                + if provider.trackingReady then Broadcast(provider.stateListeners, StateChanged(true)) else []
      ensures view.commands == old(view.commands)
                + if provider.trackingReady && stateListener in provider.stateListeners
                  then [ShowInstantSpeedScreen, UpdateButtonState(false)] else []
    {
      var before := provider.deliveries;
      provider.StartTracking();
      assert provider.deliveries[|before|..] == if provider.trackingReady then Broadcast(provider.stateListeners, StateChanged(true)) else [];
      HeardStateBroadcast(provider.stateListeners, true, stateListener, speedListener);
      Deliver(provider.deliveries[|before|..]);
    }
  }

  /** Toggling when tracking is not ready only reports it to the view. */
  method ToggleNotReadyTest()
  {
    var view := new View();
    var provider := new LocationProvider(false, false, false);
    var presenter := new SpeedTrackingPresenter(view, provider);
    presenter.ToggleTracking();
    assert view.commands == [ShowTrackingNotReady] && provider.trackingCalls == [];
  }

  /**
   * Starting with speed inactive shows feedback, and a stopped-state
   * notification from the provider shows it again with the start button.
   */
  method ScreenTests()
  {
    var view := new View();
    var provider := new LocationProvider(true, false, false);
    var presenter := new SpeedTrackingPresenter(view, provider);
    presenter.Start();
    assert view.commands == [ShowFeedbackScreen];
    provider.NotifyOnStateChanged(false);
    assert provider.deliveries == Broadcast(provider.stateListeners, StateChanged(false));
    HeardStateBroadcast(provider.stateListeners, false, presenter.stateListener, presenter.speedListener);
    presenter.Deliver(provider.deliveries);
    assert view.commands == [ShowFeedbackScreen] + [ShowFeedbackScreen, UpdateButtonState(true)];
  }

  /** Activity notifications true then false show the instant-speed screen, then feedback, in order. */
  method ActivityScreenTest()
  {
    var view := new View();
    var provider := new LocationProvider(false, false, false);
    var presenter := new SpeedTrackingPresenter(view, provider);
    presenter.RegisterListeners();
    provider.NotifyOnSpeedActivityChanged(true);
    provider.NotifyOnSpeedActivityChanged(false);
    assert provider.deliveries == [Delivery(presenter.speedListener, SpeedActivityChanged(true)),
                                   Delivery(presenter.speedListener, SpeedActivityChanged(false))];
    var on, off := provider.deliveries[0], provider.deliveries[1];
    assert provider.deliveries == [on] + [off];
    HeardAppend([on], [off], presenter.stateListener, presenter.speedListener);
    presenter.Deliver(provider.deliveries);
    assert view.commands == [ShowInstantSpeedScreen, ShowFeedbackScreen];
  }

  /**
   * A ready, running provider is stopped by a toggle: the view is not told
   * that tracking is not ready, and shows the feedback screen with the start
   * button.
   */
  method ToggleStopTest()
  {
    var view := new View();
    var provider := new LocationProvider(true, true, false);
    var presenter := new SpeedTrackingPresenter(view, provider);
    presenter.RegisterListeners();
    presenter.ToggleTracking();
    assert provider.trackingCalls == [StopTrackingCall] && !provider.trackingRunning;
    assert view.commands == [ShowFeedbackScreen, UpdateButtonState(true)];
    assert ShowTrackingNotReady !in view.commands;
  }

  /** A ready, stopped provider is started by a toggle: the instant-speed screen and the stop button. */
  method ToggleStartTest()
  {
    var view := new View();
    var provider := new LocationProvider(true, false, false);
    var presenter := new SpeedTrackingPresenter(view, provider);
    presenter.RegisterListeners();
    presenter.ToggleTracking();
    assert provider.trackingCalls == [StartTrackingCall] && provider.trackingRunning;
    assert view.commands == [ShowInstantSpeedScreen, UpdateButtonState(false)];
  }

  /** Stopping the presenter unregisters both listeners, after which a toggle no longer reaches the view. */
  method StopTests()
  {
    var view := new View();
    var provider := new LocationProvider(true, true, false);
    var presenter := new SpeedTrackingPresenter(view, provider);
    presenter.Start();
    assert provider.speedListeners == [presenter.speedListener];
    presenter.Stop();
    assert provider.stateListeners == [] && provider.speedListeners == [];
    presenter.ToggleTracking();
    assert provider.trackingCalls == [StopTrackingCall];
    assert view.commands == [ShowFeedbackScreen];
  }
}
