# SpeedoTracker speed-tracking core, in Dafny

SpeedoTracker is an Android app. It watches the phone's GPS speed and switches between an
"instant speed" screen, shown while the user is moving, and a "feedback" screen, shown
while the user is stopped. This project models the app's location-service core and proves
properties of the model:

- **The engines** (`GpsLocationProvider`, two snapshots, and the older `GpsLocationService`)
  turn GPS samples into three kinds of notification: tracking state, instant speed and speed
  activity. A *section* starts when the speed reaches a threshold while nothing is armed. The
  sample that starts it becomes the *anchor*. The section closes when the speed drops below
  the threshold. On close, the engine records the distance and elapsed time of the section.
- **The registries** (`LocationService`, `LocationProvider`) keep listener lists without
  duplicates and broadcast every notification to each registered listener in turn.
- **The presenter** (`SpeedTrackingPresenter`) turns user actions into tracking commands and
  engine events into view commands.
- **The helpers**: `convertMsToKmH` (m/s to rounded km/h), `PermissionUtils`' reading of a
  permission answer, and the mock flavour's `FakeLocationService`, which replays a cycle of
  fourteen fixed speeds.

How the model is built:

- **Each engine has a pure state machine.** `ProviderEngine` serves both `GpsLocationProvider`
  snapshots; `ServiceEngine` serves `GpsLocationService`. Each handler is a function from
  the old state to a `Step`: the new state plus the `notify*` calls made, in order. The
  properties are lemmas about these functions.
- **Each engine is also a class whose fields change in place** (`GpsEngine`, `DirectGpsEngine`,
  `ListenerGpsEngine`). Every handler method is proved to move the fields exactly as the state
  machine says and to log the same notifications. Inheritance from `LocationService` (its
  `notify*` calls) is replaced by that log.
- **The registries are modelled as separate classes.** Their `notify*` methods are proved to
  deliver to every listener in list order, through the loop in `Listeners.FanOut`.
- **Java `float` is modelled as `real`.** `Math.round(float)` becomes `floor(x + 0.5)`,
  saturated to the `int` range as Java does.
- **Platform calls become parameters or small stand-in objects.** `Location.distanceTo` is a
  function parameter. The location manager (`Platform.LocationManager`) and the
  `GpsLocationCallback` (`Platform.GpsLocationCallback`) are objects holding a readiness flag
  and the set of registered listeners.

Two behaviours of the code are kept as written and stated as lemmas:

- `computeTimeElapsed` subtracts the closing sample's timestamp from the anchor's. For
  samples in time order the difference is negative, so the elapsed time is clamped to 0. A
  section of positive length then reads as the saturated average speed `Integer.MAX_VALUE`
  (`Locations.InOrderSectionSaturates`).
- In `GpsLocationProvider`, a close also clears the last location. A provider-disabled
  event right after a close therefore overwrites the recorded section
  (`ProviderEngine.DisableAfterCloseLosesSection`).

Two places where the code does less than its API or its comments suggest:

- `LocationProvider` offers average-speed listeners, but no engine ever calls
  `notifyOnAverageSpeedChanged`.
- The `GpsLocationProvider` threshold is `1f / 3.6f`, that is 1 km/h, although the comment
  beside it says 3 km/h.

## Model

Paths are relative to the repository root.

| member | source | states |
|---|---|---|
| Units.Round | app/src/main/java/com/bgauthey/speedotracker/service/gps/GpsLocationProvider.java:115-117 | `Math.round`: the result is an `int`, within one half of the input when the input is in range, and saturates at `Integer.MAX_VALUE` / `Integer.MIN_VALUE` beyond it |
| Units.ConvertMsToKmH | app/src/main/java/com/bgauthey/speedotracker/service/gps/GpsLocationProvider.java:115-117 | `convertMsToKmH`: an `int` km/h value, within 0.5 of speed × 3.6 whenever that fits in an `int`, and never negative for a non-negative speed |
| Units.ConvertNonNegative | app/src/main/java/com/bgauthey/speedotracker/service/gps/GpsLocationProvider.java:115-117 | a non-negative speed in m/s converts to a non-negative km/h value |
| Units.ConvertMonotonic | app/src/main/java/com/bgauthey/speedotracker/service/gps/GpsLocationProvider.java:115-117 | the conversion never reverses the order of two speeds |
| Units.ConvertIsNearest | app/src/main/java/com/bgauthey/speedotracker/service/gps/GpsLocationProvider.java:115-117 | within the int range, the converted value is within 0.5 of speed × 3.6 |
| Units.ConvertRoundTrip | app/src/main/java/com/bgauthey/speedotracker/service/gps/GpsLocationProvider.java:115-117 | converting k / 3.6 m/s gives back k km/h for every int k |
| Locations.ToSeconds | app/src/main/java/com/bgauthey/speedotracker/service/gps/GpsLocationProvider.java:105-107 | `TimeUnit.NANOSECONDS.toSeconds`: the whole seconds in a nanosecond count, truncated toward zero for negative counts |
| Locations.ComputeDistance | app/src/main/java/com/bgauthey/speedotracker/service/gps/GpsLocationProvider.java:101-103 | `max(0, distanceTo)`: never negative, at least the platform distance, and equal to it or 0 |
| Locations.ComputeTimeElapsed | app/src/main/java/com/bgauthey/speedotracker/service/gps/GpsLocationProvider.java:105-107 | never negative; 0 exactly when the anchor's timestamp minus the target's is under one second, so always 0 for samples in time order; otherwise the whole seconds of that difference |
| Locations.ComputeSection | app/src/main/java/com/bgauthey/speedotracker/service/gps/GpsLocationProvider.java:96-99 | the distance and time of a section are both non-negative |
| Locations.AverageSpeedHistory | app/src/main/java/com/bgauthey/speedotracker/service/gps/GpsLocationProvider.java:157-159 | distance / time in km/h; with zero elapsed time, the Java float outcome: `MAX_VALUE` for positive distance, 0 for zero distance, `MIN_VALUE` for negative; non-negative for a non-negative section |
| Locations.InOrderSectionSaturates | app/src/main/java/com/bgauthey/speedotracker/service/gps/GpsLocationProvider.java:105-107 | a section closed by a later sample at positive distance always reads `Integer.MAX_VALUE` km/h |
| Locations.ElapsedCountsWholeSeconds | app/src/main/java/com/bgauthey/speedotracker/service/gps/GpsLocationProvider.java:105-107 | an anchor exactly k seconds after the target gives an elapsed time of k |
| Events.SpeedNotification | app/src/main/java/com/bgauthey/speedotracker/service/gps/GpsLocationProvider.java:82-84 | `updateLocationSpeed`: a speed notification carrying the sample, whose km/h value is within 0.5 of speed × 3.6 when in `int` range and non-negative for a non-negative speed |
| Events.CountsDistribute | app/src/main/java/com/bgauthey/speedotracker/service/LocationProvider.java:206-219 | the speed and activity notifications of two consecutive logs add up |
| Events.LastActivityAppend | app/src/main/java/com/bgauthey/speedotracker/service/LocationProvider.java:215-219 | the last activity heard after two logs is the last one heard in the second log, starting from the first log's |
| Listeners.IndexOf | app/src/main/java/com/bgauthey/speedotracker/service/LocationProvider.java:136-140 | the first position of a listener in its list |
| Listeners.RemovedShift | app/src/main/java/com/bgauthey/speedotracker/service/LocationProvider.java:136-140 | `List.remove(Object)` removes at the first index of the listener: one element fewer, and the elements past that index move down by one |
| Listeners.RemovedFromNoDuplicates | app/src/main/java/com/bgauthey/speedotracker/service/LocationProvider.java:136-140 | removing from a duplicate-free list keeps it duplicate-free, removes the listener entirely and keeps every other listener |
| Listeners.AppendKeepsNoDuplicates | app/src/main/java/com/bgauthey/speedotracker/service/LocationProvider.java:124-129 | appending a missing listener keeps the list duplicate-free |
| Listeners.Broadcast | app/src/main/java/com/bgauthey/speedotracker/service/LocationProvider.java:197-201 | one call per list entry; `BroadcastAt` and `BroadcastOncePerListener` say which listener each call reaches |
| Listeners.BroadcastAt | app/src/main/java/com/bgauthey/speedotracker/service/LocationProvider.java:197-201 | a broadcast makes one delivery per listener, and the k-th goes to the k-th listener |
| Listeners.BroadcastAppend | app/src/main/java/com/bgauthey/speedotracker/service/LocationProvider.java:124-129 | a listener added last is delivered to last |
| Listeners.BroadcastOncePerListener | app/src/main/java/com/bgauthey/speedotracker/service/LocationProvider.java:197-201 | over a duplicate-free list, each registered listener is called exactly once per notification and others never |
| Listeners.FanOut | app/src/main/java/com/bgauthey/speedotracker/service/LocationProvider.java:197-201 | the `for` loop over the listeners makes exactly the broadcast's deliveries, in order |
| LocationServiceRegistry.LocationService.constructor | app/src/main/java/com/bgauthey/speedotracker/service/LocationService.java:50-51 | both listener lists start empty |
| LocationServiceRegistry.LocationService.ToggleTracking | app/src/main/java/com/bgauthey/speedotracker/service/LocationService.java:92-98 | stop when running, start otherwise |
| LocationServiceRegistry.LocationService.RegisterOnLocationServiceStateChangedListener | app/src/main/java/com/bgauthey/speedotracker/service/LocationService.java:108-113 | appends the listener only if absent; the list stays duplicate-free |
| LocationServiceRegistry.LocationService.UnregisterOnLocationServiceStateChangedListener | app/src/main/java/com/bgauthey/speedotracker/service/LocationService.java:120-124 | removes the listener, keeps every other one |
| LocationServiceRegistry.LocationService.RegisterOnLocationServiceSpeedChangedListener | app/src/main/java/com/bgauthey/speedotracker/service/LocationService.java:134-139 | appends the listener only if absent; the list stays duplicate-free |
| LocationServiceRegistry.LocationService.UnregisterOnLocationServiceSpeedChangedListener | app/src/main/java/com/bgauthey/speedotracker/service/LocationService.java:146-150 | removes the listener, keeps every other one |
| LocationServiceRegistry.LocationService.NotifyOnStateChanged | app/src/main/java/com/bgauthey/speedotracker/service/LocationService.java:155-159 | every state listener hears the new state, in list order |
| LocationServiceRegistry.LocationService.NotifyOnSpeedChanged | app/src/main/java/com/bgauthey/speedotracker/service/LocationService.java:164-168 | every speed listener hears the speed, in list order |
| LocationServiceRegistry.LocationService.NotifyOnSpeedActivityChanged | app/src/main/java/com/bgauthey/speedotracker/service/LocationService.java:173-177 | every speed listener hears the activity, in list order |
| LocationProviderRegistry.LocationProvider.constructor | app/src/main/java/com/bgauthey/speedotracker/service/LocationProvider.java:65-67 | the three listener lists start empty |
| LocationProviderRegistry.LocationProvider.StartTracking | app/src/main/java/com/bgauthey/speedotracker/service/gps/GpsLocationProvider.java:135-142 | the start command is recorded; when ready the provider runs and every state listener hears running-true in list order, otherwise nothing else happens |
| LocationProviderRegistry.LocationProvider.StopTracking | app/src/main/java/com/bgauthey/speedotracker/service/gps/GpsLocationProvider.java:145-149 | the stop command is recorded; the provider stops and every state listener hears running-false in list order |
| LocationProviderRegistry.LocationProvider.ToggleTracking | app/src/main/java/com/bgauthey/speedotracker/service/LocationProvider.java:108-114 | stop when running, start otherwise: the running flag flips unless a stopped provider is not ready, and the state listeners hear each change |
| LocationProviderRegistry.LocationProvider.RegisterOnLocationServiceStateChangedListener | app/src/main/java/com/bgauthey/speedotracker/service/LocationProvider.java:124-129 | appends the listener only if absent; the list stays duplicate-free |
| LocationProviderRegistry.LocationProvider.UnregisterOnLocationServiceStateChangedListener | app/src/main/java/com/bgauthey/speedotracker/service/LocationProvider.java:136-140 | removes the listener, keeps every other one |
| LocationProviderRegistry.LocationProvider.RegisterOnLocationServiceSpeedChangedListener | app/src/main/java/com/bgauthey/speedotracker/service/LocationProvider.java:150-155 | appends the listener only if absent; the list stays duplicate-free |
| LocationProviderRegistry.LocationProvider.UnregisterOnLocationServiceSpeedChangedListener | app/src/main/java/com/bgauthey/speedotracker/service/LocationProvider.java:162-166 | removes the listener, keeps every other one |
| LocationProviderRegistry.LocationProvider.RegisterOnLocationServiceAverageSpeedChangedListener | app/src/main/java/com/bgauthey/speedotracker/service/LocationProvider.java:176-181 | appends the listener only if absent; the list stays duplicate-free |
| LocationProviderRegistry.LocationProvider.UnregisterOnLocationServiceAverageSpeedChangedListener | app/src/main/java/com/bgauthey/speedotracker/service/LocationProvider.java:188-192 | removes the listener, keeps every other one |
| LocationProviderRegistry.LocationProvider.NotifyOnStateChanged | app/src/main/java/com/bgauthey/speedotracker/service/LocationProvider.java:197-201 | every state listener hears the new state, in list order |
| LocationProviderRegistry.LocationProvider.NotifyOnSpeedChanged | app/src/main/java/com/bgauthey/speedotracker/service/LocationProvider.java:206-210 | every speed listener hears the speed, in list order |
| LocationProviderRegistry.LocationProvider.NotifyOnSpeedActivityChanged | app/src/main/java/com/bgauthey/speedotracker/service/LocationProvider.java:215-219 | every speed listener hears the activity, in list order |
| LocationProviderRegistry.LocationProvider.NotifyOnAverageSpeedChanged | app/src/main/java/com/bgauthey/speedotracker/service/LocationProvider.java:224-228 | every average-speed listener hears the average, in list order |
| ProviderEngine.OnLocationChanged | app/src/main/java/com/bgauthey/speedotracker/service/gps/GpsLocationProvider.java:164-181 | the running flag is untouched, the activity flag changes only together with a notification of its new value, and the speed notification is the last one |
| ProviderEngine.UpdateTrackingState | app/src/main/java/com/bgauthey/speedotracker/service/gps/GpsLocationProvider.java:77-80 | only the running flag changes, to the given value, and the listeners hear exactly that value |
| ProviderEngine.OnProviderDisabled | app/src/main/java/com/bgauthey/speedotracker/service/gps/GpsLocationProvider.java:184-194 | the engine ends stopped, inactive and unarmed with a non-negative section; listeners hear running-false then active-false |
| ProviderEngine.OnProviderEnabled | app/src/main/java/com/bgauthey/speedotracker/service/gps/GpsLocationProvider.java:197-200 | running, nothing else changes, and the listeners hear it |
| ProviderEngine.OnStatusChanged | app/src/main/java/com/bgauthey/speedotracker/service/gps/GpsLocationProvider.java:203-212 | running exactly when the status is AVAILABLE, nothing else changes, and the listeners hear the new value |
| ProviderEngine.StartTracking | app/src/main/java/com/bgauthey/speedotracker/service/gps/GpsLocationProvider.java:135-142 | running when ready with one running-true notification; when not ready nothing changes and nothing is notified |
| ProviderEngine.StopTracking | app/src/main/java/com/bgauthey/speedotracker/service/gps/GpsLocationProvider.java:145-149 | stopped whatever the state, nothing else changes, one running-false notification |
| ProviderEngine.ToggleTracking | app/src/main/java/com/bgauthey/speedotracker/service/LocationService.java:92-98 | the running flag flips, except that a stopped engine that is not ready stays stopped and notifies nothing; every change is notified once |
| ProviderEngine.InitialIsValid | app/src/main/java/com/bgauthey/speedotracker/service/gps/GpsLocationProvider.java:69-75 | `initParameters` sets up a state satisfying the invariant, inactive and not running |
| ProviderEngine.HandlersPreserveInv | app/src/main/java/com/bgauthey/speedotracker/service/gps/GpsLocationProvider.java:135-212 | every handler and command keeps the invariant: the activity flag holds exactly while an anchor is armed, an anchor is cleared or at or above the threshold, and the section is non-negative |
| ProviderEngine.ArmRule | app/src/main/java/com/bgauthey/speedotracker/service/gps/GpsLocationProvider.java:164-172 | activity turns on, and an activity-on notification is sent, exactly when a sample at or above the threshold arrives with no anchor armed; that sample becomes the anchor |
| ProviderEngine.NoRearm | app/src/main/java/com/bgauthey/speedotracker/service/gps/GpsLocationProvider.java:164-181 | while armed, a fast sample only updates the last location and notifies its speed |
| ProviderEngine.CloseRule | app/src/main/java/com/bgauthey/speedotracker/service/gps/GpsLocationProvider.java:173-180 | while armed, a slow sample records the section from the anchor to it, clears both locations, deactivates and notifies active-false then the speed |
| ProviderEngine.StationaryStaysStationary | app/src/main/java/com/bgauthey/speedotracker/service/gps/GpsLocationProvider.java:164-181 | with nothing armed, a slow sample only updates the last location and notifies its speed |
| ProviderEngine.BoundaryIsInclusive | app/src/test/java/com/bgauthey/speedotracker/service/gps/GpsLocationProviderTest.java:88-94 | exactly the threshold keeps an armed engine active; 0.01 m/s below closes it |
| ProviderEngine.OneSpeedEventLast | app/src/main/java/com/bgauthey/speedotracker/service/gps/GpsLocationProvider.java:164-181 | each sample makes one speed notification, last, with the rounded km/h speed, after at most one activity notification |
| ProviderEngine.DisabledForcesClose | app/src/main/java/com/bgauthey/speedotracker/service/gps/GpsLocationProvider.java:184-194 | provider disabled: section from anchor to last location, both cleared, not running, inactive, notifies running-false then active-false |
| ProviderEngine.DisableAfterCloseLosesSection | app/src/main/java/com/bgauthey/speedotracker/service/gps/GpsLocationProvider.java:173-194 | disabling right after a close replaces the closed section with a zero-time one between two cleared locations |
| ProviderEngine.TrackingCommands | app/src/main/java/com/bgauthey/speedotracker/service/gps/GpsLocationProvider.java:135-149 | start is a no-op when not ready, otherwise sets running and notifies; stop clears running and notifies; status AVAILABLE means running; toggle dispatches on running |
| ProviderEngine.StepActiveIsLastActivity | app/src/main/java/com/bgauthey/speedotracker/service/gps/GpsLocationProvider.java:86-89 | after a sample, the activity flag equals the last activity notified |
| ProviderEngine.RunAppend | app/src/main/java/com/bgauthey/speedotracker/service/gps/GpsLocationProvider.java:164-181 | processing two streams in turn is processing their concatenation |
| ProviderEngine.RunPreservesInv | app/src/main/java/com/bgauthey/speedotracker/service/gps/GpsLocationProvider.java:164-181 | the invariant holds after any stream of samples |
| ProviderEngine.RunSpeedEvents | app/src/main/java/com/bgauthey/speedotracker/service/gps/GpsLocationProvider.java:180 | n samples give exactly n speed notifications |
| ProviderEngine.RunActiveIsLastActivity | app/src/main/java/com/bgauthey/speedotracker/service/gps/GpsLocationProvider.java:152-154 | `isSpeedActive` after any stream is the last activity notified, or the starting flag if none |
| ProviderEngine.MovingRun | app/src/main/java/com/bgauthey/speedotracker/service/gps/GpsLocationProvider.java:164-181 | while armed, fast samples keep anchor, flags and section and notify no activity change |
| ProviderEngine.SectionLifecycle | app/src/main/java/com/bgauthey/speedotracker/service/gps/GpsLocationProvider.java:164-181 | fast, fast…, slow from an unarmed engine: exactly one activity-on and one activity-off, ending inactive and cleared with the section from the first sample to the last |
| ProviderEngine.RunBetween | app/src/main/java/com/bgauthey/speedotracker/service/gps/GpsLocationProvider.java:164-181 | a stream of a first sample, a middle part and a last sample is handled as those three parts in turn, notifications concatenated |
| ProviderEngine.TransitionCounts | app/src/main/java/com/bgauthey/speedotracker/service/gps/GpsLocationProvider.java:164-181 | an arm, then changes without activity, then a close: one activity notification of each value |
| ProviderEngine.PairActivityEvents | app/src/main/java/com/bgauthey/speedotracker/service/gps/GpsLocationProvider.java:164-181 | a transition's two notifications hold one activity notification, of its value |
| ProviderEngine.RunSingle | app/src/main/java/com/bgauthey/speedotracker/service/gps/GpsLocationProvider.java:164-181 | a one-sample stream is that sample's handler |
| GpsEngine.GpsLocationProvider.constructor | app/src/main/java/com/bgauthey/speedotracker/service/gps/GpsLocationProvider.java:47-75 | fields as `initParameters` sets them, no notification yet |
| GpsEngine.GpsLocationProvider.UpdateTrackingState | app/src/main/java/com/bgauthey/speedotracker/service/gps/GpsLocationProvider.java:77-80 | sets the running flag and notifies it |
| GpsEngine.GpsLocationProvider.UpdateLocationSpeed | app/src/main/java/com/bgauthey/speedotracker/service/gps/GpsLocationProvider.java:82-84 | notifies the rounded km/h speed with the sample |
| GpsEngine.GpsLocationProvider.UpdateSpeedActive | app/src/main/java/com/bgauthey/speedotracker/service/gps/GpsLocationProvider.java:86-89 | sets the activity flag and notifies it |
| GpsEngine.GpsLocationProvider.ResetLocations | app/src/main/java/com/bgauthey/speedotracker/service/gps/GpsLocationProvider.java:91-94 | clears anchor and last location |
| GpsEngine.GpsLocationProvider.ComputeSectionParamsToLocation | app/src/main/java/com/bgauthey/speedotracker/service/gps/GpsLocationProvider.java:96-99 | records the section from the anchor to the given sample, non-negative |
| GpsEngine.GpsLocationProvider.IsTrackingReady | app/src/main/java/com/bgauthey/speedotracker/service/gps/GpsLocationProvider.java:125-127 | asks the callback |
| GpsEngine.GpsLocationProvider.IsTrackingRunning | app/src/main/java/com/bgauthey/speedotracker/service/gps/GpsLocationProvider.java:130-132 | the running flag |
| GpsEngine.GpsLocationProvider.IsSpeedActive | app/src/main/java/com/bgauthey/speedotracker/service/gps/GpsLocationProvider.java:152-154 | true exactly while an anchor is armed |
| GpsEngine.GpsLocationProvider.GetAverageSpeedHistory | app/src/main/java/com/bgauthey/speedotracker/service/gps/GpsLocationProvider.java:157-159 | the recorded section's average speed in km/h |
| GpsEngine.GpsLocationProvider.StartTracking | app/src/main/java/com/bgauthey/speedotracker/service/gps/GpsLocationProvider.java:135-142 | the state machine's start; registers this listener with the callback only when ready |
| GpsEngine.GpsLocationProvider.StopTracking | app/src/main/java/com/bgauthey/speedotracker/service/gps/GpsLocationProvider.java:145-149 | the state machine's stop; unregisters this listener |
| GpsEngine.GpsLocationProvider.ToggleTracking | app/src/main/java/com/bgauthey/speedotracker/service/LocationService.java:92-98 | the state machine's toggle; this listener leaves the callback when running, joins it when stopped and ready, and the set is unchanged otherwise |
| GpsEngine.GpsLocationProvider.OnLocationChanged | app/src/main/java/com/bgauthey/speedotracker/service/gps/GpsLocationProvider.java:164-181 | fields and notifications move exactly as the state machine's handler, invariant kept |
| GpsEngine.GpsLocationProvider.OnProviderDisabled | app/src/main/java/com/bgauthey/speedotracker/service/gps/GpsLocationProvider.java:184-194 | as the state machine's handler, invariant kept |
| GpsEngine.GpsLocationProvider.OnProviderEnabled | app/src/main/java/com/bgauthey/speedotracker/service/gps/GpsLocationProvider.java:197-200 | as the state machine's handler, invariant kept |
| GpsEngine.GpsLocationProvider.OnStatusChanged | app/src/main/java/com/bgauthey/speedotracker/service/gps/GpsLocationProvider.java:203-212 | as the state machine's handler, invariant kept |
| DirectGpsEngine.GpsLocationProvider.constructor | app/src/main/java/com/bgauthey/speedotracker/service/GpsLocationProvider.java:62-91 | fields as `initParameters` sets them, no notification yet |
| DirectGpsEngine.GpsLocationProvider.UpdateTrackingState | app/src/main/java/com/bgauthey/speedotracker/service/GpsLocationProvider.java:93-96 | sets the running flag and notifies it |
| DirectGpsEngine.GpsLocationProvider.UpdateLocationSpeed | app/src/main/java/com/bgauthey/speedotracker/service/GpsLocationProvider.java:98-100 | notifies the rounded km/h speed with the sample |
| DirectGpsEngine.GpsLocationProvider.UpdateSpeedActive | app/src/main/java/com/bgauthey/speedotracker/service/GpsLocationProvider.java:102-105 | sets the activity flag and notifies it |
| DirectGpsEngine.GpsLocationProvider.ResetLocations | app/src/main/java/com/bgauthey/speedotracker/service/GpsLocationProvider.java:107-110 | clears anchor and last location |
| DirectGpsEngine.GpsLocationProvider.ComputeSectionParamsToLocation | app/src/main/java/com/bgauthey/speedotracker/service/GpsLocationProvider.java:112-115 | records the section from the anchor to the given sample, non-negative |
| DirectGpsEngine.GpsLocationProvider.IsTrackingReady | app/src/main/java/com/bgauthey/speedotracker/service/GpsLocationProvider.java:141-143 | permission granted and GPS provider enabled |
| DirectGpsEngine.GpsLocationProvider.IsTrackingRunning | app/src/main/java/com/bgauthey/speedotracker/service/GpsLocationProvider.java:146-148 | the running flag |
| DirectGpsEngine.GpsLocationProvider.IsSpeedActive | app/src/main/java/com/bgauthey/speedotracker/service/GpsLocationProvider.java:167-169 | true exactly while an anchor is armed |
| DirectGpsEngine.GpsLocationProvider.GetAverageSpeedHistory | app/src/main/java/com/bgauthey/speedotracker/service/GpsLocationProvider.java:172-174 | the recorded section's average speed in km/h |
| DirectGpsEngine.GpsLocationProvider.StartTracking | app/src/main/java/com/bgauthey/speedotracker/service/GpsLocationProvider.java:152-158 | the state machine's start; requests updates for this listener only when ready |
| DirectGpsEngine.GpsLocationProvider.StopTracking | app/src/main/java/com/bgauthey/speedotracker/service/GpsLocationProvider.java:161-164 | the state machine's stop; removes this listener's updates |
| DirectGpsEngine.GpsLocationProvider.ToggleTracking | app/src/main/java/com/bgauthey/speedotracker/service/LocationService.java:92-98 | the state machine's toggle; this listener's updates are removed when running, requested when stopped and ready, and unchanged otherwise |
| DirectGpsEngine.GpsLocationProvider.OnLocationChanged | app/src/main/java/com/bgauthey/speedotracker/service/GpsLocationProvider.java:179-196 | as the state machine's handler, invariant kept |
| DirectGpsEngine.GpsLocationProvider.OnProviderDisabled | app/src/main/java/com/bgauthey/speedotracker/service/GpsLocationProvider.java:199-209 | as the state machine's handler, invariant kept |
| DirectGpsEngine.GpsLocationProvider.OnProviderEnabled | app/src/main/java/com/bgauthey/speedotracker/service/GpsLocationProvider.java:212-215 | as the state machine's handler, invariant kept |
| DirectGpsEngine.GpsLocationProvider.OnStatusChanged | app/src/main/java/com/bgauthey/speedotracker/service/GpsLocationProvider.java:218-227 | as the state machine's handler, invariant kept |
| ServiceEngine.OnLocationChanged | app/src/main/java/com/bgauthey/speedotracker/service/GpsLocationService.java:136-153 | the sample becomes the last location, the running flag is untouched, arming or disarming comes with a notification of the new activity, and the speed notification is the last one |
| ServiceEngine.UpdateTrackingState | app/src/main/java/com/bgauthey/speedotracker/service/GpsLocationService.java:204-207 | only the running flag changes, to the given value, and the listeners hear exactly that value |
| ServiceEngine.OnProviderDisabled | app/src/main/java/com/bgauthey/speedotracker/service/GpsLocationService.java:156-166 | stopped and unarmed with a non-negative section while the last location is kept; listeners hear running-false then active-false |
| ServiceEngine.OnProviderEnabled | app/src/main/java/com/bgauthey/speedotracker/service/GpsLocationService.java:169-172 | running, nothing else changes, and the listeners hear it |
| ServiceEngine.OnStatusChanged | app/src/main/java/com/bgauthey/speedotracker/service/GpsLocationService.java:175-184 | running exactly when the status is AVAILABLE, nothing else changes, and the listeners hear the new value |
| ServiceEngine.StartTracking | app/src/main/java/com/bgauthey/speedotracker/service/GpsLocationService.java:81-87 | ready or not, the state is unchanged and nothing is notified |
| ServiceEngine.StopTracking | app/src/main/java/com/bgauthey/speedotracker/service/GpsLocationService.java:90-93 | stopped whatever the state, nothing else changes, one running-false notification |
| ServiceEngine.ToggleTracking | app/src/main/java/com/bgauthey/speedotracker/service/LocationService.java:92-98 | a toggle can only stop: the service ends stopped, and notifies running-false only if it was running |
| ServiceEngine.HandlersPreserveInv | app/src/main/java/com/bgauthey/speedotracker/service/GpsLocationService.java:81-184 | every handler and command keeps the invariant: an anchor is cleared or at or above 3 km/h, the section is non-negative |
| ServiceEngine.ArmAndCloseRule | app/src/main/java/com/bgauthey/speedotracker/service/GpsLocationService.java:136-153 | arming exactly on a fast sample with nothing armed, closing exactly on a slow sample while armed, with the section and notifications of each; the speed notification comes last |
| ServiceEngine.LastIsLatestSample | app/src/main/java/com/bgauthey/speedotracker/service/GpsLocationService.java:136-153 | the last location is always the latest sample, because a reset clears only the anchor |
| ServiceEngine.RunPreservesInv | app/src/main/java/com/bgauthey/speedotracker/service/GpsLocationService.java:136-153 | the invariant holds after any stream of samples |
| ServiceEngine.NotifiedActivityIsArmed | app/src/main/java/com/bgauthey/speedotracker/service/GpsLocationService.java:136-153 | the activity listeners last heard is always whether an anchor is armed |
| ServiceEngine.DisabledRule | app/src/main/java/com/bgauthey/speedotracker/service/GpsLocationService.java:156-166 | provider disabled: section from anchor to last location, only the anchor cleared, not running, notifies running-false then active-false |
| ServiceEngine.TrackingCommands | app/src/main/java/com/bgauthey/speedotracker/service/GpsLocationService.java:81-93 | start never changes the running flag nor notifies; stop clears it and notifies; enabled or AVAILABLE set it |
| ServiceEngine.RunKeepsTrackingFlag | app/src/main/java/com/bgauthey/speedotracker/service/GpsLocationService.java:136-153 | samples never change the running flag |
| ServiceEngine.ThresholdIsThreeKmH | app/src/main/java/com/bgauthey/speedotracker/service/GpsLocationService.java:42 | the threshold converts to 3 km/h, and a 2 km/h sample never arms |
| ListenerGpsEngine.GpsLocationListener.constructor | app/src/main/java/com/bgauthey/speedotracker/service/GpsLocationService.java:106-115 | both locations cleared, empty section |
| ListenerGpsEngine.GpsLocationListener.GetDistance | app/src/main/java/com/bgauthey/speedotracker/service/GpsLocationService.java:122-124 | the section's distance |
| ListenerGpsEngine.GpsLocationListener.GetTimeElapsed | app/src/main/java/com/bgauthey/speedotracker/service/GpsLocationService.java:131-133 | the section's elapsed time |
| ListenerGpsEngine.GpsLocationListener.ResetLocations | app/src/main/java/com/bgauthey/speedotracker/service/GpsLocationService.java:186-188 | clears only the anchor |
| ListenerGpsEngine.GpsLocationListener.UpdateSectionParamsToLocation | app/src/main/java/com/bgauthey/speedotracker/service/GpsLocationService.java:190-201 | records the section from the anchor to the given sample, non-negative |
| ListenerGpsEngine.GpsLocationListener.OnLocationChanged | app/src/main/java/com/bgauthey/speedotracker/service/GpsLocationService.java:136-153 | listener and service fields and notifications move as the state machine's handler |
| ListenerGpsEngine.GpsLocationListener.OnProviderDisabled | app/src/main/java/com/bgauthey/speedotracker/service/GpsLocationService.java:156-166 | as the state machine's handler |
| ListenerGpsEngine.GpsLocationListener.OnProviderEnabled | app/src/main/java/com/bgauthey/speedotracker/service/GpsLocationService.java:169-172 | as the state machine's handler |
| ListenerGpsEngine.GpsLocationListener.OnStatusChanged | app/src/main/java/com/bgauthey/speedotracker/service/GpsLocationService.java:175-184 | as the state machine's handler |
| ListenerGpsEngine.GpsLocationService.constructor | app/src/main/java/com/bgauthey/speedotracker/service/GpsLocationService.java:52-55 | a fresh listener, the initial state, no notification |
| ListenerGpsEngine.GpsLocationService.UpdateTrackingState | app/src/main/java/com/bgauthey/speedotracker/service/GpsLocationService.java:204-207 | sets the running flag and notifies it |
| ListenerGpsEngine.GpsLocationService.UpdateLocationSpeed | app/src/main/java/com/bgauthey/speedotracker/service/GpsLocationService.java:209-211 | notifies the rounded km/h speed with the sample |
| ListenerGpsEngine.GpsLocationService.NotifyOnSpeedActivityChanged | app/src/main/java/com/bgauthey/speedotracker/service/LocationService.java:173-177 | notifies the activity |
| ListenerGpsEngine.GpsLocationService.IsTrackingReady | app/src/main/java/com/bgauthey/speedotracker/service/GpsLocationService.java:70-72 | permission granted and GPS provider enabled |
| ListenerGpsEngine.GpsLocationService.IsTrackingRunning | app/src/main/java/com/bgauthey/speedotracker/service/GpsLocationService.java:75-77 | the running flag |
| ListenerGpsEngine.GpsLocationService.StartTracking | app/src/main/java/com/bgauthey/speedotracker/service/GpsLocationService.java:81-87 | requests updates for the listener only when ready; state and notifications unchanged |
| ListenerGpsEngine.GpsLocationService.StopTracking | app/src/main/java/com/bgauthey/speedotracker/service/GpsLocationService.java:90-93 | removes the listener's updates, clears running and notifies |
| ListenerGpsEngine.GpsLocationService.ToggleTracking | app/src/main/java/com/bgauthey/speedotracker/service/LocationService.java:92-98 | the state machine's toggle; the listener's updates are removed when running, requested when stopped and ready, and unchanged otherwise |
| ListenerGpsEngine.GpsLocationService.GetAverageSpeedHistory | app/src/main/java/com/bgauthey/speedotracker/service/GpsLocationService.java:96-98 | the listener's section's average speed in km/h |
| Platform.GpsLocationCallback.IsTrackingReady | app/src/main/java/com/bgauthey/speedotracker/service/gps/DefaultGpsLocationCallback.java:37-40 | the readiness flag |
| Platform.GpsLocationCallback.StartTracking | app/src/main/java/com/bgauthey/speedotracker/service/gps/DefaultGpsLocationCallback.java:42-46 | the listener is registered |
| Platform.GpsLocationCallback.StopTracking | app/src/main/java/com/bgauthey/speedotracker/service/gps/DefaultGpsLocationCallback.java:48-51 | the listener is unregistered |
| Platform.LocationManager.RequestLocationUpdates | app/src/main/java/com/bgauthey/speedotracker/service/GpsLocationProvider.java:156 | the listener is registered |
| Platform.LocationManager.RemoveUpdates | app/src/main/java/com/bgauthey/speedotracker/service/GpsLocationProvider.java:162 | the listener is unregistered |
| SpeedTracking.ScreenFor | app/src/main/java/com/bgauthey/speedotracker/speedtracking/SpeedTrackingPresenter.java:58-68 | the instant-speed screen exactly when shown, the feedback screen exactly otherwise |
| SpeedTracking.Response | app/src/main/java/com/bgauthey/speedotracker/speedtracking/SpeedTrackingPresenter.java:70-91 | a state change gives the matching screen then the button state, an activity change the matching screen, and speed or average-speed events nothing |
| SpeedTracking.HeardStateBroadcast | app/src/main/java/com/bgauthey/speedotracker/service/LocationProvider.java:197-201 | a state broadcast over a duplicate-free list makes the presenter's view show the matching screen and button state once if its state listener is registered, and nothing otherwise |
| SpeedTracking.ResponsesAppend | app/src/main/java/com/bgauthey/speedotracker/speedtracking/SpeedTrackingPresenter.java:70-91 | the view commands for two event streams in turn are the two responses in turn |
| SpeedTracking.ActivityScreensInOrder | app/src/main/java/com/bgauthey/speedotracker/speedtracking/SpeedTrackingPresenter.java:83-85 | activity events map one-to-one, in order, onto screens: instant speed exactly for active |
| SpeedTracking.SpeedEventsAreSilent | app/src/main/java/com/bgauthey/speedotracker/speedtracking/SpeedTrackingPresenter.java:88-90 | speed events never reach the view |
| SpeedTracking.View.ShowScreen | app/src/main/java/com/bgauthey/speedotracker/speedtracking/SpeedTrackingPresenter.java:58-68 | the view receives the screen matching `show` |
| SpeedTracking.StateChangedListener.OnLocationServiceStateChanged | app/src/main/java/com/bgauthey/speedotracker/speedtracking/SpeedTrackingPresenter.java:70-77 | the screen matching the state, then the start button when stopped |
| SpeedTracking.SpeedChangedListener.OnSpeedActivityChanged | app/src/main/java/com/bgauthey/speedotracker/speedtracking/SpeedTrackingPresenter.java:83-85 | the screen matching the activity |
| SpeedTracking.SpeedChangedListener.OnSpeedChanged | app/src/main/java/com/bgauthey/speedotracker/speedtracking/SpeedTrackingPresenter.java:88-90 | the view's command list is unchanged: no view command |
| SpeedTracking.SpeedTrackingPresenter.constructor | app/src/main/java/com/bgauthey/speedotracker/speedtracking/SpeedTrackingPresenter.java:16-19 | keeps the view and provider; both listeners act on that view |
| SpeedTracking.SpeedTrackingPresenter.RegisterListeners | app/src/main/java/com/bgauthey/speedotracker/speedtracking/SpeedTrackingPresenter.java:48-51 | each listener is in its provider list, appended only if missing |
| SpeedTracking.SpeedTrackingPresenter.UnregisterListeners | app/src/main/java/com/bgauthey/speedotracker/speedtracking/SpeedTrackingPresenter.java:53-56 | neither listener is left in its list |
| SpeedTracking.SpeedTrackingPresenter.Start | app/src/main/java/com/bgauthey/speedotracker/speedtracking/SpeedTrackingPresenter.java:22-25 | registers both listeners, then shows the screen matching `isSpeedActive` |
| SpeedTracking.SpeedTrackingPresenter.Stop | app/src/main/java/com/bgauthey/speedotracker/speedtracking/SpeedTrackingPresenter.java:28-30 | unregisters both listeners |
| SpeedTracking.SpeedTrackingPresenter.Deliver | app/src/main/java/com/bgauthey/speedotracker/service/LocationProvider.java:197-219 | the calls of the `notify*` loops addressed to the presenter's listeners run their callbacks, in call order, on the view |
| SpeedTracking.SpeedTrackingPresenter.ToggleTracking | app/src/main/java/com/bgauthey/speedotracker/speedtracking/SpeedTrackingPresenter.java:33-41 | not ready: only the not-ready message, the provider untouched; ready: stop when running and start when stopped, the running flag flips, and the registered state listener shows the matching screen and button state |
| SpeedTracking.SpeedTrackingPresenter.StartTracking | app/src/main/java/com/bgauthey/speedotracker/speedtracking/SpeedTrackingPresenter.java:44-46 | one start command; when the provider is ready it runs and the registered state listener shows the instant-speed screen and the stop button |
| Permissions.LocationPermissionGrantedResult | app/src/main/java/com/bgauthey/speedotracker/util/PermissionUtils.java:37-39 | true exactly for request code 1, one permission, and the single result a grant |
| Permissions.PermissionNameIgnored | app/src/main/java/com/bgauthey/speedotracker/util/PermissionUtils.java:37-39 | only the number of permissions matters, never their names |
| Permissions.RefusedAnswers | app/src/main/java/com/bgauthey/speedotracker/util/PermissionUtils.java:37-39 | every other request code, permission count, result count, or non-grant result is refused |
| Permissions.AcceptedRequest | app/src/main/java/com/bgauthey/speedotracker/util/PermissionUtils.java:31-39 | the answer to the app's own request, accepted, is a grant |
| FakeService.FakeSpeedPeriodic | app/src/mock/java/com/bgauthey/speedotracker/service/FakeLocationService.java:73 | the fake speeds repeat every 14 runs |
| FakeService.InactiveExactlyAtCycleEnd | app/src/mock/java/com/bgauthey/speedotracker/service/FakeLocationService.java:15 | a run's speed is zero exactly on the last two of each 14 |
| FakeService.GeneratorLogShift | app/src/mock/java/com/bgauthey/speedotracker/service/FakeLocationService.java:72-78 | starting the generator one cycle of 14 later emits the same notifications |
| FakeService.GeneratorLogPeriodic | app/src/mock/java/com/bgauthey/speedotracker/service/FakeLocationService.java:72-78 | the notifications of n runs depend only on the start position modulo 14 |
| FakeService.GeneratorCounts | app/src/mock/java/com/bgauthey/speedotracker/service/FakeLocationService.java:72-78 | n runs give 2n notifications: n speeds and n activities |
| FakeService.CycleActivity | app/src/mock/java/com/bgauthey/speedotracker/service/FakeLocationService.java:15-78 | a whole cycle notifies active twelve times and inactive twice |
| FakeService.CycleHead | app/src/mock/java/com/bgauthey/speedotracker/service/FakeLocationService.java:15-78 | the first twelve runs of a cycle all notify active |
| FakeService.ActiveEarlyInCycle | app/src/mock/java/com/bgauthey/speedotracker/service/FakeLocationService.java:15 | the first twelve speeds of a cycle are non-zero |
| FakeService.StepCounts | app/src/mock/java/com/bgauthey/speedotracker/service/FakeLocationService.java:72-78 | one run notifies one speed and one activity, matching whether its speed is non-zero |
| FakeService.CyclePosition | app/src/mock/java/com/bgauthey/speedotracker/service/FakeLocationService.java:73 | the i-th run of a cycle reads the i-th fake speed |
| FakeService.CycleTail | app/src/mock/java/com/bgauthey/speedotracker/service/FakeLocationService.java:15-78 | the last two runs of a cycle both notify inactive |
| FakeService.RunsLogSplit | app/src/mock/java/com/bgauthey/speedotracker/service/FakeLocationService.java:72-78 | for any speed table, n + m runs emit the notifications of n runs followed by those of the next m |
| FakeService.GeneratorLogSplit | app/src/mock/java/com/bgauthey/speedotracker/service/FakeLocationService.java:72-78 | n + m runs are n runs followed by m runs |
| FakeService.FakeLocationService.constructor | app/src/mock/java/com/bgauthey/speedotracker/service/FakeLocationService.java:20-27 | selector 0, not running, inactive |
| FakeService.FakeLocationService.IsTrackingReady | app/src/mock/java/com/bgauthey/speedotracker/service/FakeLocationService.java:37-39 | always ready |
| FakeService.FakeLocationService.IsTrackingRunning | app/src/mock/java/com/bgauthey/speedotracker/service/FakeLocationService.java:42-44 | the running flag |
| FakeService.FakeLocationService.GetAverageSpeedHistory | app/src/mock/java/com/bgauthey/speedotracker/service/FakeLocationService.java:61-63 | always 55.2 |
| FakeService.FakeLocationService.IsSpeedActive | app/src/mock/java/com/bgauthey/speedotracker/service/FakeLocationService.java:66-68 | the flag of the last run |
| FakeService.FakeLocationService.StartTracking | app/src/mock/java/com/bgauthey/speedotracker/service/FakeLocationService.java:47-51 | running, notified, one more run scheduled |
| FakeService.FakeLocationService.StopTracking | app/src/mock/java/com/bgauthey/speedotracker/service/FakeLocationService.java:54-58 | stopped, every scheduled run cancelled, notified |
| FakeService.FakeLocationService.ToggleTracking | app/src/main/java/com/bgauthey/speedotracker/service/LocationService.java:92-98 | flips the running flag and notifies the new state; every scheduled run is cancelled when it stops, one more is scheduled when it starts |
| FakeService.FakeLocationService.RunSpeedGenerator | app/src/mock/java/com/bgauthey/speedotracker/service/FakeLocationService.java:72-78 | advances the selector, notifies the speed then the activity, and is active exactly when the speed is non-zero, that is on the first twelve of each 14 runs |

Some methods restate unit tests on the model, with assertions on their outcomes:

- `GpsEngine.ListenerTests` restates the listener tests of `GpsLocationProviderTest`.
- `GpsEngine.SpeedActivityTest`, `GpsEngine.StaysActiveTest` and `GpsEngine.ThresholdTest`
  restate its speed-activity test, in three parts.
- `SpeedTracking.ScreenTests` restates `start_speedInactive_showsInstantSpeedScreen` of
  `SpeedTrackingPresenterTest`.
- `SpeedTracking.ToggleNotReadyTest`, `SpeedTracking.ToggleStopTest` and
  `SpeedTracking.ToggleStartTest` restate its three `toggleTracking_*` tests.
- `SpeedTracking.ActivityScreenTest` restates its first screen-order test.

Other methods run typical call sequences: `DirectGpsEngine.PermissionScenario`,
`ListenerGpsEngine.ServiceScenario`, `SpeedTracking.StopTests`,
`LocationServiceRegistry.RegistryScenario`, `LocationProviderRegistry.ChannelScenario`,
`ProviderEngine.TrackSpeedActivityScenario` and `FakeService.FakeScenario`.

## Left out

- Java `float` arithmetic: speeds, distances and the threshold are exact reals, so IEEE
  rounding of `1f / 3.6f`, of `value * 3.6f` and of the `int`/`long` to `float` widening is
  not modelled; zero-divided averages take the IEEE outcome explicitly.
- `FakeLocationService`'s `AtomicInteger` selector is unbounded here: its wrap-around after
  2^31 runs (which would index the speed table with a negative remainder) is not modelled.
- `Handler.post` / `postDelayed` / `removeCallbacks` are reduced to a count of pending runs;
  timing (one run per second) is not modelled.
- Thread safety of the `CopyOnWriteArrayList` listener lists and concurrent delivery are not
  modelled; lists are sequences updated atomically.
- `getInstance` singletons, `Injection` and the Android `Context` plumbing are left out.
- `Location.distanceTo` is a function parameter; `Location.set`/`reset` are replaced by
  copying a sample value or putting the cleared sample (speed 0, time 0, a fixed position).
- `PermissionUtils.isLocationPermissionGranted` and `requestLocationPermission` call Android
  directly; the permission and provider-enabled answers are fields of `Platform.LocationManager`.
- `DefaultGpsLocationCallback` and the test-side `FakeGpsLocationCallback` are both
  `Platform.GpsLocationCallback`: a readiness flag and the set of registered listeners.
  The update interval (500 ms, 0 m) passed to the location manager is not modelled.
- The engines log their inherited `notify*` calls instead of calling into a registry object;
  what a `notify*` call does with the listener lists is modelled once in
  `LocationServiceRegistry` and `LocationProviderRegistry`.
- `GpsLocationService` does not implement `LocationService.isSpeedActive`, so it does not
  compile against its parent; the model gives it no `IsSpeedActive`.
- `SpeedTrackingPresenter` names its listeners with `LocationProvider.OnLocationServiceStateChangedListener`
  and `onLocationServiceStateChangedListener` / `onLocationServiceSpeed…Listener` callbacks,
  which exist only in `LocationService`; the model registers the presenter's listeners with
  the `LocationProvider` registry lists the calls name.
- The average-speed channel: no engine calls `notifyOnAverageSpeedChanged`, so the model's
  engines never send it; only the registry's broadcast of it is modelled.
- The UI (`SpeedTrackingActivity`, fragments, their presenters, the view pager) and logging
  are not part of this model.
- `LocationProviderForTest` (a test double) is not part of this model as a class. Its
  `trigger*` calls appear in the presenter tests as a registry `notify*` call followed by
  `SpeedTracking.SpeedTrackingPresenter.Deliver`.
- No class extends `LocationProvider`: the engines extend `LocationService`. The registry's
  `StartTracking` does what the two `GpsLocationProvider`s do: when tracking is ready it sets
  the running flag and notifies the state listeners, otherwise nothing. The readiness check is
  theirs (gps/GpsLocationProvider.java:136-138, service/GpsLocationProvider.java:153-155); the
  fake service is always ready, so it always starts. The registry's `StopTracking` does what
  every stop does: running false and the state listeners notified. `GpsLocationService`'s
  start, which notifies nothing, is modelled only in `ServiceEngine` and `ListenerGpsEngine`.
- The test double's unguarded start is not modelled: `LocationProviderForTest.startTracking`
  calls `triggerStateChanged(true)` without checking readiness, so with the Java test double
  the presenter's `startTracking` shows the instant-speed screen and the stop button even when
  tracking is not ready. The registry's `StartTracking` follows the GPS providers and changes
  nothing then.
- Listener callbacks: a registry's `notify*` call records the calls its loop makes. The
  presenter's listeners run them through `SpeedTrackingPresenter.Deliver` once the provider
  call returns, not from inside the loop. Listeners of other clients are not run. Nothing in
  the presenter happens between those two points, so the view commands and their order are
  the same.
