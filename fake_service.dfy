/**
 * `FakeLocationService` (mock flavour): a location service that, once
 * started, replays a fixed table of speeds, one per second, through a posted
 * `Runnable`. The handler's queue is reduced to the number of pending posts.
 */
module FakeService {
  import opened Locations
  import opened Events

  /** `FAKE_SPEEDS`. */
  const FAKE_SPEEDS: seq<real> := [8.0, 12.0, 28.0, 45.0, 60.0, 72.0, 90.0, 120.0, 70.0, 60.0, 20.0, 12.0, 0.0, 0.0]

  /** `FAKE_AVERAGE_SPEED = 55.2f`. */
  const FAKE_AVERAGE_SPEED: real := 55.2

  /** The speed the generator emits on its k-th run. */
  function FakeSpeed(k: nat): (speed: real)
  {
    FAKE_SPEEDS[k % |FAKE_SPEEDS|]
  }

  /** `new Location("")`: the location sent with every fake speed. */
  const EmptyLocation: Sample := Cleared

  /** The notifications of a run that emits `speed`: the speed, then whether it is non-zero. */
  function RunEvents(speed: real): (log: seq<Notification>)
  {
    [SpeedChanged(speed, EmptyLocation), SpeedActivityChanged(speed != 0.0)]
  }

  /** The notifications of n runs reading `speeds` from position k on. */
  function RunsLog(speeds: nat -> real, k: nat, n: nat): (log: seq<Notification>)
    decreases n
  {
    if n == 0 then [] else RunEvents(speeds(k)) + RunsLog(speeds, k + 1, n - 1)
  }

  /** The notifications of the k-th run of the generator. */
  function StepEvents(k: nat): (log: seq<Notification>)
  {
    RunEvents(FakeSpeed(k))
  }

  /** The notifications of n runs of the generator starting with the k-th. */
  function GeneratorLog(k: nat, n: nat): (log: seq<Notification>)
  {
    RunsLog(FakeSpeed, k, n)
  }

  /** The table repeats every 14 runs. */
  lemma FakeSpeedPeriodic(k: nat)
    ensures FakeSpeed(k + 14) == FakeSpeed(k)
  {
    assert (k + 14) % 14 == k % 14;
  }

  /** Within each cycle of 14 runs, the speed is zero exactly on the last two. */
  lemma InactiveExactlyAtCycleEnd(k: nat)
    ensures FakeSpeed(k) == 0.0 <==> k % 14 >= 12
  {
    var i := k % 14;
    assert 0 <= i < 14;
    assert FAKE_SPEEDS[i] == 0.0 <==> i >= 12 by {
      assert forall j :: 0 <= j < 14 ==> (FAKE_SPEEDS[j] == 0.0 <==> j >= 12);
    }
  }

  /** Shifting the start by one cycle does not change what the generator emits. */
  lemma {:induction false} GeneratorLogShift(k: nat, n: nat)
    ensures GeneratorLog(k + 14, n) == GeneratorLog(k, n)
    decreases n
  {
    if n > 0 {
      FakeSpeedPeriodic(k);
      GeneratorLogShift(k + 1, n - 1);
      assert k + 14 + 1 == k + 1 + 14;
    }
  }

  /** Shifting the start by whole cycles does not change what the generator emits. */
  lemma {:induction false} GeneratorLogPeriodic(k: nat, cycles: nat, n: nat)
    ensures GeneratorLog(k + 14 * cycles, n) == GeneratorLog(k, n)
    decreases cycles
  {
    if cycles > 0 {
      GeneratorLogShift(k + 14 * (cycles - 1), n);
      GeneratorLogPeriodic(k, cycles - 1, n);
      assert k + 14 * cycles == k + 14 * (cycles - 1) + 14;
    }
  }

  /** Each run emits one speed notification and one activity notification. */
  lemma {:induction false} GeneratorCounts(k: nat, n: nat)
    ensures |GeneratorLog(k, n)| == 2 * n
    ensures SpeedEvents(GeneratorLog(k, n)) == n
    ensures ActivityEvents(GeneratorLog(k, n), true) + ActivityEvents(GeneratorLog(k, n), false) == n
    decreases n
  {
    if n > 0 {
      GeneratorCounts(k + 1, n - 1);
      var e := StepEvents(k);
      assert e[1..] == [e[1]] && e[1..][1..] == [];
      CountsDistribute(e, GeneratorLog(k + 1, n - 1));
    }
  }

  /** A whole cycle reports active twelve times, then inactive twice. */
  lemma CycleActivity(start: nat)
    requires start % 14 == 0
    ensures ActivityEvents(GeneratorLog(start, 14), true) == 12
    ensures ActivityEvents(GeneratorLog(start, 14), false) == 2
  {
    CycleHead(start, 0);
    CycleTail(start);
    GeneratorLogSplit(start, 12, 2);
    CountsDistribute(GeneratorLog(start, 12), GeneratorLog(start + 12, 2));
  }

  /** The first twelve runs of a cycle all report active. */
  lemma {:induction false} CycleHead(start: nat, i: nat)
    requires start % 14 == 0 && i <= 12
    ensures ActivityEvents(GeneratorLog(start + i, 12 - i), true) == 12 - i
    ensures ActivityEvents(GeneratorLog(start + i, 12 - i), false) == 0
    decreases 12 - i
  {
    if i < 12 {
      var k := start + i;
      var rest := GeneratorLog(k + 1, 11 - i);
      CycleHead(start, i + 1);
      assert start + (i + 1) == k + 1 && 12 - (i + 1) == 11 - i;
      ActiveEarlyInCycle(start, i);
      StepCounts(k);
      assert GeneratorLog(k, 12 - i) == StepEvents(k) + rest;
      CountsDistribute(StepEvents(k), rest);
    }
  }

  /** The first twelve speeds of every cycle are non-zero. */
  lemma ActiveEarlyInCycle(start: nat, i: nat)
    requires start % 14 == 0 && i < 12
    ensures FakeSpeed(start + i) != 0.0
  {
    CyclePosition(start, i);
    InactiveExactlyAtCycleEnd(start + i);
  }

  /** One run reports one activity notification, carrying whether its speed is non-zero. */
  lemma StepCounts(k: nat)
    ensures ActivityEvents(StepEvents(k), FakeSpeed(k) != 0.0) == 1
    ensures ActivityEvents(StepEvents(k), FakeSpeed(k) == 0.0) == 0
    ensures SpeedEvents(StepEvents(k)) == 1
  {
    var e := StepEvents(k);
    var on := FakeSpeed(k) != 0.0;
    assert e[1..] == [SpeedActivityChanged(on)] && e[1..][1..] == [];
    assert ActivityEvents(e[1..], on) == 1 && ActivityEvents(e[1..], !on) == 0;
    assert SpeedEvents(e[1..]) == 0;
  }

  /** The run i steps into a cycle sits at position i of the table. */
  lemma CyclePosition(start: nat, i: nat)
    requires start % 14 == 0 && i < 14
    ensures (start + i) % 14 == i
  {
    var c := start / 14;
    assert start == 14 * c;
  }

  /** The last two runs of a cycle both report inactive. */
  lemma CycleTail(start: nat)
    requires start % 14 == 0
    ensures ActivityEvents(GeneratorLog(start + 12, 2), true) == 0
    ensures ActivityEvents(GeneratorLog(start + 12, 2), false) == 2
  {
    CyclePosition(start, 12);
    CyclePosition(start, 13);
    InactiveExactlyAtCycleEnd(start + 12);
    InactiveExactlyAtCycleEnd(start + 13);
    var a, b := StepEvents(start + 12), StepEvents(start + 13);
    assert GeneratorLog(start + 13, 1) == b + [];
    assert GeneratorLog(start + 12, 2) == a + b;
    assert a[1..] == [a[1]] && a[1..][1..] == [];
    assert b[1..] == [b[1]] && b[1..][1..] == [];
    CountsDistribute(a, b);
  }

  /** Whatever the speeds, n + m runs are n runs followed by m runs. */
  lemma {:induction false} RunsLogSplit(speeds: nat -> real, k: nat, n: nat, m: nat)
    ensures RunsLog(speeds, k, n + m) == RunsLog(speeds, k, n) + RunsLog(speeds, k + n, m)
    decreases n
  {
    if n == 0 {
      assert RunsLog(speeds, k, n) == [];
    } else {
      RunsLogSplit(speeds, k + 1, n - 1, m);
      assert RunsLog(speeds, k, n + m) == RunEvents(speeds(k)) + RunsLog(speeds, k + 1, (n - 1) + m);
    }
  }

  /** n + m runs of the generator are n runs followed by m runs. */
  lemma GeneratorLogSplit(k: nat, n: nat, m: nat)
    ensures GeneratorLog(k, n + m) == GeneratorLog(k, n) + GeneratorLog(k + n, m)
  {
    RunsLogSplit(FakeSpeed, k, n, m);
  }

  class FakeLocationService {
    /** `mSpeedSelector`: how many runs the generator has made. */
    var speedSelector: nat
    /** `mTrackingEnabled`. */
    var trackingEnabled: bool
    /** `mSpeedRunning`. */
    var speedRunning: bool
    /** How many posts of `mSpeedGenerator` wait in the handler's queue. */
    var pendingRuns: nat
    /** The inherited `notify*` calls made so far, in order. */
    var notifications: seq<Notification>

    constructor ()
      ensures speedSelector == 0 && !trackingEnabled && !speedRunning && pendingRuns == 0 && notifications == []
    {
      speedSelector, trackingEnabled, speedRunning, pendingRuns, notifications := 0, false, false, 0, [];
    }

    /** `isTrackingReady`: always. */
    method IsTrackingReady() returns (r: bool)
      ensures r
    {
      r := true;
    }

    method IsTrackingRunning() returns (r: bool)
      ensures r == trackingEnabled
    {
      r := trackingEnabled;
    }

    /** `getAverageSpeedHistory`: the constant 55.2. */
    method GetAverageSpeedHistory() returns (r: real)
      ensures r == FAKE_AVERAGE_SPEED
    {
      r := FAKE_AVERAGE_SPEED;
    }

    method IsSpeedActive() returns (r: bool)
      ensures r == speedRunning
    {
      r := speedRunning;
    }

    /** `startTracking`: running, notify, and post the generator. */
    method StartTracking()
      modifies this`trackingEnabled, this`notifications, this`pendingRuns
      ensures trackingEnabled
      ensures notifications == old(notifications) + [StateChanged(true)]
      ensures pendingRuns == old(pendingRuns) + 1
    {
      trackingEnabled := true;
      notifications := notifications + [StateChanged(true)];
      pendingRuns := pendingRuns + 1;
    }

    /** `stopTracking`: not running, drop every pending post, notify. */
    method StopTracking()
      modifies this`trackingEnabled, this`notifications, this`pendingRuns
      ensures !trackingEnabled
      ensures notifications == old(notifications) + [StateChanged(false)]
      ensures pendingRuns == 0
    {
      trackingEnabled := false;
      pendingRuns := 0;
      notifications := notifications + [StateChanged(false)];
    }

    /** `toggleTracking` (inherited). */
    method ToggleTracking()
      modifies this`trackingEnabled, this`notifications, this`pendingRuns
      ensures trackingEnabled == !old(trackingEnabled)
      ensures notifications == old(notifications) + [StateChanged(trackingEnabled)]
      ensures pendingRuns == if old(trackingEnabled) then 0 else old(pendingRuns) + 1
    {
      if trackingEnabled {
        StopTracking();
      } else {
        StartTracking();
      }
    }

    /**
     * `mSpeedGenerator.run()`, when a post comes due: emit the next table
     * speed, set the activity flag to whether it is non-zero, and post again.
     */
    method RunSpeedGenerator()
      requires pendingRuns > 0
      modifies this`speedSelector, this`speedRunning, this`notifications
      ensures speedSelector == old(speedSelector) + 1
      ensures notifications == old(notifications) + StepEvents(old(speedSelector))
      ensures speedRunning <==> FakeSpeed(old(speedSelector)) != 0.0
      ensures speedRunning <==> old(speedSelector) % 14 < 12
    {
      InactiveExactlyAtCycleEnd(speedSelector);
      var speed := FAKE_SPEEDS[speedSelector % |FAKE_SPEEDS|];
      speedSelector := speedSelector + 1;
      notifications := notifications + [SpeedChanged(speed, EmptyLocation)];
      speedRunning := speed != 0.0;
      notifications := notifications + [SpeedActivityChanged(speedRunning)];
    }
  }

  /** Start, two runs, stop: the first two table speeds, both active, and nothing left pending. */
  method FakeScenario()
  {
    var service := new FakeLocationService();
    service.StartTracking();
    service.RunSpeedGenerator();
    service.RunSpeedGenerator();
    assert service.speedRunning && service.speedSelector == 2;
    assert service.notifications[1..] == StepEvents(0) + StepEvents(1);
    assert service.notifications[1] == SpeedChanged(8.0, EmptyLocation);
    assert service.notifications[3] == SpeedChanged(12.0, EmptyLocation);
    service.StopTracking();
    assert service.pendingRuns == 0 && !service.trackingEnabled;
  }
}
