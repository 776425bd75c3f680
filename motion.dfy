/** The motion tracker of js/motion.js: a debounced threshold detector over successive
    acceleration magnitudes, and a first-in first-out buffer of the last 20 step
    intensities whose mean sets a capped energy level. The magnitude (the Euclidean norm
    of the three axes) and the clock `Date.now()` are inputs. The update callback is
    modelled by whether one is registered and by the value handleMotion passes to it. */
module Motion {
  import opened JsBase

  const StepThreshold: real := 1.2
  /** A step needs strictly more than this many milliseconds since the last one. */
  const StepDebounceMs: int := 300
  const BufferCapacity: nat := 20
  const EnergyScale: real := 30.0
  const EnergyCap: real := 100.0

  /** `event.accelerationIncludingGravity` as handleMotion finds it: absent, or present
      with its x axis (None when x is missing) and the magnitude of the three axes. */
  datatype Sample = NoAcceleration | Acceleration(x: Option<real>, magnitude: real)

  /** The source returns early unless the sample exists and its x axis is truthy. */
  predicate Usable(e: Sample)
  {
    e.Acceleration? && e.x.Some? && e.x.value != 0.0
  }

  /** The argument of the callback. */
  datatype MotionUpdate = MotionUpdate(steps: int, turns: int, energy: real)

  datatype TrackerState = TrackerState(
    isTracking: bool,
    hasCallback: bool,
    lastAcceleration: Option<real>,
    stepCount: int,
    lastStepTime: int,
    turnCount: int,
    energyLevel: real,
    activityBuffer: seq<real>)

  const Initial: TrackerState := TrackerState(false, false, None, 0, 0, 0, 0.0, [])

  /** What the tracker keeps true: a buffer of at most 20 non-negative intensities and
      an energy level between 0 and 100. */
  predicate Valid(s: TrackerState)
  {
    && |s.activityBuffer| <= BufferCapacity
    && (forall i :: 0 <= i < |s.activityBuffer| ==> s.activityBuffer[i] >= 0.0)
    && 0.0 <= s.energyLevel <= EnergyCap
  }

  /** startTracking(callback): counters, energy and buffer reset; the last magnitude
      and the time of the last step are kept. */
  function StartedTracking(s: TrackerState, hasCallback: bool): TrackerState
  {
    s.(hasCallback := hasCallback, isTracking := true, stepCount := 0, turnCount := 0,
       energyLevel := 0.0, activityBuffer := [])
  }

  /** The buffer after `push`, and one `shift` when it is longer than 20. */
  function Pushed(buffer: seq<real>, intensity: real): (r: seq<real>)
    ensures |r| >= 1
  {
    var b := buffer + [intensity];
    if |b| > BufferCapacity then b[1..] else b
  }

  /** updateEnergy(intensity). */
  function WithEnergy(s: TrackerState, intensity: real): TrackerState
  {
    var b := Pushed(s.activityBuffer, intensity);
    s.(activityBuffer := b, energyLevel := Min(EnergyCap, Sum(b) / (|b| as real) * EnergyScale))
  }

  /** The step test of handleMotion: a previous magnitude exists, the change exceeds
      1.2, and more than 300 ms passed since the last step. */
  predicate IsStep(s: TrackerState, magnitude: real, now: int)
  {
    s.lastAcceleration.Some? && Abs(magnitude - s.lastAcceleration.value) > StepThreshold
    && now - s.lastStepTime > StepDebounceMs
  }

  /** handleMotion(event): the new state and the callback's argument, if it is called. */
  function AfterMotion(s: TrackerState, e: Sample, now: int): (TrackerState, Option<MotionUpdate>)
  {
    if !s.isTracking || !Usable(e) then (s, None)
    else if IsStep(s, e.magnitude, now) then
      var delta := Abs(e.magnitude - s.lastAcceleration.value);
      var stepped := WithEnergy(s.(stepCount := s.stepCount + 1, lastStepTime := now), delta);
      (stepped.(lastAcceleration := Some(e.magnitude)),
       if s.hasCallback then Some(MotionUpdate(stepped.stepCount, stepped.turnCount, stepped.energyLevel))
       else None)
    else (s.(lastAcceleration := Some(e.magnitude)), None)
  }

  /** stopTracking(): only the flag (the listener removal is not modelled). */
  function StoppedTracking(s: TrackerState): TrackerState
  {
    s.(isTracking := false)
  }

  // ---------------------------------------------------------------------------
  // Properties

  /** The buffer keeps the newest intensity last and drops the oldest one once it
      would hold 21. */
  lemma BufferWindow(buffer: seq<real>, intensity: real)
    requires |buffer| <= BufferCapacity
    ensures var b := Pushed(buffer, intensity);
      && |b| <= BufferCapacity && b[|b| - 1] == intensity
      && (|buffer| < BufferCapacity ==> b == buffer + [intensity])
      && (|buffer| == BufferCapacity ==> b == buffer[1..] + [intensity])
  {
  }

  /** energyLevel = min(100, mean(buffer) * 30), and so within [0, 100] when the
      intensities are not negative. */
  lemma EnergyInRange(s: TrackerState, intensity: real)
    requires Valid(s) && intensity >= 0.0
    ensures var t := WithEnergy(s, intensity);
      && t.energyLevel == Min(EnergyCap, Mean(t.activityBuffer) * EnergyScale)
      && 0.0 <= t.energyLevel <= EnergyCap
  {
    var b := Pushed(s.activityBuffer, intensity);
    assert forall i :: 0 <= i < |b| ==> b[i] >= 0.0 by {
      var full := s.activityBuffer + [intensity];
      assert forall i :: 0 <= i < |full| ==> full[i] >= 0.0;
    }
    SumNonNegative(b);
  }

  /** Every operation keeps the tracker invariant. */
  lemma ValidPreserved(s: TrackerState, e: Sample, now: int, hasCallback: bool)
    requires Valid(s)
    ensures Valid(Initial) && Valid(StartedTracking(s, hasCallback)) && Valid(StoppedTracking(s))
    ensures Valid(AfterMotion(s, e, now).0)
  {
    if s.isTracking && Usable(e) && IsStep(s, e.magnitude, now) {
      var delta := Abs(e.magnitude - s.lastAcceleration.value);
      var counted := s.(stepCount := s.stepCount + 1, lastStepTime := now);
      assert Valid(counted);
      WithEnergyValid(counted, delta);
      var stepped := WithEnergy(counted, delta);
      assert AfterMotion(s, e, now).0 == stepped.(lastAcceleration := Some(e.magnitude));
    }
  }

  /** updateEnergy keeps the tracker invariant for a non-negative intensity. */
  lemma WithEnergyValid(s: TrackerState, intensity: real)
    requires Valid(s) && intensity >= 0.0
    ensures Valid(WithEnergy(s, intensity))
  {
    BufferWindow(s.activityBuffer, intensity);
    EnergyInRange(s, intensity);
    var b := Pushed(s.activityBuffer, intensity);
    assert forall i :: 0 <= i < |b| ==> b[i] >= 0.0 by {
      var full := s.activityBuffer + [intensity];
      assert forall i :: 0 <= i < |full| ==> full[i] >= 0.0;
    }
  }

  /** A sample while not tracking, or without a usable x axis, changes nothing (not
      even the last magnitude) and calls nothing. */
  lemma IgnoredSample(s: TrackerState, e: Sample, now: int)
    requires !s.isTracking || !Usable(e)
    ensures AfterMotion(s, e, now) == (s, None)
  {
  }

  /** Every usable sample becomes the last magnitude; the first one never counts as a
      step. */
  lemma UsableSampleRecorded(s: TrackerState, e: Sample, now: int)
    requires s.isTracking && Usable(e)
    ensures AfterMotion(s, e, now).0.lastAcceleration == Some(e.magnitude)
    ensures s.lastAcceleration == None ==>
      AfterMotion(s, e, now).0 == s.(lastAcceleration := Some(e.magnitude))
  {
  }

  /** A step is registered exactly when the change exceeds 1.2 and more than 300 ms
      passed; it raises the count by one and moves the last step time to now. Otherwise
      the count and the last step time stay. */
  lemma StepRule(s: TrackerState, e: Sample, now: int)
    requires s.isTracking && Usable(e)
    ensures var t := AfterMotion(s, e, now).0;
      && (t.stepCount == s.stepCount + 1 <==> IsStep(s, e.magnitude, now))
      && (IsStep(s, e.magnitude, now) ==> t.lastStepTime == now)
      && (!IsStep(s, e.magnitude, now) ==> t.stepCount == s.stepCount && t.lastStepTime == s.lastStepTime)
  {
  }

  /** No sample touches the turn count, and none adds more than one step. */
  lemma AtMostOneStep(s: TrackerState, e: Sample, now: int)
    ensures var t := AfterMotion(s, e, now).0;
      t.turnCount == s.turnCount && s.stepCount <= t.stepCount <= s.stepCount + 1
  {
  }

  /** The callback runs only on a registered step and then receives the new counts and
      energy. */
  lemma CallbackOnStep(s: TrackerState, e: Sample, now: int)
    ensures var (t, call) := AfterMotion(s, e, now);
      && (call.Some? <==> s.isTracking && Usable(e) && IsStep(s, e.magnitude, now) && s.hasCallback)
      && (call.Some? ==> call.value == MotionUpdate(t.stepCount, t.turnCount, t.energyLevel))
  {
  }

  /** Debounce: after a step at time t, no sample up to t + 300 ms counts, however large
      its change. */
  lemma Debounce(s: TrackerState, e: Sample, now: int, e2: Sample, later: int)
    requires s.isTracking && Usable(e) && IsStep(s, e.magnitude, now)
    requires later <= now + StepDebounceMs
    ensures var t := AfterMotion(s, e, now).0;
      AfterMotion(t, e2, later).0.stepCount == t.stepCount
  {
  }

  /** startTracking zeroes steps, turns, energy and buffer, sets the flag, and keeps the
      last magnitude and the last step time. */
  lemma StartKeepsHistory(s: TrackerState, hasCallback: bool)
    ensures var t := StartedTracking(s, hasCallback);
      && t.isTracking && t.stepCount == 0 && t.turnCount == 0 && t.energyLevel == 0.0
      && t.activityBuffer == [] && t.lastAcceleration == s.lastAcceleration
      && t.lastStepTime == s.lastStepTime
  {
  }

  // ---------------------------------------------------------------------------
  // The tracker object

  class MotionTracker {
    var isTracking: bool
    var hasCallback: bool
    var lastAcceleration: Option<real>
    var stepCount: int
    var lastStepTime: int
    var turnCount: int
    var energyLevel: real
    var activityBuffer: seq<real>

    function State(): TrackerState
      reads this
    {
      TrackerState(isTracking, hasCallback, lastAcceleration, stepCount, lastStepTime,
                   turnCount, energyLevel, activityBuffer)
    }

    constructor ()
      ensures State() == Initial
    {
      isTracking, hasCallback, lastAcceleration := false, false, None;
      stepCount, lastStepTime, turnCount := 0, 0, 0;
      energyLevel, activityBuffer := 0.0, [];
    }

    method StartTracking(withCallback: bool)
      modifies this
      ensures State() == StartedTracking(old(State()), withCallback)
    {
      hasCallback := withCallback;
      isTracking := true;
      stepCount := 0;
      turnCount := 0;
      energyLevel := 0.0;
      activityBuffer := [];
    }

    /** handleMotion(event) at time `now`; `call` is the callback's argument. */
    method HandleMotion(e: Sample, now: int) returns (call: Option<MotionUpdate>)
      modifies this
      ensures (State(), call) == AfterMotion(old(State()), e, now)
    {
      call := None;
      if !isTracking {
        return;
      }
      if e.NoAcceleration? || e.x.None? || e.x.value == 0.0 {
        return;
      }
      var magnitude := e.magnitude;
      if lastAcceleration.Some? {
        var delta := Abs(magnitude - lastAcceleration.value);
        if delta > StepThreshold && now - lastStepTime > StepDebounceMs {
          stepCount := stepCount + 1;
          lastStepTime := now;
          UpdateEnergy(delta);
          if hasCallback {
            call := Some(MotionUpdate(stepCount, turnCount, energyLevel));
          }
        }
      }
      lastAcceleration := Some(magnitude);
    }

    method UpdateEnergy(movementIntensity: real)
      modifies this
      ensures State() == WithEnergy(old(State()), movementIntensity)
    {
      activityBuffer := activityBuffer + [movementIntensity];
      if |activityBuffer| > BufferCapacity {
        activityBuffer := activityBuffer[1..];
      }
      var avgActivity := Sum(activityBuffer) / (|activityBuffer| as real);
      energyLevel := Min(EnergyCap, avgActivity * EnergyScale);
    }

    method StopTracking()
      modifies this
      ensures State() == StoppedTracking(old(State()))
    {
      isTracking := false;
    }
  }
}
