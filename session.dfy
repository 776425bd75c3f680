/** The practice-session object of js/session.js: four lifecycle fields (active, paused,
    start time, pause instant) and a data record whose reading buffers grow while the
    session runs. The wall clock `Date.now()` is the integer parameter `now` (milliseconds).

    The state is given twice: as the value `SessionState` with one function per operation
    (the specification, about which the lemmas speak), and as the class `SessionEngine`
    whose fields the methods update in place, each proved to end in the state the
    corresponding function gives. */
module Session {
  import opened JsBase

  /** The routine name `start` uses when it is called without one. */
  const DefaultRoutine: string := "Freestyle"

  datatype SessionData = SessionData(
    routineName: Option<string>,
    duration: int,
    steps: real,
    turns: real,
    energy: real,
    postureReadings: seq<real>,
    bpmReadings: seq<real>,
    timestamps: seq<int>)

  /** The data record before any session has started, and the one `start` resets to. */
  const EmptyData: SessionData := SessionData(None, 0, 0.0, 0.0, 0.0, [], [], [])

  datatype SessionState = SessionState(
    isActive: bool,
    isPaused: bool,
    startTime: Option<int>,
    pausedTime: int,
    data: SessionData)

  const Initial: SessionState := SessionState(false, false, None, 0, EmptyData)

  /** The record `getSummary` builds; `date` is the instant (ms) of the call. */
  datatype Summary = Summary(
    routineName: Option<string>,
    date: int,
    duration: string,
    durationSeconds: int,
    score: int,
    avgBPM: int,
    steps: real,
    turns: real,
    energy: int,
    postureReadings: seq<real>,
    bpmReadings: seq<real>)

  /** The lifecycle invariant every operation keeps: a paused session is active, and an
      active session has a start time. */
  predicate Valid(s: SessionState)
  {
    (s.isPaused ==> s.isActive) && (s.isActive ==> s.startTime.Some?)
  }

  /** `startTime` in arithmetic: JavaScript reads `null` as 0. */
  function StartOrZero(s: SessionState): int
  {
    match s.startTime
    case Some(t) => t
    case None => 0
  }

  /** Math.floor of a millisecond difference divided by 1000 (Dafny's `/` floors for a
      positive divisor, as Math.floor does). */
  function Seconds(ms: int): int
  {
    ms / 1000
  }

  // ---------------------------------------------------------------------------
  // Operations on the state value

  /** start(routineName): unguarded; None stands for a call without an argument. */
  function Started(routineName: Option<string>, now: int): SessionState
  {
    var name := match routineName case Some(n) => n case None => DefaultRoutine;
    SessionState(true, false, Some(now), 0, EmptyData.(routineName := Some(name)))
  }

  function Paused(s: SessionState, now: int): SessionState
  {
    if !s.isActive || s.isPaused then s
    else s.(isPaused := true, pausedTime := now)
  }

  function Resumed(s: SessionState, now: int): SessionState
  {
    if !s.isActive || !s.isPaused then s
    else s.(startTime := Some(StartOrZero(s) + (now - s.pausedTime)), isPaused := false, pausedTime := 0)
  }

  /** update(dataType, value): the reading itself, before the duration is refreshed. */
  function Recorded(d: SessionData, dataType: string, value: real): SessionData
  {
    if dataType == "posture" then d.(postureReadings := d.postureReadings + [value])
    else if dataType == "bpm" then d.(bpmReadings := d.bpmReadings + [value])
    else if dataType == "steps" then d.(steps := value)
    else if dataType == "turns" then d.(turns := value)
    else if dataType == "energy" then d.(energy := value)
    else d
  }

  function Updated(s: SessionState, dataType: string, value: real, now: int): SessionState
  {
    if !s.isActive || s.isPaused then s
    else s.(data := Recorded(s.data, dataType, value).(duration := Seconds(now - StartOrZero(s))))
  }

  /** getDuration(): 0 when inactive, frozen at the pause instant while paused. */
  function Duration(s: SessionState, now: int): int
  {
    if !s.isActive then 0
    else if s.isPaused then Seconds(s.pausedTime - StartOrZero(s))
    else Seconds(now - StartOrZero(s))
  }

  /** formatDuration(seconds): minutes, a colon, and the remainder padded to two places.
      The remainder is JavaScript's `%`, which takes the sign of the dividend. */
  function FormatDuration(seconds: int): (r: string)
    ensures seconds >= 0 ==> |r| >= 4 && r[|r| - 3] == ':'
    ensures seconds >= 0 ==> '0' <= r[|r| - 2] <= '5' && '0' <= r[|r| - 1] <= '9'
  {
    if seconds >= 0 then ClockText(seconds)
    else IntToString(seconds / 60) + ":" + PadStart(IntToString(-((-seconds) % 60)), 2, '0')
  }

  /** formatDuration of a non-negative count: the digits of the minutes, a colon and the
      two places of the seconds. */
  function ClockText(n: nat): (r: string)
    ensures |r| >= 4 && r[|r| - 3] == ':'
    ensures '0' <= r[|r| - 2] <= '5' && '0' <= r[|r| - 1] <= '9'
  {
    var secsText := PadStart(NatToString(n % 60), 2, '0');
    TwoDigitSeconds(n % 60);
    ColonJoin(NatToString(n / 60), secsText);
    NatToString(n / 60) + ":" + secsText
  }

  /** Where the colon and the two characters after it sit in `a:t`. */
  lemma ColonJoin(a: string, t: string)
    requires |a| >= 1 && |t| == 2
    ensures var r := a + ":" + t;
      |r| >= 4 && r[|r| - 3] == ':' && r[|r| - 2] == t[0] && r[|r| - 1] == t[1]
  {
  }

  /** The padded text of a remainder below 60: two digits, the first at most 5. */
  lemma TwoDigitSeconds(k: nat)
    requires k < 60
    ensures var t := PadStart(NatToString(k), 2, '0');
      |t| == 2 && '0' <= t[0] <= '5' && '0' <= t[1] <= '9'
  {
    var s := NatToString(k);
    if k >= 10 {
      assert s == [DigitChar(k / 10)] + [DigitChar(k % 10)];
      assert PadStart(s, 2, '0') == s;
    } else {
      assert s == [DigitChar(k)];
      assert PadStart(s, 2, '0') == PadStart(['0'] + s, 2, '0') == ['0'] + s;
    }
  }

  /** getSummary(): rounded means of the buffers (0 when a buffer is empty), counters as
      they are, the energy rounded. */
  function SummaryOf(s: SessionState, now: int): Summary
  {
    Summary(
      s.data.routineName,
      now,
      FormatDuration(s.data.duration),
      s.data.duration,
      Round(Mean(s.data.postureReadings)),
      Round(Mean(s.data.bpmReadings)),
      s.data.steps,
      s.data.turns,
      Round(s.data.energy),
      s.data.postureReadings,
      s.data.bpmReadings)
  }

  /** end(): nothing happens (and nothing is saved) unless the session is active;
      otherwise the summary is taken, then the lifecycle fields are cleared. The data
      record is kept. The second component is the summary, None for JavaScript's null. */
  function Ended(s: SessionState, now: int): (SessionState, Option<Summary>)
  {
    if !s.isActive then (s, None)
    else (s.(isActive := false, isPaused := false, startTime := None), Some(SummaryOf(s, now)))
  }

  // ---------------------------------------------------------------------------
  // Properties

  /** Every operation keeps the lifecycle invariant. */
  lemma ValidPreserved(s: SessionState, name: Option<string>, kind: string, v: real, now: int)
    requires Valid(s)
    ensures Valid(Initial) && Valid(Started(name, now))
    ensures Valid(Paused(s, now)) && Valid(Resumed(s, now)) && Valid(Updated(s, kind, v, now))
    ensures Valid(Ended(s, now).0)
  {
  }

  /** start resets everything, whatever the state before it. */
  lemma StartResets(name: string, now: int)
    ensures var s := Started(Some(name), now);
      s.isActive && !s.isPaused && s.startTime == Some(now) && s.pausedTime == 0
      && s.data == EmptyData.(routineName := Some(name))
    ensures Started(None, now).data.routineName == Some(DefaultRoutine)
  {
  }

  /** pause changes the state exactly when the session is active and not paused, and
      then it only marks the pause and records its instant. */
  lemma PauseGuard(s: SessionState, now: int)
    ensures Paused(s, now) != s <==> s.isActive && !s.isPaused
    ensures s.isActive && !s.isPaused ==>
      Paused(s, now) == s.(isPaused := true, pausedTime := now)
  {
  }

  /** resume changes the state exactly when the session is active and paused. */
  lemma ResumeGuard(s: SessionState, now: int)
    requires Valid(s)
    ensures Resumed(s, now) != s <==> s.isActive && s.isPaused
    ensures s.isActive && s.isPaused ==>
      var r := Resumed(s, now);
      r.isActive && !r.isPaused && r.pausedTime == 0 && r.data == s.data
      && r.startTime == Some(StartOrZero(s) + (now - s.pausedTime))
  {
  }

  /** While paused, the duration stays at its value at the pause instant. */
  lemma PauseFreezesDuration(s: SessionState, pausedAt: int, later: int)
    requires s.isActive && !s.isPaused
    ensures Duration(Paused(s, pausedAt), later) == Duration(s, pausedAt)
  {
  }

  /** A pause from `pausedAt` to `resumedAt` is left out of every later duration exactly
      once: the duration is the one the session would show at a clock `resumedAt - pausedAt`
      earlier had it never paused. */
  lemma ResumeExcludesPause(s: SessionState, pausedAt: int, resumedAt: int, later: int)
    requires s.isActive && !s.isPaused
    ensures Duration(Resumed(Paused(s, pausedAt), resumedAt), later)
         == Duration(s, later - (resumedAt - pausedAt))
    ensures Updated(Resumed(Paused(s, pausedAt), resumedAt), "tick", 0.0, later).data.duration
         == Duration(s, later - (resumedAt - pausedAt))
  {
  }

  /** update does nothing while the session is inactive or paused. */
  lemma UpdateIgnoredUnlessRunning(s: SessionState, kind: string, v: real, now: int)
    requires !s.isActive || s.isPaused
    ensures Updated(s, kind, v, now) == s
  {
  }

  /** While running, update appends posture and bpm readings, overwrites the three
      counters, ignores any other kind, and always refreshes `duration` to what
      getDuration reports at that instant. The lifecycle fields are untouched. */
  lemma UpdateWhileRunning(s: SessionState, kind: string, v: real, now: int)
    requires s.isActive && !s.isPaused
    ensures var r := Updated(s, kind, v, now);
      && r.data.duration == Duration(s, now)
      && r.isActive == s.isActive && r.isPaused == s.isPaused
      && r.startTime == s.startTime && r.pausedTime == s.pausedTime
      && r.data.routineName == s.data.routineName
      && r.data.postureReadings == s.data.postureReadings + (if kind == "posture" then [v] else [])
      && r.data.bpmReadings == s.data.bpmReadings + (if kind == "bpm" then [v] else [])
      && r.data.steps == (if kind == "steps" then v else s.data.steps)
      && r.data.turns == (if kind == "turns" then v else s.data.turns)
      && r.data.energy == (if kind == "energy" then v else s.data.energy)
  {
  }

  /** The summary score is the rounded mean of the posture readings, 0 without any,
      and stays within the range of the readings. */
  lemma SummaryScoreInRange(s: SessionState, now: int, lo: int, hi: int)
    requires forall i :: 0 <= i < |s.data.postureReadings| ==>
      lo as real <= s.data.postureReadings[i] <= hi as real
    ensures s.data.postureReadings == [] ==> SummaryOf(s, now).score == 0
    ensures s.data.postureReadings != [] ==> lo <= SummaryOf(s, now).score <= hi
  {
    if s.data.postureReadings != [] {
      MeanBounds(s.data.postureReadings, lo as real, hi as real);
      RoundMonotone(lo as real, Mean(s.data.postureReadings));
      RoundMonotone(Mean(s.data.postureReadings), hi as real);
      RoundOfInt(lo);
      RoundOfInt(hi);
    }
  }

  /** The same for the tempo average. */
  lemma SummaryBpmInRange(s: SessionState, now: int, lo: int, hi: int)
    requires forall i :: 0 <= i < |s.data.bpmReadings| ==>
      lo as real <= s.data.bpmReadings[i] <= hi as real
    ensures s.data.bpmReadings == [] ==> SummaryOf(s, now).avgBPM == 0
    ensures s.data.bpmReadings != [] ==> lo <= SummaryOf(s, now).avgBPM <= hi
  {
    if s.data.bpmReadings != [] {
      MeanBounds(s.data.bpmReadings, lo as real, hi as real);
      RoundMonotone(lo as real, Mean(s.data.bpmReadings));
      RoundMonotone(Mean(s.data.bpmReadings), hi as real);
      RoundOfInt(lo);
      RoundOfInt(hi);
    }
  }

  /** end on an inactive session returns null and changes nothing, so ending twice
      yields one summary only; end on an active session returns the summary of that
      moment and leaves an inactive, unpaused session with no start time. */
  lemma EndOnce(s: SessionState, now: int, again: int)
    ensures !s.isActive ==> Ended(s, now) == (s, None)
    ensures s.isActive ==>
      var (t, r) := Ended(s, now);
      r == Some(SummaryOf(s, now)) && !t.isActive && !t.isPaused && t.startTime == None
      && t.data == s.data && Ended(t, again) == (t, None)
  {
  }

  /** The scenario of a "Freestyle" session with posture readings 80 and 60 and a step
      counter of 2: the summary reports a score of 70 and 2 steps. */
  lemma FreestyleScenario(t0: int)
    ensures
      var s0 := Started(Some("Freestyle"), t0);
      var s1 := Updated(s0, "posture", 80.0, t0 + 1000);
      var s2 := Updated(s1, "posture", 60.0, t0 + 2000);
      var s3 := Updated(s2, "steps", 2.0, t0 + 3000);
      var (_, r) := Ended(s3, t0 + 4000);
      r.Some? && r.value.score == 70 && r.value.steps == 2.0
      && r.value.routineName == Some("Freestyle") && r.value.durationSeconds == 3
  {
    var s0 := Started(Some("Freestyle"), t0);
    var s3 := Updated(Updated(Updated(s0, "posture", 80.0, t0 + 1000), "posture", 60.0, t0 + 2000), "steps", 2.0, t0 + 3000);
    assert s3.data.postureReadings == [80.0, 60.0];
    assert Sum([80.0, 60.0]) == 140.0 by {
      assert [80.0, 60.0][..1] == [80.0];
      assert [80.0][..0] == [];
    }
  }

  // ---------------------------------------------------------------------------
  // The session object

  class SessionEngine {
    var isActive: bool
    var isPaused: bool
    var startTime: Option<int>
    var pausedTime: int
    var data: SessionData
    /** The summaries handed to the session store by `end`, oldest first. */
    var saves: seq<Summary>

    function State(): SessionState
      reads this
    {
      SessionState(isActive, isPaused, startTime, pausedTime, data)
    }

    constructor ()
      ensures State() == Initial && saves == []
    {
      isActive, isPaused, startTime, pausedTime := false, false, None, 0;
      data := EmptyData;
      saves := [];
    }

    method Start(routineName: Option<string>, now: int)
      modifies this
      ensures State() == Started(routineName, now) && saves == old(saves)
    {
      isActive := true;
      isPaused := false;
      startTime := Some(now);
      pausedTime := 0;
      var name := match routineName case Some(n) => n case None => DefaultRoutine;
      data := SessionData(Some(name), 0, 0.0, 0.0, 0.0, [], [], []);
    }

    method Pause(now: int)
      modifies this
      ensures State() == Paused(old(State()), now) && saves == old(saves)
    {
      if !isActive || isPaused {
        return;
      }
      isPaused := true;
      pausedTime := now;
    }

    method Resume(now: int)
      modifies this
      ensures State() == Resumed(old(State()), now) && saves == old(saves)
    {
      if !isActive || !isPaused {
        return;
      }
      var pauseDuration := now - pausedTime;
      startTime := Some(StartOrZero(State()) + pauseDuration);
      isPaused := false;
      pausedTime := 0;
    }

    method Update(dataType: string, value: real, now: int)
      modifies this
      ensures State() == Updated(old(State()), dataType, value, now) && saves == old(saves)
    {
      if !isActive || isPaused {
        return;
      }
      if dataType == "posture" {
        data := data.(postureReadings := data.postureReadings + [value]);
      } else if dataType == "bpm" {
        data := data.(bpmReadings := data.bpmReadings + [value]);
      } else if dataType == "steps" {
        data := data.(steps := value);
      } else if dataType == "turns" {
        data := data.(turns := value);
      } else if dataType == "energy" {
        data := data.(energy := value);
      }
      if !isPaused {
        data := data.(duration := Seconds(now - StartOrZero(State())));
      }
    }

    /** end(): `saveFailed` is the outcome of the awaited save; a failure is caught,
        so it changes neither the returned summary nor the new state. */
    method End(now: int, saveFailed: bool) returns (result: Option<Summary>)
      modifies this
      ensures State() == Ended(old(State()), now).0
      ensures result == Ended(old(State()), now).1
      ensures result.None? ==> saves == old(saves)
      ensures result.Some? ==> saves == old(saves) + [result.value]
    {
      if !isActive {
        return None;
      }
      result := Some(SummaryOf(State(), now));
      isActive, isPaused, startTime := false, false, None;
      saves := saves + [result.value];
    }
  }
}
