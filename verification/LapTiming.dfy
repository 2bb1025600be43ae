/** The lap timer (`LapTimer`): crossing the start object starts the
    timer, crossing it again after the minimum lap time completes a lap,
    leaving the course invalidates the lap in progress, and an invalidated
    lap restarts at the next crossing.  A bounded history of lap times and
    the best lap are kept.

    `Time.time` arrives as the `now` parameter, and the bike's on-course
    flag as an optional boolean (`None` when no bike is attached). */
module LapTiming {
  import opened UnityMath
  import opened Optional
  import CarRules

  datatype LapConfig = LapConfig(minimumLapTime: real, maxLapCount: int)

  datatype LapTimer = LapTimer(
    running: bool,
    currentLapTime: real,
    bestLapTime: real,
    lapTimes: seq<real>,
    isCourseOut: bool,
    wasOnCourse: bool,
    lapInvalidated: bool,
    lastStartLineTime: real,
    lapStartTime: real,
    currentLap: int)

  /** The field initialisers. */
  const Initial: LapTimer := LapTimer(false, 0.0, FloatMaxValue, [], false, true, false, 0.0, 0.0, 0)

  /** The history never exceeds its bound (an empty history when the bound
      is not positive), and the best lap is no slower than any lap still in
      the history. */
  predicate Consistent(cfg: LapConfig, s: LapTimer)
  {
    |s.lapTimes| <= (if cfg.maxLapCount < 0 then 0 else cfg.maxLapCount) &&
    (forall i :: 0 <= i < |s.lapTimes| ==> s.bestLapTime <= s.lapTimes[i])
  }

  /** `ResetTimer`: stopped, times cleared, empty history, no best lap.
      The course flags are not touched. */
  function ResetTimer(s: LapTimer): (r: LapTimer)
    ensures !r.running && r.currentLapTime == 0.0 && r.lapStartTime == 0.0 && r.lastStartLineTime == 0.0
    ensures r.currentLap == 0 && r.lapTimes == [] && r.bestLapTime == FloatMaxValue
    ensures r.isCourseOut == s.isCourseOut && r.wasOnCourse == s.wasOnCourse && r.lapInvalidated == s.lapInvalidated
  {
    s.(running := false, currentLapTime := 0.0, lapStartTime := 0.0, lastStartLineTime := 0.0,
       currentLap := 0, lapTimes := [], bestLapTime := FloatMaxValue)
  }

  /** `StartTimer`: a fresh lap starting now, valid again. */
  function StartTimer(s: LapTimer, now: real): (r: LapTimer)
    ensures r.running && !r.lapInvalidated && r.currentLapTime == 0.0
    ensures r.lapStartTime == now && r.lastStartLineTime == now
    ensures r.lapTimes == s.lapTimes && r.bestLapTime == s.bestLapTime && r.currentLap == s.currentLap
    ensures r.isCourseOut == s.isCourseOut && r.wasOnCourse == s.wasOnCourse
  {
    s.(lapStartTime := now, lastStartLineTime := now, running := true, currentLapTime := 0.0, lapInvalidated := false)
  }

  /** `CompleteLap`.  A stopped timer ignores it.  Otherwise the current lap
      time is appended to the history, the oldest entry is dropped when the
      history grows past its bound, the best lap becomes the faster of the
      two, the lap counter advances and the next lap starts now. */
  function CompleteLap(cfg: LapConfig, s: LapTimer, now: real): (r: LapTimer)
    ensures !s.running ==> r == s
    ensures s.running ==> r.lapTimes == (if |s.lapTimes| + 1 > cfg.maxLapCount
                                         then (s.lapTimes + [s.currentLapTime])[1..]
                                         else s.lapTimes + [s.currentLapTime])
    ensures s.running && (cfg.maxLapCount >= 1 || |s.lapTimes| > 0) ==>
              |r.lapTimes| > 0 && r.lapTimes[|r.lapTimes| - 1] == s.currentLapTime
    ensures s.running ==> r.bestLapTime == Min(s.bestLapTime, s.currentLapTime) && r.bestLapTime <= s.bestLapTime
    ensures s.running ==> r.currentLap == s.currentLap + 1 && r.currentLapTime == 0.0
    ensures s.running ==> r.lapStartTime == now && r.lastStartLineTime == now && r.running
    ensures s.running ==> r.lapInvalidated == s.lapInvalidated && r.isCourseOut == s.isCourseOut
    ensures s.running ==> r.wasOnCourse == s.wasOnCourse
  {
    if !s.running then s
    else
      var lapTime := s.currentLapTime;
      var added := s.lapTimes + [lapTime];
      var kept := if |added| > cfg.maxLapCount then added[1..] else added;
      var best := if lapTime < s.bestLapTime then lapTime else s.bestLapTime;
      s.(lapTimes := kept, bestLapTime := best, currentLap := s.currentLap + 1,
         lapStartTime := now, lastStartLineTime := now, currentLapTime := 0.0)
  }

  /** Completing a lap keeps the history bounded and the best lap no slower
      than any recorded lap. */
  lemma {:induction false} CompleteLapConsistent(cfg: LapConfig, s: LapTimer, now: real)
    requires Consistent(cfg, s)
    ensures Consistent(cfg, CompleteLap(cfg, s, now))
  {
    if s.running {
      var r := CompleteLap(cfg, s, now);
      var added := s.lapTimes + [s.currentLapTime];
      forall i | 0 <= i < |added|
        ensures r.bestLapTime <= added[i]
      {
        if i < |s.lapTimes| {
          assert added[i] == s.lapTimes[i];
        }
      }
      forall i | 0 <= i < |r.lapTimes|
        ensures r.bestLapTime <= r.lapTimes[i]
      {
        if |added| > cfg.maxLapCount {
          assert r.lapTimes[i] == added[i + 1];
        } else {
          assert r.lapTimes[i] == added[i];
        }
      }
    }
  }

  /** What a crossing of the start object does. */
  datatype TriggerAction = Start | Complete | Restart | Ignore

  /** The decision of `OnTriggerEnter` for an object with the start tag:
      start a stopped timer; complete a valid lap once the minimum time has
      passed since the start line; restart an invalidated lap; otherwise
      ignore the crossing. */
  function TriggerDecision(cfg: LapConfig, s: LapTimer, now: real): (a: TriggerAction)
    ensures a == Start <==> !s.running
    ensures a == Complete <==> s.running && now - s.lastStartLineTime >= cfg.minimumLapTime && !s.lapInvalidated
    ensures a == Restart <==> s.running && s.lapInvalidated
    ensures a == Ignore <==> s.running && !s.lapInvalidated && now - s.lastStartLineTime < cfg.minimumLapTime
  {
    if !s.running then Start
    else if now - s.lastStartLineTime >= cfg.minimumLapTime && !s.lapInvalidated then Complete
    else if s.lapInvalidated then Restart
    else Ignore
  }

  /** `OnTriggerEnter`: other tags change nothing; the start tag carries out
      the decision. */
  function OnTriggerEnter(cfg: LapConfig, s: LapTimer, isStartTag: bool, now: real): (r: LapTimer)
    ensures !isStartTag ==> r == s
    ensures isStartTag && TriggerDecision(cfg, s, now) == Ignore ==> r == s
    ensures isStartTag && TriggerDecision(cfg, s, now) != Ignore ==> r.running && r.lastStartLineTime == now
    ensures isStartTag && TriggerDecision(cfg, s, now) == Restart ==> !r.lapInvalidated && r.lapTimes == s.lapTimes
    ensures isStartTag && TriggerDecision(cfg, s, now) == Complete ==> r.currentLap == s.currentLap + 1
    ensures r.currentLap == s.currentLap || r.currentLap == s.currentLap + 1
  {
    if !isStartTag then s
    else match TriggerDecision(cfg, s, now)
      case Start => StartTimer(s, now)
      case Complete => CompleteLap(cfg, s, now)
      case Restart => StartTimer(s, now)
      case Ignore => s
  }

  /** `Update`.  With a bike attached, the course flag follows the bike and
      a step off the course invalidates a running lap.  The displayed lap
      time advances only while running, on course and valid. */
  function Update(s: LapTimer, onCourse: Option<bool>, now: real): (r: LapTimer)
    ensures onCourse.None? ==> r.isCourseOut == s.isCourseOut && r.wasOnCourse == s.wasOnCourse && r.lapInvalidated == s.lapInvalidated
    ensures onCourse.Some? ==> r.isCourseOut == !onCourse.value && r.wasOnCourse == !s.isCourseOut
    ensures onCourse.Some? && !s.isCourseOut && !onCourse.value && s.running ==> r.lapInvalidated
    ensures r.lapInvalidated != s.lapInvalidated ==> r.lapInvalidated && s.running && onCourse == Some(false) && !s.isCourseOut
    ensures r.running && !r.isCourseOut && !r.lapInvalidated ==> r.currentLapTime == now - s.lapStartTime
    ensures !(r.running && !r.isCourseOut && !r.lapInvalidated) ==> r.currentLapTime == s.currentLapTime
    ensures r.running == s.running && r.lapTimes == s.lapTimes && r.bestLapTime == s.bestLapTime
    ensures r.currentLap == s.currentLap && r.lapStartTime == s.lapStartTime && r.lastStartLineTime == s.lastStartLineTime
  {
    var flagged :=
      match onCourse
      case None => s
      case Some(on) =>
        var wasOnCourse := !s.isCourseOut;
        var isCourseOut := !on;
        var invalidate := !wasOnCourse != isCourseOut && isCourseOut && s.running;
        s.(wasOnCourse := wasOnCourse, isCourseOut := isCourseOut,
           lapInvalidated := if invalidate then true else s.lapInvalidated);
    if flagged.running && !flagged.isCourseOut && !flagged.lapInvalidated
    then flagged.(currentLapTime := now - flagged.lapStartTime)
    else flagged
  }

  /** Everything that happens to the timer. */
  datatype Event = Tick(onCourse: Option<bool>, now: real) | Cross(isStartTag: bool, now: real) | Reset

  function Apply(cfg: LapConfig, s: LapTimer, e: Event): LapTimer
  {
    match e
    case Tick(onCourse, now) => Update(s, onCourse, now)
    case Cross(isStartTag, now) => OnTriggerEnter(cfg, s, isStartTag, now)
    case Reset => ResetTimer(s)
  }

  /** Any sequence of events keeps the timer consistent, never loses laps
      from the counter (short of a reset), and leaves the best lap no
      slower than any recorded lap. */
  function Run(cfg: LapConfig, s: LapTimer, events: seq<Event>): (r: LapTimer)
    requires Consistent(cfg, s)
    ensures Consistent(cfg, r)
    ensures (forall i :: 0 <= i < |events| ==> !events[i].Reset?) ==> r.currentLap >= s.currentLap
    decreases |events|
  {
    if |events| == 0 then s
    else
      var next := Apply(cfg, s, events[0]);
      assert Consistent(cfg, next) by {
        if events[0].Cross? && events[0].isStartTag && TriggerDecision(cfg, s, events[0].now) == Complete {
          CompleteLapConsistent(cfg, s, events[0].now);
        }
      }
      Run(cfg, next, events[1..])
  }

  lemma InitialConsistent(cfg: LapConfig)
    ensures Consistent(cfg, Initial)
  {
  }

  datatype Clock = Clock(minutes: int, seconds: int, milliseconds: int)

  /** `FormatTime` without the string layout: whole minutes, the whole
      seconds of the float remainder by 60, and the whole milliseconds of
      the remainder of the time in milliseconds by 1000. */
  function FormatTime(t: real): (c: Clock)
    ensures t >= 0.0 ==> c.minutes >= 0 && 0 <= c.seconds <= 59 && 0 <= c.milliseconds <= 999
    ensures t >= 0.0 ==> c.minutes * 60000 + c.seconds * 1000 + c.milliseconds == (t * 1000.0).Floor
  {
    if t >= 0.0 then FormatTimeDecomposes(t); FormatTimeRaw(t)
    else FormatTimeRaw(t)
  }

  function FormatTimeRaw(t: real): Clock
  {
    Clock(Trunc(t / 60.0), Trunc(FMod(t, 60.0)), Trunc(FMod(t * 1000.0, 1000.0)))
  }

  lemma FloorShift(k: int, b: real)
    ensures (k as real + b).Floor == k + b.Floor
  {
  }

  /** For a non-negative time the three fields are in range and together
      give back the time in whole milliseconds. */
  lemma {:induction false} FormatTimeDecomposes(t: real)
    requires t >= 0.0
    ensures var c := FormatTimeRaw(t);
      c.minutes >= 0 && 0 <= c.seconds <= 59 && 0 <= c.milliseconds <= 999 &&
      c.minutes * 60000 + c.seconds * 1000 + c.milliseconds == (t * 1000.0).Floor
  {
    var a := Trunc(t / 60.0);
    assert a == (t / 60.0).Floor;
    var b := FMod(t, 60.0);
    assert b == t - 60.0 * (a as real);
    assert 0.0 <= b < 60.0;
    var c := FMod(t * 1000.0, 1000.0);
    assert t * 1000.0 / 1000.0 == t;
    assert c == t * 1000.0 - 1000.0 * (t.Floor as real);
    assert Trunc(c) == (t * 1000.0).Floor - 1000 * t.Floor;
    FloorShift(60 * a, b);
    assert t.Floor == 60 * a + b.Floor;
  }

  /** The car's lap display and this timer agree on the minutes of any
      non-negative time. */
  lemma MinutesAgree(t: real)
    requires t >= 0.0
    ensures CarRules.TimeSplit(t).0 == FormatTime(t).minutes
  {
    var whole := Trunc(t);
    assert whole == t.Floor;
    assert (t / 60.0).Floor == whole / 60;
  }
}
