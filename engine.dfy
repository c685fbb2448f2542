/** The session engine of core/engine: it owns the configuration, the
    current countdown and the statistics, and moves from one interval to
    the next. Each operation returns the events it publishes, in order. */
module Engine {
  import opened Common
  import opened Text
  import PomodoroConfig
  import Countdown
  import Stats
  import Events

  type Config = PomodoroConfig.Config

  datatype EngineState = Idle | Running | Paused | Stopped
  datatype SessionType = Work | ShortBreak | LongBreak

  /** `startNextSession`'s choice of the next interval, the new count of
      work intervals and the interval's duration. */
  function NextSession(c: Config, hasTimer: bool, current: SessionType, count: int): (r: (SessionType, int, Duration))
    requires c.longBreakInterval != 0
    ensures r.0 == Work <==> !hasTimer || current != Work
    ensures r.1 == (if hasTimer && current == Work then count + 1 else count)
    ensures r.0 == Work ==> r.2 == c.workDuration
    ensures r.0 != Work ==> PomodoroConfig.GetNextBreakType(c, r.1) == (r.2, r.0 == LongBreak)
  {
    if !hasTimer then (Work, count, c.workDuration)
    else if current == Work then
      var (d, isLong) := PomodoroConfig.GetNextBreakType(c, count + 1);
      (if isLong then LongBreak else ShortBreak, count + 1, d)
    else (Work, count, c.workDuration)
  }

  /** The interval that a duration belongs to under configuration `c`. */
  function DurationOf(c: Config, s: SessionType): Duration {
    match s
    case Work => c.workDuration
    case ShortBreak => c.shortBreak
    case LongBreak => c.longBreak
  }

  /** Intervals alternate: work is followed by a break and a break by work;
      only the end of a work interval moves the count, by one; the first
      interval is work; and every interval gets its configured duration. */
  lemma NextSessionAlternates(c: Config, hasTimer: bool, current: SessionType, count: int)
    requires PomodoroConfig.IsValid(c)
    ensures var (next, n, d) := NextSession(c, hasTimer, current, count);
      d == DurationOf(c, next)
      && (!hasTimer ==> next == Work && n == count)
      && (hasTimer && current == Work ==> next != Work && n == count + 1)
      && (hasTimer && current != Work ==> next == Work && n == count)
      && (hasTimer && current == Work ==>
            (next == LongBreak <==> exists k :: count + 1 == k * c.longBreakInterval))
  {
    PomodoroConfig.LongBreakOnMultiples(c, count + 1);
  }

  /** The engine's interval and count after `steps` interval ends, starting
      from a fresh engine. */
  function Run(c: Config, steps: nat): (SessionType, int)
    requires c.longBreakInterval != 0
  {
    if steps == 0 then (Work, 0)
    else
      var (s, n) := Run(c, steps - 1);
      var (s1, n1, _) := NextSession(c, steps > 1, s, n);
      (s1, n1)
  }

  /** From a fresh engine the intervals run work, break, work, break, ...:
      after `2k + 1` starts it is work number `k + 1`, and after `2k + 2`
      it is the break after pomodoro `k + 1`, a long one exactly when that
      number is a multiple of the interval. */
  lemma {:induction false} RunShape(c: Config, k: nat)
    requires PomodoroConfig.IsValid(c)
    ensures Run(c, 2 * k + 1) == (Work, k)
    ensures Run(c, 2 * k + 2) ==
      (if PomodoroConfig.GetNextBreakType(c, k + 1).1 then LongBreak else ShortBreak, k + 1)
  {
    if k > 0 {
      RunShape(c, k - 1);
    }
  }

  /** `getBreakTypeString`: the label a break is recorded under. */
  function BreakTypeString(s: SessionType): (r: string)
    ensures r == Stats.LongBreakLabel <==> s == LongBreak
    ensures r == Stats.ShortBreakLabel <==> s != LongBreak
  {
    if s == LongBreak then "DESCANSO LARGO" else "DESCANSO"
  }

  /** The interval label of `createTimerEventData`. */
  function SessionLabel(s: SessionType): (r: string)
    ensures s == Work ==> r == Stats.WorkLabel
    ensures s != Work ==> r == BreakTypeString(s)
    ensures r == Stats.WorkLabel <==> s == Work
  {
    match s
    case Work => "TRABAJO"
    case ShortBreak => "DESCANSO"
    case LongBreak => "DESCANSO LARGO"
  }

  /** The timer status of `createTimerEventData`: paused, running, and
      stopped for every other timer state. */
  function StatusString(st: Countdown.State): (r: string)
    ensures r == "PAUSED" <==> st == Countdown.Paused
    ensures r == "RUNNING" <==> st == Countdown.Running
    ensures r == "STOPPED" <==> st in {Countdown.Idle, Countdown.Skipped, Countdown.Done}
  {
    match st
    case Paused => "PAUSED"
    case Running => "RUNNING"
    case _ => "STOPPED"
  }

  /** `createTimerEventData`: the snapshot's times and progress, labelled
      with the interval and the timer status, and the count so far. */
  function CreateTimerEventData(session: SessionType, count: int, snap: Countdown.Snapshot): (t: Events.TimerEventData)
    ensures t.remaining == snap.remaining && t.total == snap.duration && t.progress == snap.progress
    ensures t.sessionCount == count
    ensures t.state == Stats.WorkLabel <==> session == Work
    ensures t.status == "PAUSED" <==> snap.state == Countdown.Paused
    ensures t.status == "RUNNING" <==> snap.state == Countdown.Running
    ensures t.status == "STOPPED" <==> snap.state !in {Countdown.Paused, Countdown.Running}
  {
    Events.TimerEventData(snap.remaining, snap.duration, SessionLabel(session),
      StatusString(snap.state), snap.progress, count)
  }

  /** `createStatsEventData`: the statistics snapshot without the long-break
      counter and the total. */
  function CreateStatsEventData(s: Stats.StatsSnapshot): (t: Events.StatsEventData)
  {
    Events.StatsEventData(s.pomodorosCompleted, s.pomodorosSkipped, s.breaksCompleted,
      s.breaksSkipped, s.currentStreak, s.bestStreak, s.totalWorkTime, s.totalBreakTime,
      s.sessionDuration, s.workEfficiency)
  }
  /** The statistics event loses only the long-break counter and the total:
      put back, they give the snapshot again. */
  lemma StatsEventDataRestores(s: Stats.StatsSnapshot)
    ensures var t := CreateStatsEventData(s);
      Stats.StatsSnapshot(t.pomodorosCompleted, t.pomodorosSkipped, t.breaksCompleted,
        t.breaksSkipped, s.longBreaksCompleted, t.currentStreak, t.bestStreak, t.totalWorkTime,
        t.totalBreakTime, t.sessionDuration, t.workEfficiency, s.totalSessions) == s
  {
  }


  /** The number announced when a work interval starts, `count` intervals
      having ended before it. */
  function StartedPomodoroNumber(count: int): int {
    count + 1
  }

  /** The number announced when that work interval ends, as written: the
      count before it advances. */
  function FinishedPomodoroNumberAsWritten(count: int): (n: int)
    ensures n == StartedPomodoroNumber(count) - 1
  {
    count
  }

  /** The number announced when a work interval ends, corrected to be the
      number it started with. */
  function FinishedPomodoroNumber(count: int): (n: int)
    ensures n == StartedPomodoroNumber(count)
  {
    count + 1
  }

  /** As written, the `k + 1`-th work interval of a run is announced as
      pomodoro `k + 1` when it starts and as pomodoro `k` when it ends,
      completed or skipped; the very first one ends as pomodoro 0. */
  lemma {:induction false} FinishedEventTrailsStartedEvent(c: Config, k: nat, d: Duration,
    actual: Duration, start: Time, end: Time, completed: bool)
    requires PomodoroConfig.IsValid(c)
    ensures var (s, n) := Run(c, 2 * k + 1);
      var started := SessionStartedEvent(s, n, d, start);
      var finished := SessionFinishedEvent(s, n, d, actual, start, end, completed);
      started.kind == Events.PomodoroStarted && started.data.pomodoro.number == k + 1
      && finished.kind in {Events.PomodoroCompleted, Events.PomodoroSkipped}
      && finished.data.pomodoro.number == k
      && finished.data.pomodoro.number == started.data.pomodoro.number - 1
  {
    RunShape(c, k);
  }

  /** With the corrected number, the break that `GetNextBreakType` gives
      for the announced pomodoro is the break the engine starts next. */
  lemma FinishedNumberAgreesWithBreak(c: Config, count: int)
    requires PomodoroConfig.IsValid(c)
    ensures var (next, n, d) := NextSession(c, true, Work, count);
      n == FinishedPomodoroNumber(count)
      && PomodoroConfig.GetNextBreakType(c, FinishedPomodoroNumber(count)) == (d, next == LongBreak)
  {
  }

  /** The event announcing the start of an interval. */
  function SessionStartedEvent(s: SessionType, count: int, d: Duration, now: Time): (r: Events.Event)
  {
    if s == Work then
      Events.Event(Events.PomodoroStarted, now, Events.PomodoroData(
        Events.PomodoroEventData(StartedPomodoroNumber(count), d, 0, Some(now), None, "", 0)))
    else
      Events.Event(Events.BreakStarted, now, Events.BreakData(
        Events.BreakEventData(BreakTypeString(s), d, 0, Some(now), None, s == LongBreak)))
  }

  /** The event announcing the end of an interval, completed or skipped. */
  function SessionFinishedEvent(s: SessionType, count: int, d: Duration, actual: Duration,
    start: Time, end: Time, completed: bool): (r: Events.Event)
  {
    if s == Work then
      Events.Event(if completed then Events.PomodoroCompleted else Events.PomodoroSkipped, end,
        Events.PomodoroData(Events.PomodoroEventData(FinishedPomodoroNumberAsWritten(count), d, actual,
          Some(start), Some(end), "", 0)))
    else
      Events.Event(if completed then Events.BreakCompleted else Events.BreakSkipped, end,
        Events.BreakData(Events.BreakEventData(BreakTypeString(s), d, actual, Some(start),
          Some(end), s == LongBreak)))
  }

  /** What the start of an interval announces: the pomodoro-started event,
      numbered one past the count, exactly for work, otherwise the
      break-started event, long exactly for the long break. */
  lemma SessionStartedEventShape(s: SessionType, count: int, d: Duration, now: Time)
    ensures var r := SessionStartedEvent(s, count, d, now);
      r.timestamp == now
      && (r.kind == Events.PomodoroStarted <==> s == Work)
      && (r.kind == Events.BreakStarted <==> s != Work)
      && (s == Work ==> (r.data.PomodoroData?
            && r.data.pomodoro.number == StartedPomodoroNumber(count) && r.data.pomodoro.duration == d
            && r.data.pomodoro.startTime == Some(now) && r.data.pomodoro.endTime.None?))
      && (s != Work ==> (r.data.BreakData?
            && r.data.brk.duration == d && r.data.brk.startTime == Some(now) && r.data.brk.endTime.None?
            && (r.data.brk.isLongBreak <==> r.data.brk.kind == Stats.LongBreakLabel)
            && (r.data.brk.isLongBreak <==> s == LongBreak)))
  {
  }

  /** What the end of an interval announces: a completed event exactly when
      it was completed, a pomodoro event exactly for work, numbered one below
      the number it started with, with the planned and actual durations and
      both times. */
  lemma SessionFinishedEventShape(s: SessionType, count: int, d: Duration, actual: Duration,
    start: Time, end: Time, completed: bool)
    ensures var r := SessionFinishedEvent(s, count, d, actual, start, end, completed);
      r.timestamp == end
      && (r.kind in {Events.PomodoroCompleted, Events.BreakCompleted} <==> completed)
      && (r.kind in {Events.PomodoroCompleted, Events.PomodoroSkipped} <==> s == Work)
      && (s == Work ==> (r.data.PomodoroData?
            && r.data.pomodoro.number == StartedPomodoroNumber(count) - 1
            && r.data.pomodoro.duration == d && r.data.pomodoro.actualTime == actual
            && r.data.pomodoro.startTime == Some(start) && r.data.pomodoro.endTime == Some(end)))
      && (s != Work ==> (r.data.BreakData?
            && r.data.brk.duration == d && r.data.brk.actualTime == actual
            && r.data.brk.startTime == Some(start) && r.data.brk.endTime == Some(end)
            && (r.data.brk.isLongBreak <==> r.data.brk.kind == Stats.LongBreakLabel)
            && (r.data.brk.isLongBreak <==> s == LongBreak)))
  {
  }


  /** The statistics entry an ended interval is recorded as. */
  function RecordFor(s: SessionType, d: Duration, start: Time, end: Time, completed: bool): Stats.CompletedSession {
    Stats.CompletedSession(SessionLabel(s), d, end - start, start, end, completed)
  }

  function Kinds(es: seq<Events.Event>): (ks: seq<Events.EventType>)
    ensures |ks| == |es|
    ensures forall i :: 0 <= i < |es| ==> ks[i] == es[i].kind
  {
    if es == [] then [] else Kinds(es[..|es| - 1]) + [es[|es| - 1].kind]
  }

  class Engine {
    const config: Config
    var state: EngineState
    var currentSession: SessionType
    var pomodoroCount: int
    var isRunning: bool
    var currentTimer: Countdown.Timer?
    const stats: Stats.SessionStats
    var sessionStartTime: Option<Time>

    ghost predicate Valid()
      reads this, stats, currentTimer
    {
      PomodoroConfig.IsValid(config)
      && stats.Valid()
      && pomodoroCount >= 0
      && (currentTimer != null ==> currentTimer.Valid() && sessionStartTime.Some?)
      && (currentTimer == null ==> currentSession == Work)
      && (!isRunning ==> state in {Idle, Stopped})
      && (!isRunning && currentTimer != null ==> currentTimer.state == Countdown.Idle)
    }

    /** `NewEngine`: the default configuration when none is given; an
        invalid one is refused (the source panics); idle, on work, no
        interval ended, not running, no timer, empty statistics. */
    constructor (cfg: Option<Config>, now: Time)
      requires PomodoroConfig.Validate(if cfg.None? then PomodoroConfig.DefaultConfig() else cfg.value).None?
      ensures Valid()
      ensures config == if cfg.None? then PomodoroConfig.DefaultConfig() else cfg.value
      ensures state == Idle && currentSession == Work && pomodoroCount == 0 && !isRunning
      ensures currentTimer == null && fresh(stats) && stats.completedSessions == []
    {
      var c := if cfg.None? then PomodoroConfig.DefaultConfig() else cfg.value;
      config := PomodoroConfig.Clone(c);
      state := Idle;
      currentSession := Work;
      pomodoroCount := 0;
      isRunning := false;
      currentTimer := null;
      stats := new Stats.SessionStats(now);
      sessionStartTime := None;
    }

    /** `Start`: nothing when already running; otherwise running, idle, on
        work, with the count back at zero, and the timer left as it is. */
    method Start(now: Time) returns (emitted: seq<Events.Event>)
      requires Valid()
      modifies this
      ensures Valid()
      ensures old(isRunning) ==>
        emitted == [] && state == old(state) && currentSession == old(currentSession)
        && pomodoroCount == old(pomodoroCount) && isRunning
      ensures !old(isRunning) ==>
        isRunning && state == Idle && pomodoroCount == 0 && currentSession == Work
        && emitted == [Events.Event(Events.EngineStarted, now, Events.SessionData(
             Events.SessionEventData("session_" + IntToString(now / Second), Some(now), None, 0, Some(config))))]
      ensures currentTimer == old(currentTimer) && sessionStartTime == old(sessionStartTime)
    {
      if isRunning {
        return [];
      }
      isRunning := true;
      state := Idle;
      pomodoroCount := 0;
      currentSession := Work;
      emitted := [Events.Event(Events.EngineStarted, now, Events.SessionData(
        Events.SessionEventData("session_" + IntToString(now / Second), Some(now), None, 0, Some(config))))];
    }

    /** `StartFirstSession`: an error when not running, nothing when a timer
        exists already, otherwise the first interval starts. */
    method StartFirstSession(now: Time) returns (err: Error, emitted: seq<Events.Event>)
      requires Valid()
      modifies this
      ensures Valid()
      ensures !old(isRunning) ==> err == Some("engine not running")
      ensures old(isRunning) ==> err == None
      ensures !old(isRunning) || old(currentTimer) != null ==>
        emitted == [] && currentTimer == old(currentTimer) && state == old(state)
        && currentSession == old(currentSession) && pomodoroCount == old(pomodoroCount)
      ensures old(isRunning) && old(currentTimer) == null ==>
        currentSession == Work && pomodoroCount == old(pomodoroCount) && state == Running
        && currentTimer != null && fresh(currentTimer) && currentTimer.state == Countdown.Running
        && currentTimer.duration == config.workDuration && currentTimer.remaining == config.workDuration
        && Kinds(emitted) == [Events.PomodoroStarted, Events.TimerStarted]
      ensures isRunning == old(isRunning)
    {
      emitted := [];
      if !isRunning {
        return Some("engine not running"), [];
      }
      if currentTimer != null {
        return None, [];
      }
      emitted := StartNextSession(now);
      err := None;
    }

    /** `startNextSession`: nothing when not running; otherwise the interval
        `NextSession` chooses starts on a fresh running timer of its
        duration, and its start is announced. */
    method StartNextSession(now: Time) returns (emitted: seq<Events.Event>)
      requires Valid()
      modifies this
      ensures Valid()
      ensures !old(isRunning) ==>
        emitted == [] && currentTimer == old(currentTimer) && state == old(state)
        && currentSession == old(currentSession) && pomodoroCount == old(pomodoroCount)
        && sessionStartTime == old(sessionStartTime)
      ensures old(isRunning) ==>
        currentTimer != null && fresh(currentTimer)
        && (currentSession, pomodoroCount, currentTimer.duration)
          == NextSession(config, old(currentTimer) != null, old(currentSession), old(pomodoroCount))
        && currentTimer.state == Countdown.Running
        && currentTimer.remaining == currentTimer.duration
        && state == Running && sessionStartTime == Some(now)
        && emitted == [SessionStartedEvent(currentSession, pomodoroCount, currentTimer.duration, now),
             Events.Event(Events.TimerStarted, now, Events.TimerData(
               CreateTimerEventData(currentSession, pomodoroCount, currentTimer.TakeSnapshot(now))))]
      ensures isRunning == old(isRunning)
    {
      if !isRunning {
        return [];
      }
      var (next, count, duration) := NextSession(config, currentTimer != null, currentSession, pomodoroCount);
      pomodoroCount := count;
      currentSession := next;
      state := Running;
      sessionStartTime := Some(now);
      var t := new Countdown.Timer(duration);
      t.Start(now);
      currentTimer := t;
      emitted := [SessionStartedEvent(next, count, duration, now),
        Events.Event(Events.TimerStarted, now, Events.TimerData(
          CreateTimerEventData(next, count, t.TakeSnapshot(now))))];
    }

    /** `Stop`: nothing when not running; otherwise no longer running,
        stopped, and the timer reset to idle. */
    method Stop(now: Time) returns (emitted: seq<Events.Event>)
      requires Valid()
      modifies this, currentTimer
      ensures Valid()
      ensures currentTimer == old(currentTimer)
      ensures !old(isRunning) ==>
        emitted == [] && state == old(state)
        && (currentTimer != null ==>
              currentTimer.state == old(currentTimer.state) && currentTimer.remaining == old(currentTimer.remaining))
      ensures old(isRunning) ==>
        !isRunning && state == Stopped
        && (currentTimer != null ==>
              currentTimer.state == Countdown.Idle && currentTimer.remaining == currentTimer.duration)
        && emitted == [Events.Event(Events.EngineStopped, now, Events.SessionData(
             Events.SessionEventData("", None, Some(now), now - stats.sessionStartTime, None)))]
      ensures !old(isRunning) ==> isRunning == old(isRunning)
      ensures currentSession == old(currentSession) && pomodoroCount == old(pomodoroCount)
    {
      if !isRunning {
        return [];
      }
      isRunning := false;
      state := Stopped;
      if currentTimer != null {
        currentTimer.Stop();
      }
      emitted := [Events.Event(Events.EngineStopped, now, Events.SessionData(
        Events.SessionEventData("", None, Some(now), now - stats.sessionStartTime, None)))];
    }

    /** `pauseCurrentTimer`: only a running timer pauses, and the engine
        with it. */
    method PauseCurrentTimer(now: Time) returns (emitted: seq<Events.Event>)
      requires Valid()
      modifies this, currentTimer
      ensures Valid()
      ensures currentTimer == old(currentTimer) && currentSession == old(currentSession)
      ensures pomodoroCount == old(pomodoroCount) && isRunning == old(isRunning)
      ensures currentTimer != null ==>
        currentTimer.remaining == old(currentTimer.remaining) && currentTimer.startedAt == old(currentTimer.startedAt)
        && currentTimer.totalPaused == old(currentTimer.totalPaused)
      ensures old(currentTimer) != null && old(currentTimer.state) == Countdown.Running ==>
        currentTimer.state == Countdown.Paused && state == Paused && currentTimer.pausedAt == Some(now)
        && emitted == [Events.Event(Events.TimerPaused, now, Events.TimerData(
             CreateTimerEventData(currentSession, pomodoroCount, currentTimer.TakeSnapshot(now))))]
      ensures !(old(currentTimer) != null && old(currentTimer.state) == Countdown.Running) ==>
        emitted == [] && state == old(state)
        && (currentTimer != null ==> currentTimer.state == old(currentTimer.state)
                                     && currentTimer.pausedAt == old(currentTimer.pausedAt))
    {
      emitted := [];
      if currentTimer != null && currentTimer.IsRunning() && !currentTimer.IsPaused() {
        currentTimer.Pause(now);
        state := Paused;
        emitted := [Events.Event(Events.TimerPaused, now, Events.TimerData(
          CreateTimerEventData(currentSession, pomodoroCount, currentTimer.TakeSnapshot(now))))];
      }
    }

    /** `resumeCurrentTimer`: only a paused timer resumes, and the engine
        runs again. */
    method ResumeCurrentTimer(now: Time) returns (emitted: seq<Events.Event>)
      requires Valid()
      modifies this, currentTimer
      ensures Valid()
      ensures currentTimer == old(currentTimer) && currentSession == old(currentSession)
      ensures pomodoroCount == old(pomodoroCount) && isRunning == old(isRunning)
      ensures currentTimer != null ==>
        currentTimer.remaining == old(currentTimer.remaining) && currentTimer.startedAt == old(currentTimer.startedAt)
        && currentTimer.pausedAt == old(currentTimer.pausedAt)
      ensures old(currentTimer) != null && old(currentTimer.state) == Countdown.Paused ==>
        currentTimer.state == Countdown.Running && state == Running
        && currentTimer.totalPaused == old(currentTimer.totalPaused) + (now - old(currentTimer.pausedAt).value)
        && emitted == [Events.Event(Events.TimerResumed, now, Events.TimerData(
             CreateTimerEventData(currentSession, pomodoroCount, currentTimer.TakeSnapshot(now))))]
      ensures !(old(currentTimer) != null && old(currentTimer.state) == Countdown.Paused) ==>
        emitted == [] && state == old(state)
        && (currentTimer != null ==> currentTimer.state == old(currentTimer.state)
                                     && currentTimer.totalPaused == old(currentTimer.totalPaused))
    {
      emitted := [];
      if currentTimer != null && currentTimer.IsPaused() {
        currentTimer.Resume(now);
        state := Running;
        emitted := [Events.Event(Events.TimerResumed, now, Events.TimerData(
          CreateTimerEventData(currentSession, pomodoroCount, currentTimer.TakeSnapshot(now))))];
      }
    }

    /** `skipCurrentTimer`: a running or paused timer is marked skipped; the
        interval ends at the next tick. */
    method SkipCurrentTimer()
      requires Valid()
      modifies currentTimer
      ensures Valid()
      ensures old(currentTimer) != null && old(currentTimer.state) in {Countdown.Running, Countdown.Paused} ==>
        currentTimer.state == Countdown.Skipped
      ensures !(old(currentTimer) != null && old(currentTimer.state) in {Countdown.Running, Countdown.Paused}) ==>
        (currentTimer != null ==> currentTimer.state == old(currentTimer.state))
      ensures currentTimer != null ==> currentTimer.remaining == old(currentTimer.remaining)
    {
      if currentTimer != null && (currentTimer.IsRunning() || currentTimer.IsPaused()) {
        currentTimer.Skip();
      }
    }

    /** `handleCommand`: pause, resume or skip; any other action is an
        error that changes nothing. */
    method HandleCommand(action: string, now: Time) returns (err: Error, emitted: seq<Events.Event>)
      requires Valid()
      modifies this, currentTimer
      ensures Valid()
      ensures currentTimer == old(currentTimer) && currentSession == old(currentSession)
      ensures pomodoroCount == old(pomodoroCount) && isRunning == old(isRunning)
      ensures err == (if action in {"pause", "resume", "skip"} then None else Some("unknown command: " + action))
      ensures err.Some? ==>
        emitted == [] && state == old(state)
        && (currentTimer != null ==> currentTimer.state == old(currentTimer.state))
    {
      emitted := [];
      if action == "pause" {
        emitted := PauseCurrentTimer(now);
        err := None;
      } else if action == "resume" {
        emitted := ResumeCurrentTimer(now);
        err := None;
      } else if action == "skip" {
        SkipCurrentTimer();
        err := None;
      } else {
        err := Some("unknown command: " + action);
      }
    }

    /** `sendCommand` (behind `Pause`, `Resume` and `Skip`): refused when the
        engine is not running, otherwise handled at once. */
    method SendCommand(action: string, now: Time) returns (err: Error, emitted: seq<Events.Event>)
      requires Valid()
      modifies this, currentTimer
      ensures Valid()
      ensures !old(isRunning) ==> err == Some("engine is not running") && emitted == [] && state == old(state)
      ensures old(isRunning) ==>
        err == (if action in {"pause", "resume", "skip"} then None else Some("unknown command: " + action))
      ensures currentTimer == old(currentTimer) && currentSession == old(currentSession)
      ensures pomodoroCount == old(pomodoroCount) && isRunning == old(isRunning)
    {
      if !isRunning {
        return Some("engine is not running"), [];
      }
      err, emitted := HandleCommand(action, now);
    }

    /** The statistics update of `handleTimerCompleted` and
        `handleTimerSkipped`: a work interval is recorded as a pomodoro, a
        break as a break under its label. */
    method RecordSession(session: SessionType, duration: Duration, start: Time, end: Time, completed: bool)
      requires stats.Valid()
      modifies stats
      ensures stats.Valid()
      ensures stats.completedSessions == old(stats.completedSessions) + [RecordFor(session, duration, start, end, completed)]
      ensures session == Work && completed ==>
        stats.pomodorosCompleted == old(stats.pomodorosCompleted) + 1
        && stats.currentStreak == old(stats.currentStreak) + 1
      ensures session == Work && !completed ==>
        stats.pomodorosSkipped == old(stats.pomodorosSkipped) + 1 && stats.currentStreak == 0
      ensures session != Work && completed ==>
        stats.breaksCompleted == old(stats.breaksCompleted) + 1
        && stats.longBreaksCompleted == old(stats.longBreaksCompleted) + (if session == LongBreak then 1 else 0)
      ensures session != Work && !completed ==>
        stats.breaksSkipped == old(stats.breaksSkipped) + 1
    {
      var actual := end - start;
      if session == Work {
        if completed {
          stats.AddCompletedPomodoro(duration, actual, start, end);
        } else {
          stats.AddSkippedPomodoro(duration, actual, start, end);
        }
      } else {
        if completed {
          stats.AddCompletedBreak(BreakTypeString(session), duration, actual, start, end);
        } else {
          stats.AddSkippedBreak(BreakTypeString(session), duration, actual, start, end);
        }
      }
    }

    /** `handleTimerCompleted` (`completed`) and `handleTimerSkipped`
        (`!completed`): the interval is recorded once in the statistics (the
        counters move as `RecordSession` states), its end is announced, and
        the next interval starts. */
    method FinishSession(now: Time, completed: bool) returns (emitted: seq<Events.Event>)
      requires Valid() && currentTimer != null
      modifies this, stats
      ensures Valid()
      ensures stats.completedSessions == old(stats.completedSessions)
        + [RecordFor(old(currentSession), old(currentTimer).duration, old(sessionStartTime).value, now, completed)]
      ensures |emitted| >= 3
      ensures emitted[0] == Events.Event(if completed then Events.TimerCompleted else Events.TimerSkipped, now,
        Events.TimerData(CreateTimerEventData(old(currentSession), old(pomodoroCount), old(currentTimer.TakeSnapshot(now)))))
      ensures emitted[1] == Events.Event(Events.StatsUpdated, now, Events.StatsData(CreateStatsEventData(stats.GetSnapshot(now))))
      ensures emitted[2] == SessionFinishedEvent(old(currentSession), old(pomodoroCount), old(currentTimer).duration,
        now - old(sessionStartTime).value, old(sessionStartTime).value, now, completed)
      ensures old(isRunning) ==>
        currentTimer != null && fresh(currentTimer)
        && (currentSession, pomodoroCount, currentTimer.duration)
          == NextSession(config, true, old(currentSession), old(pomodoroCount))
        && currentTimer.state == Countdown.Running
        && |emitted| == 5
      ensures !old(isRunning) ==>
        currentTimer == old(currentTimer) && currentSession == old(currentSession)
        && pomodoroCount == old(pomodoroCount) && |emitted| == 3
      ensures isRunning == old(isRunning)
    {
      emitted := CloseSession(now, completed);
      var next := StartNextSession(now);
      emitted := emitted + next;
    }

    /** The first half of `finishSession`: the interval is recorded and its
        three closing events are built, the timer and the statistics as they
        stand at `now`. */
    method CloseSession(now: Time, completed: bool) returns (es: seq<Events.Event>)
      requires Valid() && currentTimer != null
      modifies stats
      ensures Valid()
      ensures stats.completedSessions == old(stats.completedSessions)
        + [RecordFor(currentSession, currentTimer.duration, sessionStartTime.value, now, completed)]
      ensures |es| == 3
      ensures es[0] == Events.Event(if completed then Events.TimerCompleted else Events.TimerSkipped, now,
        Events.TimerData(CreateTimerEventData(currentSession, pomodoroCount, old(currentTimer.TakeSnapshot(now)))))
      ensures es[1] == Events.Event(Events.StatsUpdated, now, Events.StatsData(CreateStatsEventData(stats.GetSnapshot(now))))
      ensures es[2] == SessionFinishedEvent(currentSession, pomodoroCount, currentTimer.duration,
        now - sessionStartTime.value, sessionStartTime.value, now, completed)
    {
      var start := sessionStartTime.value;
      var timerData := CreateTimerEventData(currentSession, pomodoroCount, currentTimer.TakeSnapshot(now));
      var finished := SessionFinishedEvent(currentSession, pomodoroCount, currentTimer.duration, now - start, start, now, completed);
      RecordSession(currentSession, currentTimer.duration, start, now, completed);
      var statsData := CreateStatsEventData(stats.GetSnapshot(now));
      es := [
        Events.Event(if completed then Events.TimerCompleted else Events.TimerSkipped, now, Events.TimerData(timerData)),
        Events.Event(Events.StatsUpdated, now, Events.StatsData(statsData)),
        finished];
    }

    /** `handleTick`: without a timer nothing happens; otherwise the timer
        ticks, the tick is announced, and an interval that is now done or
        was skipped is finished. */
    method HandleTick(now: Time) returns (emitted: seq<Events.Event>)
      requires Valid()
      modifies this, stats, currentTimer
      ensures Valid()
      ensures old(currentTimer) == null ==>
        emitted == [] && currentTimer == null && stats.completedSessions == old(stats.completedSessions)
      ensures old(currentTimer) != null ==>
        var (st, rem) := Countdown.Step(old(currentTimer.state), old(currentTimer.remaining));
        |emitted| >= 1 && old(currentTimer).Valid()
        && old(currentTimer).state == st && old(currentTimer).remaining == rem
        && emitted[0] == Events.Event(Events.TimerTick, now, Events.TimerData(
             CreateTimerEventData(old(currentSession), old(pomodoroCount), old(currentTimer).TakeSnapshot(now))))
        && (st !in {Countdown.Done, Countdown.Skipped} ==>
              |emitted| == 1 && currentTimer == old(currentTimer)
              && currentTimer.state == st && currentTimer.remaining == rem
              && stats.completedSessions == old(stats.completedSessions)
              && currentSession == old(currentSession) && pomodoroCount == old(pomodoroCount))
        && (st in {Countdown.Done, Countdown.Skipped} ==>
              stats.completedSessions == old(stats.completedSessions)
                + [RecordFor(old(currentSession), old(currentTimer.duration), old(sessionStartTime).value,
                     now, st == Countdown.Done)]
              && (old(isRunning) ==>
                    currentTimer != null && fresh(currentTimer)
                    && (currentSession, pomodoroCount, currentTimer.duration)
                      == NextSession(config, true, old(currentSession), old(pomodoroCount))
                    && currentTimer.state == Countdown.Running))
      ensures isRunning == old(isRunning)
    {
      if currentTimer == null {
        return [];
      }
      var snap := currentTimer.Tick(now);
      emitted := [Events.Event(Events.TimerTick, now, Events.TimerData(
        CreateTimerEventData(currentSession, pomodoroCount, snap)))];
      if currentTimer.IsFinished() {
        var more := FinishSession(now, true);
        emitted := emitted + more;
      } else if currentTimer.IsSkipped() {
        var more := FinishSession(now, false);
        emitted := emitted + more;
      }
    }
  }

  /** A stopped engine that is started again keeps its old, idle timer:
      `StartFirstSession` then does nothing and ticks leave the timer idle
      and record nothing, so the restarted engine never moves on. */
  method RestartedEngineStaysIdle(e: Engine, now: Time) returns (emitted: seq<Events.Event>)
    requires e.Valid() && !e.isRunning && e.currentTimer != null
    modifies e, e.stats, e.currentTimer
    ensures e.isRunning && e.currentTimer == old(e.currentTimer)
    ensures e.currentTimer.state == Countdown.Idle
    ensures e.stats.completedSessions == old(e.stats.completedSessions)
  {
    var started := e.Start(now);
    var err, first := e.StartFirstSession(now);
    var ticked := e.HandleTick(now + Second);
    emitted := started + first + ticked;
  }
}
