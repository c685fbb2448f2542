/** The statistics accumulator of stats/stats.go: counters, streaks and a
    chronological log of every interval recorded. */
module Stats {
  import opened Common
  import opened Text

  /** Labels the engine records intervals under. */
  const WorkLabel: string := "TRABAJO"
  const ShortBreakLabel: string := "DESCANSO"
  const LongBreakLabel: string := "DESCANSO LARGO"

  /** One recorded interval; `completed` is false when it was skipped. */
  datatype CompletedSession = CompletedSession(
    kind: string,
    duration: Duration,
    actualTime: Duration,
    startTime: Time,
    endTime: Time,
    completed: bool)

  datatype StatsSnapshot = StatsSnapshot(
    pomodorosCompleted: int,
    pomodorosSkipped: int,
    breaksCompleted: int,
    breaksSkipped: int,
    longBreaksCompleted: int,
    currentStreak: int,
    bestStreak: int,
    totalWorkTime: Duration,
    totalBreakTime: Duration,
    sessionDuration: Duration,
    workEfficiency: real,
    totalSessions: int)

  /** Completed work intervals as a percentage of all work intervals, 0 when
      there were none. */
  function Efficiency(completed: int, skipped: int): (e: real)
    requires completed >= 0 && skipped >= 0
    ensures completed + skipped == 0 ==> e == 0.0
    ensures completed + skipped > 0 ==> e * (completed + skipped) as real == completed as real * 100.0
    ensures 0.0 <= e <= 100.0
    ensures e == 100.0 <==> completed > 0 && skipped == 0
  {
    var total := completed + skipped;
    if total == 0 then 0.0 else completed as real / total as real * 100.0
  }

  /** Number of log entries recorded as completed. */
  function CountCompleted(log: seq<CompletedSession>): nat {
    if log == [] then 0 else
    CountCompleted(log[..|log| - 1]) + (if log[|log| - 1].completed then 1 else 0)
  }

  /** Number of completed long breaks in the log. */
  function CountLongBreaks(log: seq<CompletedSession>): nat {
    if log == [] then 0 else
    CountLongBreaks(log[..|log| - 1])
      + (if log[|log| - 1].completed && log[|log| - 1].kind == LongBreakLabel then 1 else 0)
  }

  /** The entries whose kind is (`work`) or is not (`!work`) the work label,
      in log order. */
  function Select(log: seq<CompletedSession>, work: bool): (r: seq<CompletedSession>)
    ensures |r| <= |log|
    ensures forall i :: 0 <= i < |r| ==> r[i] in log && (r[i].kind == WorkLabel) == work
  {
    if log == [] then [] else
    Select(log[..|log| - 1], work)
      + (if (log[|log| - 1].kind == WorkLabel) == work then [log[|log| - 1]] else [])
  }

  lemma {:induction false} SelectAppend(a: seq<CompletedSession>, b: seq<CompletedSession>, work: bool)
    ensures Select(a + b, work) == Select(a, work) + Select(b, work)
    decreases |b|
  {
    if b == [] {
      assert a + b == a;
    } else {
      assert (a + b)[..|a + b| - 1] == a + b[..|b| - 1];
      SelectAppend(a, b[..|b| - 1], work);
    }
  }

  /** The selected entries are exactly those of the requested kind. */
  lemma {:induction false} SelectMembers(log: seq<CompletedSession>, work: bool)
    ensures forall e :: e in Select(log, work) <==> e in log && (e.kind == WorkLabel) == work
  {
    if log != [] {
      SelectMembers(log[..|log| - 1], work);
      assert log == log[..|log| - 1] + [log[|log| - 1]];
    }
  }

  /** Work and break entries partition the log: together they are the log,
      entry for entry. */
  lemma {:induction false} SelectPartition(log: seq<CompletedSession>)
    ensures |Select(log, true)| + |Select(log, false)| == |log|
    ensures multiset(Select(log, true)) + multiset(Select(log, false)) == multiset(log)
  {
    if log != [] {
      var init, last := log[..|log| - 1], log[|log| - 1];
      SelectPartition(init);
      assert log == init + [last];
      SelectPartitionStep(init, last);
      assert multiset(log) == multiset(init) + multiset{last};
    }
  }

  /** One more entry goes to exactly one of the two selections. */
  lemma SelectPartitionStep(init: seq<CompletedSession>, last: CompletedSession)
    ensures var log := init + [last];
      multiset(Select(log, true)) + multiset(Select(log, false))
      == multiset(Select(init, true)) + multiset(Select(init, false)) + multiset{last}
    ensures var log := init + [last];
      |Select(log, true)| + |Select(log, false)| == |Select(init, true)| + |Select(init, false)| + 1
  {
    var log := init + [last];
    assert log[..|log| - 1] == init && log[|log| - 1] == last;
    var w, b := Select(init, true), Select(init, false);
    if last.kind == WorkLabel {
      assert Select(log, true) == w + [last] && Select(log, false) == b;
      assert multiset(w + [last]) == multiset(w) + multiset{last};
    } else {
      assert Select(log, true) == w && Select(log, false) == b + [last];
      assert multiset(b + [last]) == multiset(b) + multiset{last};
    }
  }

  lemma {:induction false} CountsAppend(log: seq<CompletedSession>, e: CompletedSession)
    ensures CountCompleted(log + [e]) == CountCompleted(log) + (if e.completed then 1 else 0)
    ensures CountLongBreaks(log + [e]) ==
      CountLongBreaks(log) + (if e.completed && e.kind == LongBreakLabel then 1 else 0)
  {
    assert (log + [e])[..|log + [e]| - 1] == log;
  }

  /** The last `min(count, |log|)` entries, in order; none for `count <= 0`. */
  function RecentSessions(log: seq<CompletedSession>, count: int): (r: seq<CompletedSession>)
    ensures count <= 0 ==> r == []
    ensures count > 0 ==> |r| == if count < |log| then count else |log|
    ensures log == log[..|log| - |r|] + r
  {
    if count <= 0 then []
    else
      var n := if count > |log| then |log| else count;
      log[|log| - n..]
  }

  /** `FormatDuration`: `"<h>h <m>m <s>s"`, `"<m>m <s>s"` or `"<s>s"`, the
      minutes and seconds reduced modulo 60. */
  function FormatDuration(d: Duration): (s: string)
    ensures |s| >= 2 && s[|s| - 1] == 's'
  {
    var hours := Quo(d, Hour);
    var minutes := Rem(Quo(d, Minute), 60);
    var seconds := Rem(Quo(d, Second), 60);
    if hours > 0 then
      IntToString(hours) + "h " + IntToString(minutes) + "m " + IntToString(seconds) + "s"
    else if minutes > 0 then IntToString(minutes) + "m " + IntToString(seconds) + "s"
    else IntToString(seconds) + "s"
  }

  /** Reading the text back gives the duration in whole seconds. */
  lemma FormatDurationReadsBack(d: Duration)
    requires d >= 0
    ensures ReadDuration(FormatDuration(d)) == Some(d / Second)
  {
    var hours := Quo(d, Hour);
    var minutes := Rem(Quo(d, Minute), 60);
    var seconds := Rem(Quo(d, Second), 60);
    var text := FormatDuration(d);
    ClockParts(d);
    if hours > 0 {
      ReadHoursMinutesSeconds(hours, minutes, seconds);
    } else if minutes > 0 {
      ReadMinutesSeconds(minutes, seconds);
    } else {
      ReadSeconds(seconds);
    }
    var r := ReadDuration(text);
    assert r.Some? && r.value == d / Second;
  }

  class SessionStats {
    var pomodorosCompleted: int
    var pomodorosSkipped: int
    var breaksCompleted: int
    var breaksSkipped: int
    var longBreaksCompleted: int
    var totalWorkTime: Duration
    var totalBreakTime: Duration
    var sessionStartTime: Time
    var currentStreak: int
    var bestStreak: int
    var completedSessions: seq<CompletedSession>

    /** The counters agree with the log: one entry per recorded interval,
        the completed ones counted by the completed counters, the completed
        long breaks by their own counter; the best streak is never behind
        the current one. */
    ghost predicate Valid()
      reads this
    {
      pomodorosCompleted >= 0 && pomodorosSkipped >= 0
      && breaksCompleted >= 0 && breaksSkipped >= 0
      && 0 <= longBreaksCompleted <= breaksCompleted
      && 0 <= currentStreak <= bestStreak <= pomodorosCompleted
      && |completedSessions| == TotalSessions()
      && CountCompleted(completedSessions) == pomodorosCompleted + breaksCompleted
      && CountLongBreaks(completedSessions) == longBreaksCompleted
    }

    /** `NewSessionStats`: every counter zero, the log empty, the session
        starting at `now`. */
    constructor (now: Time)
      ensures Valid()
      ensures pomodorosCompleted == 0 && pomodorosSkipped == 0
      ensures breaksCompleted == 0 && breaksSkipped == 0 && longBreaksCompleted == 0
      ensures totalWorkTime == 0 && totalBreakTime == 0
      ensures currentStreak == 0 && bestStreak == 0
      ensures completedSessions == [] && sessionStartTime == now
    {
      pomodorosCompleted, pomodorosSkipped := 0, 0;
      breaksCompleted, breaksSkipped, longBreaksCompleted := 0, 0, 0;
      totalWorkTime, totalBreakTime := 0, 0;
      currentStreak, bestStreak := 0, 0;
      completedSessions := [];
      sessionStartTime := now;
    }

    /** `getTotalSessions`: the four interval counters added up, which is
        the length of the log. */
    function TotalSessions(): (n: int)
      reads this
    {
      pomodorosCompleted + pomodorosSkipped + breaksCompleted + breaksSkipped
    }

    /** `calculateWorkEfficiency`. */
    function WorkEfficiency(): (e: real)
      requires Valid()
      reads this
      ensures 0.0 <= e <= 100.0
      ensures pomodorosCompleted + pomodorosSkipped == 0 ==> e == 0.0
      ensures e == 100.0 <==> pomodorosCompleted > 0 && pomodorosSkipped == 0
    {
      Efficiency(pomodorosCompleted, pomodorosSkipped)
    }

    /** `GetSnapshot` at instant `now`. */
    function GetSnapshot(now: Time): (s: StatsSnapshot)
      requires Valid()
      reads this
      ensures s.totalSessions == |completedSessions|
      ensures 0 <= s.currentStreak <= s.bestStreak
      ensures 0 <= s.longBreaksCompleted <= s.breaksCompleted
      ensures 0.0 <= s.workEfficiency <= 100.0
      ensures s.sessionDuration == now - sessionStartTime
    {
      StatsSnapshot(pomodorosCompleted, pomodorosSkipped, breaksCompleted, breaksSkipped,
        longBreaksCompleted, currentStreak, bestStreak, totalWorkTime, totalBreakTime,
        now - sessionStartTime, WorkEfficiency(), TotalSessions())
    }

    /** `AddCompletedPomodoro`: one more completed pomodoro, its time added
        to the work time, the streak extended and the best streak raised to
        it when exceeded; one completed work entry appended. */
    method AddCompletedPomodoro(duration: Duration, actualTime: Duration, startTime: Time, endTime: Time)
      requires Valid()
      modifies this
      ensures Valid()
      ensures pomodorosCompleted == old(pomodorosCompleted) + 1
      ensures totalWorkTime == old(totalWorkTime) + actualTime
      ensures currentStreak == old(currentStreak) + 1
      ensures bestStreak == if old(currentStreak) + 1 > old(bestStreak) then old(currentStreak) + 1 else old(bestStreak)
      ensures completedSessions ==
        old(completedSessions) + [CompletedSession(WorkLabel, duration, actualTime, startTime, endTime, true)]
      ensures pomodorosSkipped == old(pomodorosSkipped) && breaksCompleted == old(breaksCompleted)
      ensures breaksSkipped == old(breaksSkipped) && longBreaksCompleted == old(longBreaksCompleted)
      ensures totalBreakTime == old(totalBreakTime) && sessionStartTime == old(sessionStartTime)
    {
      var e := CompletedSession(WorkLabel, duration, actualTime, startTime, endTime, true);
      CountsAppend(completedSessions, e);
      pomodorosCompleted := pomodorosCompleted + 1;
      totalWorkTime := totalWorkTime + actualTime;
      currentStreak := currentStreak + 1;
      if currentStreak > bestStreak {
        bestStreak := currentStreak;
      }
      completedSessions := completedSessions + [e];
    }

    /** `AddSkippedPomodoro`: one more skipped pomodoro, its time still added
        to the work time, the streak broken; one skipped work entry appended. */
    method AddSkippedPomodoro(duration: Duration, actualTime: Duration, startTime: Time, endTime: Time)
      requires Valid()
      modifies this
      ensures Valid()
      ensures pomodorosSkipped == old(pomodorosSkipped) + 1
      ensures totalWorkTime == old(totalWorkTime) + actualTime
      ensures currentStreak == 0 && bestStreak == old(bestStreak)
      ensures completedSessions ==
        old(completedSessions) + [CompletedSession(WorkLabel, duration, actualTime, startTime, endTime, false)]
      ensures pomodorosCompleted == old(pomodorosCompleted) && breaksCompleted == old(breaksCompleted)
      ensures breaksSkipped == old(breaksSkipped) && longBreaksCompleted == old(longBreaksCompleted)
      ensures totalBreakTime == old(totalBreakTime) && sessionStartTime == old(sessionStartTime)
    {
      var e := CompletedSession(WorkLabel, duration, actualTime, startTime, endTime, false);
      CountsAppend(completedSessions, e);
      pomodorosSkipped := pomodorosSkipped + 1;
      totalWorkTime := totalWorkTime + actualTime;
      currentStreak := 0;
      completedSessions := completedSessions + [e];
    }

    /** `AddCompletedBreak`: one more completed break, a long one too when
        labelled as such; the streaks are untouched. */
    method AddCompletedBreak(breakType: string, duration: Duration, actualTime: Duration, startTime: Time, endTime: Time)
      requires Valid()
      modifies this
      ensures Valid()
      ensures breaksCompleted == old(breaksCompleted) + 1
      ensures longBreaksCompleted == old(longBreaksCompleted) + (if breakType == LongBreakLabel then 1 else 0)
      ensures totalBreakTime == old(totalBreakTime) + actualTime
      ensures currentStreak == old(currentStreak) && bestStreak == old(bestStreak)
      ensures completedSessions ==
        old(completedSessions) + [CompletedSession(breakType, duration, actualTime, startTime, endTime, true)]
      ensures pomodorosCompleted == old(pomodorosCompleted) && pomodorosSkipped == old(pomodorosSkipped)
      ensures breaksSkipped == old(breaksSkipped)
      ensures totalWorkTime == old(totalWorkTime) && sessionStartTime == old(sessionStartTime)
    {
      var e := CompletedSession(breakType, duration, actualTime, startTime, endTime, true);
      CountsAppend(completedSessions, e);
      breaksCompleted := breaksCompleted + 1;
      totalBreakTime := totalBreakTime + actualTime;
      if breakType == LongBreakLabel {
        longBreaksCompleted := longBreaksCompleted + 1;
      }
      completedSessions := completedSessions + [e];
    }

    /** `AddSkippedBreak`: one more skipped break; the long-break counter and
        the streaks are untouched. */
    method AddSkippedBreak(breakType: string, duration: Duration, actualTime: Duration, startTime: Time, endTime: Time)
      requires Valid()
      modifies this
      ensures Valid()
      ensures breaksSkipped == old(breaksSkipped) + 1
      ensures totalBreakTime == old(totalBreakTime) + actualTime
      ensures currentStreak == old(currentStreak) && bestStreak == old(bestStreak)
      ensures completedSessions ==
        old(completedSessions) + [CompletedSession(breakType, duration, actualTime, startTime, endTime, false)]
      ensures pomodorosCompleted == old(pomodorosCompleted) && pomodorosSkipped == old(pomodorosSkipped)
      ensures breaksCompleted == old(breaksCompleted) && longBreaksCompleted == old(longBreaksCompleted)
      ensures totalWorkTime == old(totalWorkTime) && sessionStartTime == old(sessionStartTime)
    {
      var e := CompletedSession(breakType, duration, actualTime, startTime, endTime, false);
      CountsAppend(completedSessions, e);
      breaksSkipped := breaksSkipped + 1;
      totalBreakTime := totalBreakTime + actualTime;
      completedSessions := completedSessions + [e];
    }

    /** `Reset`: the state of new statistics started at `now`. */
    method Reset(now: Time)
      modifies this
      ensures Valid()
      ensures pomodorosCompleted == 0 && pomodorosSkipped == 0
      ensures breaksCompleted == 0 && breaksSkipped == 0 && longBreaksCompleted == 0
      ensures totalWorkTime == 0 && totalBreakTime == 0
      ensures currentStreak == 0 && bestStreak == 0
      ensures completedSessions == [] && sessionStartTime == now
    {
      pomodorosCompleted, pomodorosSkipped := 0, 0;
      breaksCompleted, breaksSkipped, longBreaksCompleted := 0, 0, 0;
      totalWorkTime, totalBreakTime := 0, 0;
      sessionStartTime := now;
      currentStreak, bestStreak := 0, 0;
      completedSessions := [];
    }

    /** `GetRecentSessions`. */
    function GetRecentSessions(count: int): seq<CompletedSession>
      reads this
    {
      RecentSessions(completedSessions, count)
    }

    /** `GetWorkSessions`: the work entries of the log, in order. */
    method GetWorkSessions() returns (r: seq<CompletedSession>)
      ensures r == Select(completedSessions, true)
    {
      r := [];
      var i := 0;
      while i < |completedSessions|
        invariant 0 <= i <= |completedSessions|
        invariant r == Select(completedSessions[..i], true)
      {
        var e := completedSessions[i];
        assert completedSessions[..i + 1][..i] == completedSessions[..i];
        if e.kind == WorkLabel {
          r := r + [e];
        }
        i := i + 1;
      }
      assert completedSessions[..i] == completedSessions;
    }

    /** `GetBreakSessions`: every other entry of the log, in order. */
    method GetBreakSessions() returns (r: seq<CompletedSession>)
      ensures r == Select(completedSessions, false)
    {
      r := [];
      var i := 0;
      while i < |completedSessions|
        invariant 0 <= i <= |completedSessions|
        invariant r == Select(completedSessions[..i], false)
      {
        var e := completedSessions[i];
        assert completedSessions[..i + 1][..i] == completedSessions[..i];
        if e.kind != WorkLabel {
          r := r + [e];
        }
        i := i + 1;
      }
      assert completedSessions[..i] == completedSessions;
    }
  }
}
