/** The older, lock-free statistics record of internal/stats: the same
    counters, streaks and log as stats/stats.go, without reset or queries. */
module LegacyStats {
  import opened Common
  import Stats

  type CompletedSession = Stats.CompletedSession

  class SessionStats {
    var pomodorosCompleted: int
    var pomodorosSkipped: int
    var breaksCompleted: int
    var breaksSkipped: int
    var longBreaksCompleted: int
    var totalWorkTime: Duration
    var totalBreakTime: Duration
    var sessionStartTime: Time
    var currentStreak: int
    var bestStreak: int
    var completedSessions: seq<CompletedSession>

    /** One log entry per recorded interval, and the best streak never
        behind the current one. */
    ghost predicate Valid()
      reads this
    {
      pomodorosCompleted >= 0 && pomodorosSkipped >= 0
      && breaksCompleted >= 0 && breaksSkipped >= 0
      && 0 <= longBreaksCompleted <= breaksCompleted
      && 0 <= currentStreak <= bestStreak <= pomodorosCompleted
      && |completedSessions| == GetTotalSessions()
      && Stats.CountCompleted(completedSessions) == pomodorosCompleted + breaksCompleted
      && Stats.CountLongBreaks(completedSessions) == longBreaksCompleted
    }

    /** `NewSessionStats`. */
    constructor (now: Time)
      ensures Valid()
      ensures pomodorosCompleted == 0 && pomodorosSkipped == 0
      ensures breaksCompleted == 0 && breaksSkipped == 0 && longBreaksCompleted == 0
      ensures totalWorkTime == 0 && totalBreakTime == 0
      ensures currentStreak == 0 && bestStreak == 0
      ensures completedSessions == [] && sessionStartTime == now
    {
      pomodorosCompleted, pomodorosSkipped := 0, 0;
      breaksCompleted, breaksSkipped, longBreaksCompleted := 0, 0, 0;
      totalWorkTime, totalBreakTime := 0, 0;
      currentStreak, bestStreak := 0, 0;
      completedSessions := [];
      sessionStartTime := now;
    }

    /** `GetTotalSessions`: the four counters added up. */
    function GetTotalSessions(): int
      reads this
    {
      pomodorosCompleted + pomodorosSkipped + breaksCompleted + breaksSkipped
    }

    /** `GetWorkEfficiency`: the same percentage as stats/stats.go. */
    function GetWorkEfficiency(): (e: real)
      requires Valid()
      reads this
      ensures 0.0 <= e <= 100.0
      ensures pomodorosCompleted + pomodorosSkipped == 0 ==> e == 0.0
      ensures pomodorosCompleted + pomodorosSkipped > 0 ==>
        e * (pomodorosCompleted + pomodorosSkipped) as real == pomodorosCompleted as real * 100.0
    {
      Stats.Efficiency(pomodorosCompleted, pomodorosSkipped)
    }

    method AddCompletedPomodoro(duration: Duration, actualTime: Duration, startTime: Time, endTime: Time)
      requires Valid()
      modifies this
      ensures Valid()
      ensures pomodorosCompleted == old(pomodorosCompleted) + 1
      ensures totalWorkTime == old(totalWorkTime) + actualTime
      ensures currentStreak == old(currentStreak) + 1
      ensures bestStreak == if old(currentStreak) + 1 > old(bestStreak) then old(currentStreak) + 1 else old(bestStreak)
      ensures completedSessions ==
        old(completedSessions) + [Stats.CompletedSession(Stats.WorkLabel, duration, actualTime, startTime, endTime, true)]
      ensures pomodorosSkipped == old(pomodorosSkipped) && breaksCompleted == old(breaksCompleted)
      ensures breaksSkipped == old(breaksSkipped) && longBreaksCompleted == old(longBreaksCompleted)
      ensures totalBreakTime == old(totalBreakTime) && sessionStartTime == old(sessionStartTime)
    {
      var e := Stats.CompletedSession(Stats.WorkLabel, duration, actualTime, startTime, endTime, true);
      Stats.CountsAppend(completedSessions, e);
      pomodorosCompleted := pomodorosCompleted + 1;
      totalWorkTime := totalWorkTime + actualTime;
      currentStreak := currentStreak + 1;
      if currentStreak > bestStreak {
        bestStreak := currentStreak;
      }
      completedSessions := completedSessions + [e];
    }

    method AddSkippedPomodoro(duration: Duration, actualTime: Duration, startTime: Time, endTime: Time)
      requires Valid()
      modifies this
      ensures Valid()
      ensures pomodorosSkipped == old(pomodorosSkipped) + 1
      ensures totalWorkTime == old(totalWorkTime) + actualTime
      ensures currentStreak == 0 && bestStreak == old(bestStreak)
      ensures completedSessions ==
        old(completedSessions) + [Stats.CompletedSession(Stats.WorkLabel, duration, actualTime, startTime, endTime, false)]
      ensures pomodorosCompleted == old(pomodorosCompleted) && breaksCompleted == old(breaksCompleted)
      ensures breaksSkipped == old(breaksSkipped) && longBreaksCompleted == old(longBreaksCompleted)
      ensures totalBreakTime == old(totalBreakTime) && sessionStartTime == old(sessionStartTime)
    {
      var e := Stats.CompletedSession(Stats.WorkLabel, duration, actualTime, startTime, endTime, false);
      Stats.CountsAppend(completedSessions, e);
      pomodorosSkipped := pomodorosSkipped + 1;
      totalWorkTime := totalWorkTime + actualTime;
      currentStreak := 0;
      completedSessions := completedSessions + [e];
    }

    method AddCompletedBreak(breakType: string, duration: Duration, actualTime: Duration, startTime: Time, endTime: Time)
      requires Valid()
      modifies this
      ensures Valid()
      ensures breaksCompleted == old(breaksCompleted) + 1
      ensures longBreaksCompleted == old(longBreaksCompleted) + (if breakType == Stats.LongBreakLabel then 1 else 0)
      ensures totalBreakTime == old(totalBreakTime) + actualTime
      ensures currentStreak == old(currentStreak) && bestStreak == old(bestStreak)
      ensures completedSessions ==
        old(completedSessions) + [Stats.CompletedSession(breakType, duration, actualTime, startTime, endTime, true)]
      ensures pomodorosCompleted == old(pomodorosCompleted) && pomodorosSkipped == old(pomodorosSkipped)
      ensures breaksSkipped == old(breaksSkipped)
      ensures totalWorkTime == old(totalWorkTime) && sessionStartTime == old(sessionStartTime)
    {
      var e := Stats.CompletedSession(breakType, duration, actualTime, startTime, endTime, true);
      Stats.CountsAppend(completedSessions, e);
      breaksCompleted := breaksCompleted + 1;
      totalBreakTime := totalBreakTime + actualTime;
      if breakType == Stats.LongBreakLabel {
        longBreaksCompleted := longBreaksCompleted + 1;
      }
      completedSessions := completedSessions + [e];
    }

    method AddSkippedBreak(breakType: string, duration: Duration, actualTime: Duration, startTime: Time, endTime: Time)
      requires Valid()
      modifies this
      ensures Valid()
      ensures breaksSkipped == old(breaksSkipped) + 1
      ensures totalBreakTime == old(totalBreakTime) + actualTime
      ensures currentStreak == old(currentStreak) && bestStreak == old(bestStreak)
      ensures completedSessions ==
        old(completedSessions) + [Stats.CompletedSession(breakType, duration, actualTime, startTime, endTime, false)]
      ensures pomodorosCompleted == old(pomodorosCompleted) && pomodorosSkipped == old(pomodorosSkipped)
      ensures breaksCompleted == old(breaksCompleted) && longBreaksCompleted == old(longBreaksCompleted)
      ensures totalWorkTime == old(totalWorkTime) && sessionStartTime == old(sessionStartTime)
    {
      var e := Stats.CompletedSession(breakType, duration, actualTime, startTime, endTime, false);
      Stats.CountsAppend(completedSessions, e);
      breaksSkipped := breaksSkipped + 1;
      totalBreakTime := totalBreakTime + actualTime;
      completedSessions := completedSessions + [e];
    }
  }
}
