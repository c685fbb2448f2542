/** The CLI's first timer, internal/timer: a duration, a remaining time and
    two flags that the four commands set. None of them touches the remaining
    time; the caller counts it down through the exported field. */
module LegacyTimer {
  import opened Common

  class Timer {
    const duration: Duration
    var remaining: Duration
    var isRunning: bool
    var isPaused: bool

    /** `NewTimer`: the whole duration left, neither running nor paused. */
    constructor (d: Duration)
      ensures duration == d && remaining == d
      ensures !isRunning && !isPaused
    {
      duration := d;
      remaining := d;
      isRunning := false;
      isPaused := false;
    }

    method Start()
      modifies this
      ensures isRunning && !isPaused
      ensures remaining == old(remaining)
    {
      isRunning := true;
      isPaused := false;
    }

    /** `Pause` sets only the pause flag, even on a stopped timer. */
    method Pause()
      modifies this
      ensures isPaused && isRunning == old(isRunning)
      ensures remaining == old(remaining)
    {
      isPaused := true;
    }

    /** `Resume` clears only the pause flag. */
    method Resume()
      modifies this
      ensures !isPaused && isRunning == old(isRunning)
      ensures remaining == old(remaining)
    {
      isPaused := false;
    }

    /** `Stop` clears both flags; the remaining time is kept. */
    method Stop()
      modifies this
      ensures !isRunning && !isPaused
      ensures remaining == old(remaining)
    {
      isRunning := false;
      isPaused := false;
    }

    /** `IsFinished`: no time is left. */
    predicate IsFinished()
      reads this
    {
      remaining <= 0
    }
  }
}
