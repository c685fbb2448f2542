/** The countdown timer of core/timer: a five-state machine whose `Tick`
    takes one second off the remaining time while it runs. */
module Countdown {
  import opened Common

  datatype State = Idle | Running | Paused | Skipped | Done

  /** An immutable copy of the timer's state, as `createSnapshot` builds it. */
  datatype Snapshot = Snapshot(
    duration: Duration,
    remaining: Duration,
    state: State,
    progress: real,
    startedAt: Option<Time>,
    elapsedActive: Duration,
    totalPaused: Duration)

  /** One tick of the countdown, on the phase and the remaining time: only a
      running timer with time left loses a second, and it is done once
      nothing is left. */
  function Step(s: State, remaining: Duration): (r: (State, Duration))
    ensures !(s == Running && remaining > 0) ==> r == (s, remaining)
    ensures s == Running && remaining > 0 ==> r.1 == remaining - Second
    ensures s == Running && remaining > 0 ==> (r.0 == Done <==> r.1 <= 0) && (r.0 != Done ==> r.0 == Running)
  {
    if s == Running && remaining > 0 then
      (if remaining - Second <= 0 then Done else Running, remaining - Second)
    else (s, remaining)
  }

  /** `n` ticks in a row. */
  function StepN(n: nat, s: State, remaining: Duration): (State, Duration)
  {
    if n == 0 then (s, remaining)
    else var (s1, r1) := Step(s, remaining); StepN(n - 1, s1, r1)
  }

  /** The remaining times a timer of `duration` can reach: whole seconds
      below the duration, never a full second below zero, and a timer that
      started at or below zero never moves. */
  predicate Reachable(duration: Duration, remaining: Duration) {
    remaining <= duration
    && (duration - remaining) % Second == 0
    && (remaining == duration || remaining > -Second)
  }

  lemma StepKeepsReachable(duration: Duration, s: State, remaining: Duration)
    requires Reachable(duration, remaining)
    ensures Reachable(duration, Step(s, remaining).1)
  {
  }

  /** With a whole-second, non-negative duration the remaining time stays in
      `[0, duration]`. */
  lemma WholeSecondsStayInRange(duration: Duration, remaining: Duration)
    requires Reachable(duration, remaining)
    requires duration >= 0 && duration % Second == 0
    ensures 0 <= remaining <= duration
    ensures remaining % Second == 0
  {
  }

  /** A reachable remaining time of a positive whole-second duration lies
      in `[0, duration]`. */
  lemma ProgressInRange(duration: Duration, remaining: Duration)
    requires Reachable(duration, remaining)
    ensures duration > 0 && duration % Second == 0 ==> 0 <= remaining <= duration
  {
    if duration > 0 && duration % Second == 0 {
      WholeSecondsStayInRange(duration, remaining);
    }
  }

  /** The fraction `part / whole` of a positive whole. */
  function Fraction(part: int, whole: int): (f: real)
    requires whole > 0
    ensures f * (whole as real) == part as real
    ensures part >= 0 ==> f >= 0.0
    ensures part <= whole ==> f <= 1.0
    ensures part == whole ==> f == 1.0
  {
    part as real / whole as real
  }

  /** Running from the full duration `n` seconds, `k < n` ticks leave the
      timer running with `k` seconds gone. */
  lemma {:induction false} TicksWhileRunning(n: nat, k: nat, remaining: Duration)
    requires k < n && remaining == (n - k) * Second
    ensures StepN(k, Running, n * Second) == (Running, remaining)
    decreases k
  {
    if k > 0 {
      TicksWhileRunning(n, k - 1, remaining + Second);
      StepNLast(k - 1, Running, n * Second);
    }
  }

  /** Unfolding `StepN` from its last step. */
  lemma {:induction false} StepNLast(n: nat, s: State, remaining: Duration)
    ensures StepN(n + 1, s, remaining) ==
      var (s1, r1) := StepN(n, s, remaining); Step(s1, r1)
  {
    if n > 0 {
      var (s1, r1) := Step(s, remaining);
      StepNLast(n - 1, s1, r1);
    }
  }

  /** A running timer of `n` whole seconds is done, at zero, after exactly
      `n` ticks. */
  lemma TicksReachDone(n: nat)
    requires n >= 1
    ensures StepN(n, Running, n * Second) == (Done, 0)
  {
    TicksWhileRunning(n, n - 1, Second);
    StepNLast(n - 1, Running, n * Second);
  }

  /** Ticks change nothing unless the timer runs with time left: a paused,
      idle, skipped or finished timer, or one started at zero, stays put. */
  lemma {:induction false} TicksOnStoppedTimer(n: nat, s: State, remaining: Duration)
    requires s != Running || remaining <= 0
    ensures StepN(n, s, remaining) == (s, remaining)
  {
    if n > 0 {
      TicksOnStoppedTimer(n - 1, s, remaining);
    }
  }

  class Timer {
    const duration: Duration
    var remaining: Duration
    var state: State
    var startedAt: Option<Time>
    var pausedAt: Option<Time>
    var totalPaused: Duration

    ghost predicate Valid()
      reads this
    {
      Reachable(duration, remaining)
      && (state == Done ==> remaining <= 0)
      && (state == Paused ==> pausedAt.Some?)
      && (state != Idle ==> startedAt.Some?)
    }

    /** `NewTimer`: an idle timer with the whole duration left. */
    constructor (d: Duration)
      ensures Valid()
      ensures duration == d && remaining == d && state == Idle
      ensures startedAt == None && pausedAt == None && totalPaused == 0
    {
      duration := d;
      remaining := d;
      state := Idle;
      startedAt := None;
      pausedAt := None;
      totalPaused := 0;
    }

    /** `Start` (and `Resume`): an idle timer starts afresh, a paused one adds
        the pause to `totalPaused`; a running, skipped or finished one is left
        alone. */
    method Start(now: Time)
      requires Valid()
      modifies this
      ensures Valid()
      ensures old(state) in {Idle, Paused} ==> state == Running
      ensures old(state) == Idle ==> startedAt == Some(now) && totalPaused == 0
      ensures old(state) == Paused ==>
        startedAt == old(startedAt) && totalPaused == old(totalPaused) + (now - old(pausedAt).value)
      ensures old(state) !in {Idle, Paused} ==>
        state == old(state) && startedAt == old(startedAt) && totalPaused == old(totalPaused)
      ensures remaining == old(remaining) && pausedAt == old(pausedAt)
    {
      if state != Idle && state != Paused {
        return;
      }
      if state == Idle {
        startedAt := Some(now);
        totalPaused := 0;
      } else {
        totalPaused := totalPaused + (now - pausedAt.value);
      }
      state := Running;
    }

    /** `Pause`: only a running timer pauses, remembering when. */
    method Pause(now: Time)
      requires Valid()
      modifies this
      ensures Valid()
      ensures old(state) == Running ==> state == Paused && pausedAt == Some(now)
      ensures old(state) != Running ==> state == old(state) && pausedAt == old(pausedAt)
      ensures remaining == old(remaining) && startedAt == old(startedAt)
      ensures totalPaused == old(totalPaused)
    {
      if state != Running {
        return;
      }
      state := Paused;
      pausedAt := Some(now);
    }

    /** `Resume` is `Start`. */
    method Resume(now: Time)
      requires Valid()
      modifies this
      ensures Valid()
      ensures old(state) in {Idle, Paused} ==> state == Running
      ensures old(state) == Idle ==> startedAt == Some(now) && totalPaused == 0
      ensures old(state) == Paused ==>
        startedAt == old(startedAt) && totalPaused == old(totalPaused) + (now - old(pausedAt).value)
      ensures old(state) !in {Idle, Paused} ==>
        state == old(state) && startedAt == old(startedAt) && totalPaused == old(totalPaused)
      ensures remaining == old(remaining) && pausedAt == old(pausedAt)
    {
      Start(now);
    }

    /** `Skip`: a running or paused timer becomes skipped; otherwise nothing
        changes, so skipping twice is skipping once. */
    method Skip()
      requires Valid()
      modifies this
      ensures Valid()
      ensures old(state) in {Running, Paused} ==> state == Skipped
      ensures old(state) !in {Running, Paused} ==> state == old(state)
      ensures remaining == old(remaining) && startedAt == old(startedAt)
      ensures pausedAt == old(pausedAt) && totalPaused == old(totalPaused)
    {
      if state == Running || state == Paused {
        state := Skipped;
      }
    }

    /** `Stop`: back to idle with the whole duration left; the start and
        pause records are kept. */
    method Stop()
      requires Valid()
      modifies this
      ensures Valid()
      ensures state == Idle && remaining == duration
      ensures startedAt == old(startedAt) && pausedAt == old(pausedAt)
      ensures totalPaused == old(totalPaused)
    {
      state := Idle;
      remaining := duration;
    }

    /** `Reset`: exactly the state of a new timer of the same duration. */
    method Reset()
      modifies this
      ensures Valid()
      ensures state == Idle && remaining == duration
      ensures startedAt == None && pausedAt == None && totalPaused == 0
    {
      remaining := duration;
      state := Idle;
      startedAt := None;
      pausedAt := None;
      totalPaused := 0;
    }

    /** `Tick`: one `Step` of the countdown, then a snapshot at `now`. */
    method Tick(now: Time) returns (snap: Snapshot)
      requires Valid()
      modifies this
      ensures Valid()
      ensures (state, remaining) == Step(old(state), old(remaining))
      ensures startedAt == old(startedAt) && pausedAt == old(pausedAt)
      ensures totalPaused == old(totalPaused)
      ensures snap == TakeSnapshot(now)
    {
      if state == Running && remaining > 0 {
        remaining := remaining - Second;
        if remaining <= 0 {
          state := Done;
        }
      }
      snap := TakeSnapshot(now);
    }

    /** `createSnapshot` (and `GetSnapshot`) at instant `now`: progress is the fraction of the
        duration used up, 0 for a non-positive duration; active time is the
        time since the start minus the pauses, including the current one. */
    function TakeSnapshot(now: Time): (s: Snapshot)
      requires Valid()
      reads this
      ensures s.duration == duration && s.remaining == remaining && s.state == state
      ensures s.startedAt == startedAt && s.totalPaused == totalPaused
      ensures duration > 0 ==> s.progress * (duration as real) == (duration - remaining) as real
      ensures duration <= 0 ==> s.progress == 0.0
      ensures s.progress >= 0.0
      ensures duration > 0 && duration % Second == 0 ==> s.progress <= 1.0
      ensures duration > 0 && duration % Second == 0 && state == Done ==> s.progress == 1.0
      ensures startedAt.None? ==> s.elapsedActive == 0
      ensures startedAt.Some? && state != Paused ==>
        s.elapsedActive + totalPaused == now - startedAt.value
      ensures startedAt.Some? && state == Paused ==>
        s.elapsedActive + totalPaused + (now - pausedAt.value) == now - startedAt.value
    {
      var progress: real := if duration > 0 then Fraction(duration - remaining, duration) else 0.0;
      var elapsedActive :=
        match startedAt
        case None => 0
        case Some(t) =>
          (now - t) - totalPaused - (if state == Paused then now - pausedAt.value else 0);
      ProgressInRange(duration, remaining);
      Snapshot(duration, remaining, state, progress, startedAt, elapsedActive, totalPaused)
    }

    predicate IsRunning() reads this { state == Running }
    predicate IsPaused() reads this { state == Paused }
    predicate IsFinished() reads this { state == Done }
    predicate IsSkipped() reads this { state == Skipped }
  }
}
