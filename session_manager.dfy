/** The per-user session table of the Discord front end
    (apps/discord/internal/manager/session_manager.go): one pomodoro engine
    per user, with the rules for starting, stopping, finding and cleaning
    up sessions, and the per-session reminder that fires when 10, 5 or 1
    whole minutes are left. */
module Sessions {
  import opened Common
  import PomodoroConfig
  import Engine
  import Countdown

  /** A registered Discord event handler; its code is outside this model. */
  datatype Handler = Handler(id: nat)

  /** A `UserSession`, held by value in the table; its engine is shared. */
  datatype UserSession = UserSession(
    userID: string,
    channelID: string,
    dmChannelID: string,
    engine: Engine.Engine,
    config: PomodoroConfig.Config,
    startTime: Time,
    active: bool)

  /** The engine and the objects its state lives in all belong to `user`. */
  ghost predicate OwnedBy(e: Engine.Engine, user: string, owner: map<object, string>)
    reads e
  {
    e in owner && owner[e] == user
    && e.stats in owner && owner[e.stats] == user
    && (e.currentTimer != null ==> e.currentTimer in owner && owner[e.currentTimer] == user)
  }

  /** A new engine on `cfg`, started, with its first work interval running. */
  method NewRunningEngine(cfg: PomodoroConfig.Config, now: Time) returns (e: Engine.Engine)
    requires PomodoroConfig.IsValid(cfg)
    ensures fresh(e) && fresh(e.stats) && e.currentTimer != null && fresh(e.currentTimer)
    ensures e.Valid() && e.config == cfg
    ensures e.isRunning && e.state == Engine.Running && e.currentSession == Engine.Work
    ensures e.currentTimer.state == Countdown.Running
  {
    e := new Engine.Engine(Some(PomodoroConfig.Clone(cfg)), now);
    var started := e.Start(now);
    var failure, first := e.StartFirstSession(now);
  }

  /** The users of `sessions` whose entry is marked active. */
  function ActiveUsers(sessions: map<string, UserSession>): (users: set<string>)
    ensures users <= sessions.Keys
    ensures forall u :: u in users <==> u in sessions && sessions[u].active
  {
    set u | u in sessions && sessions[u].active
  }

  /** The table after cleaning up the users outside `pending`: an entry
      stays while it is pending, or when it is active with its engine
      running (`running` holds each engine's flag). */
  function Cleaned(sessions: map<string, UserSession>, running: map<string, bool>, pending: set<string>)
    : (r: map<string, UserSession>)
    requires sessions.Keys <= running.Keys
    ensures r.Keys <= sessions.Keys
    ensures forall u :: u in r ==> r[u] == sessions[u]
  {
    map u | u in sessions && (u in pending || (sessions[u].active && running[u])) :: sessions[u]
  }

  /** One user looked at: the entry goes unless it is active and running. */
  lemma CleanedStep(sessions: map<string, UserSession>, running: map<string, bool>, pending: set<string>, u: string)
    requires sessions.Keys <= running.Keys && u in pending && pending <= sessions.Keys
    ensures sessions[u].active && running[u] ==>
      Cleaned(sessions, running, pending - {u}) == Cleaned(sessions, running, pending)
    ensures !(sessions[u].active && running[u]) ==>
      Cleaned(sessions, running, pending - {u}) == Cleaned(sessions, running, pending) - {u}
  {
  }

  /** Before any user is looked at the table is as it was. */
  lemma CleanedNothing(sessions: map<string, UserSession>, running: map<string, bool>)
    requires sessions.Keys <= running.Keys
    ensures Cleaned(sessions, running, sessions.Keys) == sessions
  {
  }

  /** Once every user is looked at, exactly the active, running entries stay. */
  lemma CleanedAll(sessions: map<string, UserSession>, running: map<string, bool>)
    requires sessions.Keys <= running.Keys
    ensures forall u :: u in Cleaned(sessions, running, {}) <==> u in sessions && sessions[u].active && running[u]
  {
  }

  /** The `SessionManager`: sessions by user, the configuration new sessions
      get by default, and the Discord event handlers by name. */
  class SessionManager {
    var sessions: map<string, UserSession>
    const defaultConfig: PomodoroConfig.Config
    var eventHandlers: map<string, Handler>
    ghost var Owner: map<object, string>

    /** Every engine in the table is valid and it, its timer and its
        statistics belong to its user alone, so no two users share any of
        them. */
    ghost predicate Valid()
      reads this, Owner.Keys
    {
      this !in Owner
      && forall u :: u in sessions ==>
        sessions[u].engine in Owner && OwnedBy(sessions[u].engine, u, Owner) && sessions[u].engine.Valid()
    }

    /** `NewSessionManager`: no sessions and no handlers yet. */
    constructor (cfg: PomodoroConfig.Config)
      ensures Valid()
      ensures sessions == map[] && eventHandlers == map[] && defaultConfig == cfg
    {
      sessions := map[];
      defaultConfig := PomodoroConfig.Clone(cfg);
      eventHandlers := map[];
      Owner := map[];
    }

    /** `StartSession`: refused while the user has an active session;
        otherwise a new engine on the custom configuration, or the default
        one, is started together with its first work interval and filed as
        the user's active session. Starting a new engine cannot fail, so the
        source's two failure returns never happen. */
    method StartSession(userID: string, channelID: string, custom: Option<PomodoroConfig.Config>, now: Time)
      returns (session: Option<UserSession>, err: Error)
      requires Valid()
      requires PomodoroConfig.IsValid(if custom.None? then defaultConfig else custom.value)
      modifies this
      ensures Valid()
      ensures eventHandlers == old(eventHandlers)
      ensures userID in old(sessions) && old(sessions)[userID].active ==>
        err == Some("user already has an active pomodoro session") && session.None? && sessions == old(sessions)
      ensures !(userID in old(sessions) && old(sessions)[userID].active) ==>
        err.None? && session.Some?
        && sessions == old(sessions)[userID := session.value]
        && session.value == UserSession(userID, channelID, "", session.value.engine,
             if custom.None? then defaultConfig else custom.value, now, true)
        && fresh(session.value.engine)
        && session.value.engine.config == session.value.config
        && session.value.engine.isRunning && session.value.engine.state == Engine.Running
        && session.value.engine.currentSession == Engine.Work
        && session.value.engine.currentTimer != null
        && session.value.engine.currentTimer.state == Countdown.Running
    {
      if userID in sessions && sessions[userID].active {
        return None, Some("user already has an active pomodoro session");
      }
      var cfg := if custom.None? then defaultConfig else custom.value;
      var e := NewRunningEngine(cfg, now);
      var s := UserSession(userID, channelID, "", e, PomodoroConfig.Clone(cfg), now, true);
      sessions := sessions[userID := s];
      Owner := Owner[e := userID][e.stats := userID][e.currentTimer := userID];
      AddedStaysValid(userID, e);
      return Some(s), None;
    }

    /** Filing a new valid engine, owned by `user` with its timer and
        statistics, under `user` keeps the table valid when nothing owned
        before has changed. */
    twostate lemma AddedStaysValid(user: string, new e: Engine.Engine)
      requires old(Valid()) && e.Valid()
      requires fresh(e) && fresh(e.stats) && e.currentTimer != null && fresh(e.currentTimer)
      requires Owner == old(Owner)[e := user][e.stats := user][e.currentTimer := user]
      requires user in sessions && sessions[user].engine == e
      requires forall u :: u in sessions && u != user ==> u in old(sessions) && sessions[u] == old(sessions)[u]
      requires forall o: object :: o in old(Owner) && o != this ==> unchanged(o)
      ensures Valid()
    {
      forall u | u in sessions && u != user
        ensures OwnedBy(sessions[u].engine, u, Owner) && sessions[u].engine.Valid()
      {
        var f := sessions[u].engine;
        assert old(OwnedBy(f, u, Owner) && f.Valid());
        assert unchanged(f) && unchanged(f.stats);
      }
    }

    /** `StopSession`: refused without an active session; otherwise the
        user's engine is stopped and exactly that user's entry removed. */
    method StopSession(userID: string, now: Time) returns (err: Error)
      requires Valid()
      modifies this, Owner.Keys
      ensures Valid() && Owner == old(Owner)
      ensures eventHandlers == old(eventHandlers)
      ensures !(userID in old(sessions) && old(sessions)[userID].active) ==>
        err == Some("no active session found for user") && sessions == old(sessions) && unchanged(Owner.Keys)
      ensures userID in old(sessions) && old(sessions)[userID].active ==>
        err.None? && sessions == old(sessions) - {userID}
        && !old(sessions)[userID].engine.isRunning
        && forall u :: u in sessions ==> sessions[u].engine.isRunning == old(sessions[u].engine.isRunning)
      ensures forall o: object :: o in old(Owner) && old(Owner)[o] != userID ==> unchanged(o)
    {
      if !(userID in sessions && sessions[userID].active) {
        return Some("no active session found for user");
      }
      Discard(userID, now);
      err := None;
    }

    /** Stops the engine of `userID` and removes the entry; the other
        engines are untouched. */
    method Discard(userID: string, now: Time)
      requires Valid() && userID in sessions
      modifies this, sessions[userID].engine, sessions[userID].engine.currentTimer
      ensures Valid() && Owner == old(Owner)
      ensures eventHandlers == old(eventHandlers)
      ensures sessions == old(sessions) - {userID} && sessions.Keys == old(sessions).Keys - {userID}
      ensures !old(sessions)[userID].engine.isRunning
      ensures forall u :: u in sessions ==> sessions[u].engine.isRunning == old(sessions[u].engine.isRunning)
      ensures forall e: Engine.Engine :: e in old(Owner) && old(Owner)[e] != userID ==> e.isRunning == old(e.isRunning)
      ensures forall o: object :: o in old(Owner) && old(Owner)[o] != userID ==> unchanged(o)
    {
      var e := sessions[userID].engine;
      assert OwnedBy(e, userID, Owner);
      var stopped := e.Stop(now);
      sessions := sessions - {userID};
      OthersStayValid(userID);
    }

    /** The entries left after removing `gone` stay valid when nothing
        owned by another user has changed. */
    twostate lemma OthersStayValid(gone: string)
      requires old(Valid()) && Owner == old(Owner)
      requires sessions == old(sessions) - {gone}
      requires forall o: object :: o in old(Owner) && old(Owner)[o] != gone && o != this ==> unchanged(o)
      ensures Valid()
    {
    }

    /** `GetSession`: the user's entry when it is present and active. */
    function GetSession(userID: string): (r: Result<UserSession>)
      reads this
      ensures r.Ok? <==> userID in ActiveUsers(sessions)
      ensures r.Ok? ==> r.value == sessions[userID]
      ensures r.Err? ==> r.msg == "no active session found for user"
    {
      if userID in sessions && sessions[userID].active then Ok(sessions[userID])
      else Err("no active session found for user")
    }

    /** `UpdateSessionDMChannel`: refused without an active session;
        otherwise only that session's direct-message channel changes. */
    method UpdateSessionDMChannel(userID: string, dmChannelID: string) returns (err: Error)
      requires Valid()
      modifies this
      ensures Valid() && Owner == old(Owner) && eventHandlers == old(eventHandlers)
      ensures !(userID in old(sessions) && old(sessions)[userID].active) ==>
        err == Some("no active session found for user") && sessions == old(sessions)
      ensures userID in old(sessions) && old(sessions)[userID].active ==>
        err.None? && sessions == old(sessions)[userID := old(sessions)[userID].(dmChannelID := dmChannelID)]
    {
      if !(userID in sessions && sessions[userID].active) {
        return Some("no active session found for user");
      }
      sessions := sessions[userID := sessions[userID].(dmChannelID := dmChannelID)];
      err := None;
    }

    /** `GetAllActiveSessions`: exactly the active entries. */
    method GetAllActiveSessions() returns (active: map<string, UserSession>)
      ensures active.Keys == ActiveUsers(sessions)
      ensures forall u :: u in active ==> active[u] == sessions[u]
    {
      active := map[];
      var pending := sessions.Keys;
      while pending != {}
        invariant pending <= sessions.Keys
        invariant active.Keys == ActiveUsers(sessions) - pending
        invariant forall u :: u in active ==> active[u] == sessions[u]
        decreases |pending|
      {
        var u :| u in pending;
        if sessions[u].active {
          active := active[u := sessions[u]];
        }
        pending := pending - {u};
      }
    }

    /** `GetActiveSessionCount`: how many entries are active. */
    method GetActiveSessionCount() returns (count: nat)
      ensures count == |ActiveUsers(sessions)|
    {
      count := 0;
      var pending := sessions.Keys;
      while pending != {}
        invariant pending <= sessions.Keys
        invariant count == |ActiveUsers(sessions) - pending|
        decreases |pending|
      {
        var u :| u in pending;
        var counted := ActiveUsers(sessions) - pending;
        if sessions[u].active {
          assert ActiveUsers(sessions) - (pending - {u}) == counted + {u};
          count := count + 1;
        } else {
          assert ActiveUsers(sessions) - (pending - {u}) == counted;
        }
        pending := pending - {u};
      }
    }

    /** `CleanupInactiveSessions`: every entry that is inactive or whose
        engine is not running has its engine stopped and is removed; the
        others stay, their engines untouched. */
    method CleanupInactiveSessions(now: Time)
      requires Valid()
      modifies this, Owner.Keys
      ensures Valid()
      ensures eventHandlers == old(eventHandlers)
      ensures forall u :: u in sessions <==> u in old(sessions) && old(sessions[u].active && sessions[u].engine.isRunning)
      ensures forall u :: u in sessions ==> sessions[u] == old(sessions)[u]
      ensures forall u :: u in old(sessions) && u !in sessions ==> !old(sessions)[u].engine.isRunning
      ensures forall u :: u in sessions ==> sessions[u].engine.isRunning
      ensures forall o: object :: o in old(Owner) && old(Owner)[o] in sessions ==> unchanged(o)
    {
      ghost var s0 := sessions;
      ghost var running0 := map u | u in s0 :: s0[u].engine.isRunning;
      var pending := sessions.Keys;
      CleanedNothing(s0, running0);
      while pending != {}
        invariant pending <= s0.Keys
        invariant CleanupInvariant(s0, running0, pending) && Owner == old(Owner)
        invariant eventHandlers == old(eventHandlers)
        invariant forall o: object :: o in old(Owner) && old(Owner)[o] in sessions ==> unchanged(o)
        decreases |pending|
      {
        var u :| u in pending;
        ghost var kept := sessions.Keys;
        CleanupOne(u, now, s0, running0, pending);
        assert forall o: object :: o in old(Owner) && old(Owner)[o] in sessions ==> old(Owner)[o] in kept;
        pending := pending - {u};
      }
      CleanedAll(s0, running0);
    }

    /** What holds while `CleanupInactiveSessions` works through `pending`:
        the table is valid and equals the cleaned one, the kept engines
        still run as they did, and every removed engine is stopped. */
    ghost predicate CleanupInvariant(s0: map<string, UserSession>, running0: map<string, bool>, pending: set<string>)
      reads this, Owner.Keys
    {
      s0.Keys <= running0.Keys
      && Valid()
      && sessions == Cleaned(s0, running0, pending)
      && (forall u :: u in s0 ==> s0[u].engine in Owner && Owner[s0[u].engine] == u)
      && (forall u :: u in sessions ==> sessions[u].engine.isRunning == running0[u])
      && (forall u :: u in s0 && u !in pending && !(s0[u].active && running0[u]) ==> !s0[u].engine.isRunning)
    }

    /** One user of the cleanup looked at: its entry is discarded unless it
        is active and its engine running. */
    method CleanupOne(u: string, now: Time, ghost s0: map<string, UserSession>, ghost running0: map<string, bool>,
                      ghost pending: set<string>)
      requires u in pending && pending <= s0.Keys
      requires CleanupInvariant(s0, running0, pending)
      modifies this, Owner.Keys
      ensures CleanupInvariant(s0, running0, pending - {u})
      ensures Owner == old(Owner) && eventHandlers == old(eventHandlers)
      ensures sessions.Keys <= old(sessions).Keys
      ensures forall o: object :: o in old(Owner) && (old(Owner)[o] != u || u in sessions) ==> unchanged(o)
    {
      CleanedStep(s0, running0, pending, u);
      var session := sessions[u];
      if !session.active || !session.engine.isRunning {
        Discard(u, now);
      }
    }

    /** `RegisterEventHandler`: the handler replaces any other of that name. */
    method RegisterEventHandler(name: string, handler: Handler)
      modifies this
      ensures eventHandlers == old(eventHandlers)[name := handler]
      ensures sessions == old(sessions) && Owner == old(Owner)
    {
      eventHandlers := eventHandlers[name := handler];
    }
  }

  // ---------------------------------------------------------------------
  // The reminder of a session's timer ticks

  /** The whole minutes a tick reports, truncated toward zero. */
  function TickMinute(remaining: Duration): int {
    Quo(remaining, Minute)
  }

  predicate IsReminderMinute(m: int) {
    m == 10 || m == 5 || m == 1
  }

  /** The minutes the reminder fires at, for ticks whose whole minutes are
      `ms`, starting from `last` as the minute fired last. */
  function Reminders(last: int, ms: seq<int>): (fired: seq<int>)
    ensures forall i :: 0 <= i < |fired| ==> IsReminderMinute(fired[i]) && fired[i] in ms
    ensures fired != [] ==> fired[0] != last
    ensures forall i :: 0 < i < |fired| ==> fired[i] != fired[i - 1]
    decreases |ms|
  {
    if ms == [] then []
    else if IsReminderMinute(ms[0]) && ms[0] != last then [ms[0]] + Reminders(ms[0], ms[1..])
    else Reminders(last, ms[1..])
  }

  /** The reminder closure a session subscribes to its engine's ticks. */
  class TickReminder {
    var lastNotified: int

    constructor ()
      ensures lastNotified == -1
    {
      lastNotified := -1;
    }

    /** One tick: it fires when the whole minutes left are 10, 5 or 1 and
        differ from the minute fired last, which it then becomes. (Calling
        the "timer_reminder" handler is the caller's business.) */
    method OnTick(remaining: Duration) returns (fire: bool)
      modifies this
      ensures fire == (Reminders(old(lastNotified), [TickMinute(remaining)]) != [])
      ensures fire ==> lastNotified == TickMinute(remaining)
      ensures !fire ==> lastNotified == old(lastNotified)
    {
      var minute := Quo(remaining, Minute);
      fire := (minute == 10 || minute == 5 || minute == 1) && minute != lastNotified;
      if fire {
        lastNotified := minute;
      }
    }
  }

  /** Minutes that never go up, as the ticks of one countdown report them. */
  predicate CountsDown(ms: seq<int>) {
    forall i :: 0 < i < |ms| ==> ms[i] <= ms[i - 1]
  }

  function Occurrences(xs: seq<int>, m: int): nat {
    multiset(xs)[m]
  }

  /** Within one countdown, a reminder minute other than the one fired last
      fires exactly once when the countdown reaches it and never otherwise. */
  lemma {:induction false} CountdownRemindsOnce(last: int, ms: seq<int>, m: int)
    requires CountsDown(ms) && IsReminderMinute(m) && m != last
    ensures Occurrences(Reminders(last, ms), m) == if m in ms then 1 else 0
    decreases |ms|
  {
    if ms != [] {
      var k := ms[0];
      var rest := ms[1..];
      assert CountsDown(rest);
      assert ms == [k] + rest;
      if IsReminderMinute(k) && k != last {
        if m == k {
          forall i | 0 <= i < |rest|
            ensures rest[i] <= k
          {
            Descends(ms, 0, i + 1);
          }
          NeverRepeats(k, rest);
        } else {
          CountdownRemindsOnce(k, rest, m);
        }
      } else {
        CountdownRemindsOnce(last, rest, m);
      }
    }
  }

  /** Once a minute has fired, a countdown that does not go above it never
      fires it again. */
  lemma {:induction false} NeverRepeats(last: int, ms: seq<int>)
    requires CountsDown(ms)
    requires forall i :: 0 <= i < |ms| ==> ms[i] <= last
    ensures Occurrences(Reminders(last, ms), last) == 0
    decreases |ms|
  {
    if ms != [] {
      var k := ms[0];
      var rest := ms[1..];
      assert CountsDown(rest);
      if IsReminderMinute(k) && k != last {
        assert forall i :: 0 <= i < |rest| ==> rest[i] <= k by {
          forall i | 0 <= i < |rest|
            ensures rest[i] <= k
          {
            Descends(ms, 0, i + 1);
          }
        }
        assert forall x :: x in rest ==> x < last;
      } else {
        NeverRepeats(last, rest);
      }
    }
  }

  lemma {:induction false} Descends(ms: seq<int>, i: nat, j: nat)
    requires CountsDown(ms) && i <= j < |ms|
    ensures ms[j] <= ms[i]
    decreases j - i
  {
    if i < j {
      Descends(ms, i, j - 1);
    }
  }

  /** The reminders of a whole session as the source computes them: one
      `lastNotified` carried from each interval's countdown into the next. */
  function SessionReminders(last: int, intervals: seq<seq<int>>): (r: seq<int>)
    ensures forall i :: 0 <= i < |r| ==>
      IsReminderMinute(r[i]) && exists k :: 0 <= k < |intervals| && r[i] in intervals[k]
    ensures r != [] ==> r[0] != last
    ensures forall i :: 0 < i < |r| ==> r[i] != r[i - 1]
    decreases |intervals|
  {
    if intervals == [] then []
    else
      var fired := Reminders(last, intervals[0]);
      fired + SessionReminders(if fired == [] then last else fired[|fired| - 1], intervals[1..])
  }

  /** The reminders of a whole session with `lastNotified` reset at the
      start of each interval. */
  function SessionRemindersPerInterval(intervals: seq<seq<int>>): (r: seq<int>)
    ensures forall i :: 0 <= i < |r| ==>
      IsReminderMinute(r[i]) && exists k :: 0 <= k < |intervals| && r[i] in intervals[k]
    decreases |intervals|
  {
    if intervals == [] then [] else Reminders(-1, intervals[0]) + SessionRemindersPerInterval(intervals[1..])
  }

  /** With the reset, every interval that counts down through a reminder
      minute gets that reminder exactly once. */
  lemma PerIntervalRemindsEveryInterval(intervals: seq<seq<int>>, k: nat, m: int)
    requires k < |intervals| && CountsDown(intervals[k]) && IsReminderMinute(m)
    ensures Occurrences(Reminders(-1, intervals[k]), m) == if m in intervals[k] then 1 else 0
  {
    CountdownRemindsOnce(-1, intervals[k], m);
  }

  /** A 25-minute work interval ending in its last minute, then a 5-minute
      break counting down through its last minute, tick minutes only. */
  const WorkThenShortBreak: seq<seq<int>> := [[10, 5, 1, 0], [4, 3, 2, 1, 0]]

  /** As written, the break's one-minute reminder is swallowed: the minute
      carried over from the work interval is 1 as well. */
  lemma ShortBreakLosesLastMinuteReminder()
    ensures SessionReminders(-1, WorkThenShortBreak) == [10, 5, 1]
  {
    WorkIntervalReminders();
    BreakIntervalReminders();
    assert WorkThenShortBreak[1..][1..] == [];
  }

  /** With the reset, both intervals get the one-minute reminder. */
  lemma ShortBreakKeepsLastMinuteReminder()
    ensures SessionRemindersPerInterval(WorkThenShortBreak) == [10, 5, 1, 1]
  {
    var work, brk := WorkThenShortBreak[0], WorkThenShortBreak[1];
    WorkIntervalReminders();
    BreakIntervalReminders();
    PerIntervalCons(brk, []);
    assert [brk] + [] == [brk];
    PerIntervalCons(work, [brk]);
    assert WorkThenShortBreak == [work] + [brk];
  }

  /** One more interval in front adds its own reminders in front. */
  lemma PerIntervalCons(ms: seq<int>, rest: seq<seq<int>>)
    ensures SessionRemindersPerInterval([ms] + rest) == Reminders(-1, ms) + SessionRemindersPerInterval(rest)
  {
    assert ([ms] + rest)[1..] == rest;
  }

  /** The work interval fires at 10, 5 and 1. */
  lemma WorkIntervalReminders()
    ensures Reminders(-1, WorkThenShortBreak[0]) == [10, 5, 1]
  {
    var work := WorkThenShortBreak[0];
    assert work[1..] == [5, 1, 0] && work[1..][1..] == [1, 0] && work[1..][1..][1..] == [0];
    assert Reminders(1, [0]) == [];
    assert Reminders(5, [1, 0]) == [1];
    assert Reminders(10, [5, 1, 0]) == [5, 1];
  }

  /** The break fires at 1 unless 1 was the minute fired last. */
  lemma BreakIntervalReminders()
    ensures Reminders(-1, WorkThenShortBreak[1]) == [1]
    ensures Reminders(1, WorkThenShortBreak[1]) == []
  {
    var brk := WorkThenShortBreak[1];
    assert brk[1..] == [3, 2, 1, 0] && brk[1..][1..] == [2, 1, 0] && brk[1..][1..][1..] == [1, 0];
    assert [1, 0][1..] == [0];
    assert Reminders(1, [0]) == [];
    assert Reminders(1, [1, 0]) == [] && Reminders(-1, [1, 0]) == [1];
  }
}
