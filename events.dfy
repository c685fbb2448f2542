/** The event bus of events/events.go: handlers registered per event type
    and globally, and the payloads the engine publishes. */
module Events {
  import opened Common
  import PomodoroConfig

  type EventType = string

  const EngineStarted: EventType := "engine_started"
  const EngineStopped: EventType := "engine_stopped"
  const TimerStarted: EventType := "timer_started"
  const TimerTick: EventType := "timer_tick"
  const TimerPaused: EventType := "timer_paused"
  const TimerResumed: EventType := "timer_resumed"
  const TimerCompleted: EventType := "timer_completed"
  const TimerSkipped: EventType := "timer_skipped"
  const SessionStarted: EventType := "session_started"
  const SessionEnded: EventType := "session_ended"
  const PomodoroStarted: EventType := "pomodoro_started"
  const PomodoroCompleted: EventType := "pomodoro_completed"
  const PomodoroSkipped: EventType := "pomodoro_skipped"
  const BreakStarted: EventType := "break_started"
  const BreakCompleted: EventType := "break_completed"
  const BreakSkipped: EventType := "break_skipped"
  const StatsUpdated: EventType := "stats_updated"
  const ErrorOccurred: EventType := "error_occurred"

  /** A subscribed handler, known by its identity. */
  type Handler = nat

  datatype TimerEventData = TimerEventData(
    remaining: Duration,
    total: Duration,
    state: string,
    status: string,
    progress: real,
    sessionCount: int)

  datatype PomodoroEventData = PomodoroEventData(
    number: int,
    duration: Duration,
    actualTime: Duration,
    startTime: Option<Time>,
    endTime: Option<Time>,
    nextBreak: string,
    nextDuration: Duration)

  datatype BreakEventData = BreakEventData(
    kind: string,
    duration: Duration,
    actualTime: Duration,
    startTime: Option<Time>,
    endTime: Option<Time>,
    isLongBreak: bool)

  datatype StatsEventData = StatsEventData(
    pomodorosCompleted: int,
    pomodorosSkipped: int,
    breaksCompleted: int,
    breaksSkipped: int,
    currentStreak: int,
    bestStreak: int,
    totalWorkTime: Duration,
    totalBreakTime: Duration,
    sessionDuration: Duration,
    workEfficiency: real)

  datatype SessionEventData = SessionEventData(
    sessionID: string,
    startTime: Option<Time>,
    endTime: Option<Time>,
    totalTime: Duration,
    configUsed: Option<PomodoroConfig.Config>)

  /** The payload of an event: one of the typed records above. */
  datatype EventData =
    | TimerData(timer: TimerEventData)
    | PomodoroData(pomodoro: PomodoroEventData)
    | BreakData(brk: BreakEventData)
    | StatsData(stats: StatsEventData)
    | SessionData(session: SessionEventData)

  datatype Event = Event(kind: EventType, timestamp: Time, data: EventData)

  /** One handler invocation a `Publish` starts. */
  datatype Delivery = Delivery(handler: Handler, event: Event)

  /** `handlers` with the first occurrence of `h` taken out. */
  function RemoveFirst(hs: seq<Handler>, h: Handler): (r: seq<Handler>)
    ensures h !in hs ==> r == hs
    ensures h in hs ==> |r| == |hs| - 1
  {
    if hs == [] then []
    else if hs[0] == h then hs[1..]
    else [hs[0]] + RemoveFirst(hs[1..], h)
  }

  /** Exactly one copy of `h` goes, and nothing else. */
  lemma {:induction false} RemoveFirstMultiset(hs: seq<Handler>, h: Handler)
    ensures multiset(RemoveFirst(hs, h)) == multiset(hs) - multiset{h}
  {
    if hs != [] {
      assert hs == [hs[0]] + hs[1..];
      if hs[0] != h {
        RemoveFirstMultiset(hs[1..], h);
      }
    }
  }

  /** `hs` without the element at `i`, or `hs` itself when there is none. */
  function DropAt(hs: seq<Handler>, i: int): seq<Handler> {
    if 0 <= i < |hs| then hs[..i] + hs[i + 1..] else hs
  }

  /** Which of two distinct variables a Go address-of expression names. */
  datatype Variable = LoopVariable | TargetParameter

  class EventBus {
    var handlers: map<EventType, seq<Handler>>
    var global: seq<Handler>

    /** `NewEventBus`: no handlers at all. */
    constructor ()
      ensures handlers == map[] && global == []
      ensures forall t :: GetSubscriberCount(t) == 0
      ensures GetGlobalSubscriberCount() == 0
    {
      handlers := map[];
      global := [];
    }

    /** The handlers registered for `t`; none when `t` has no entry. */
    function HandlersFor(t: EventType): seq<Handler>
      reads this
    {
      if t in handlers then handlers[t] else []
    }

    /** `GetSubscriberCount`. */
    function GetSubscriberCount(t: EventType): (n: nat)
      reads this
      ensures t !in handlers ==> n == 0
    {
      |HandlersFor(t)|
    }

    /** `GetGlobalSubscriberCount`. */
    function GetGlobalSubscriberCount(): (n: nat)
      reads this
      ensures n == 0 <==> global == []
      ensures forall h :: h in global ==> n > 0
    {
      |global|
    }

    /** `Subscribe`: `h` goes last in the list for `t`; no other list moves. */
    method Subscribe(t: EventType, h: Handler)
      modifies this
      ensures handlers == old(handlers)[t := old(HandlersFor(t)) + [h]]
      ensures global == old(global)
      ensures GetSubscriberCount(t) == old(GetSubscriberCount(t)) + 1
      ensures forall u :: u != t ==> HandlersFor(u) == old(HandlersFor(u))
    {
      handlers := handlers[t := HandlersFor(t) + [h]];
    }

    /** `SubscribeGlobal`: `h` goes last in the global list. */
    method SubscribeGlobal(h: Handler)
      modifies this
      ensures global == old(global) + [h]
      ensures handlers == old(handlers)
      ensures GetGlobalSubscriberCount() == old(GetGlobalSubscriberCount()) + 1
    {
      global := global + [h];
    }

    /** `Publish`: the event, stamped `now`, goes to every global handler and
        then to every handler of its type, and to no one else; the registry
        is left as it was. */
    method Publish(t: EventType, data: EventData, now: Time) returns (ds: seq<Delivery>)
      ensures |ds| == |global| + |HandlersFor(t)|
      ensures |ds| == GetGlobalSubscriberCount() + GetSubscriberCount(t)
      ensures forall k :: 0 <= k < |ds| ==>
        ds[k] == Delivery((global + HandlersFor(t))[k], Event(t, now, data))
    {
      var event := Event(t, now, data);
      ds := [];
      var i := 0;
      while i < |global|
        invariant 0 <= i <= |global| && |ds| == i
        invariant forall k :: 0 <= k < i ==> ds[k] == Delivery(global[k], event)
      {
        ds := ds + [Delivery(global[i], event)];
        i := i + 1;
      }
      if t in handlers {
        var hs := handlers[t];
        var j := 0;
        while j < |hs|
          invariant 0 <= j <= |hs| && |ds| == |global| + j
          invariant forall k :: 0 <= k < |global| ==> ds[k] == Delivery(global[k], event)
          invariant forall k :: 0 <= k < j ==> ds[|global| + k] == Delivery(hs[k], event)
        {
          ds := ds + [Delivery(hs[j], event)];
          j := j + 1;
        }
      }
    }

    /** `Unsubscribe` as written: each loop step compares the address of the
        loop variable with the address of the parameter, two different
        variables, so nothing is ever removed. */
    method UnsubscribeAsWritten(t: EventType, target: Handler)
      modifies this
      ensures handlers == old(handlers) && global == old(global)
    {
      if t in handlers {
        var hs := handlers[t];
        var kept := hs;
        var i := 0;
        while i < |hs|
          invariant 0 <= i <= |hs|
          invariant kept == hs
        {
          var addressOfHandler, addressOfTarget := LoopVariable, TargetParameter;
          if addressOfHandler == addressOfTarget {
            kept := DropAt(hs, i);
            break;
          }
          i := i + 1;
        }
        handlers := handlers[t := kept];
      }
    }

    /** `Unsubscribe` as intended: the first registration of `target` for
        `t` is removed and every other registration stays, in order. */
    method Unsubscribe(t: EventType, target: Handler)
      modifies this
      ensures handlers == if t in old(handlers) && target in old(handlers)[t]
        then old(handlers)[t := RemoveFirst(old(handlers)[t], target)] else old(handlers)
      ensures global == old(global)
      ensures target in old(HandlersFor(t)) ==> GetSubscriberCount(t) == old(GetSubscriberCount(t)) - 1
    {
      if t in handlers {
        var hs := handlers[t];
        var i := 0;
        while i < |hs|
          invariant 0 <= i <= |hs|
          invariant target !in hs[..i]
          invariant handlers == old(handlers)
        {
          if hs[i] == target {
            assert hs[..i] + hs[i + 1..] == RemoveFirst(hs, target) by {
              RemoveFirstAt(hs, target, i);
            }
            handlers := handlers[t := hs[..i] + hs[i + 1..]];
            return;
          }
          assert hs[..i + 1] == hs[..i] + [hs[i]];
          i := i + 1;
        }
        assert hs[..i] == hs;
      }
    }

    /** `Clear`: no handler of any kind remains. */
    method Clear()
      modifies this
      ensures handlers == map[] && global == []
      ensures forall t :: GetSubscriberCount(t) == 0
    {
      handlers := map[];
      global := [];
    }
  }

  /** Removing the first occurrence found at index `i`. */
  lemma {:induction false} RemoveFirstAt(hs: seq<Handler>, h: Handler, i: nat)
    requires i < |hs| && hs[i] == h && h !in hs[..i]
    ensures RemoveFirst(hs, h) == hs[..i] + hs[i + 1..]
  {
    if i > 0 {
      var tail := hs[1..];
      assert hs[0] == hs[..i][0];
      assert tail[..i - 1] == hs[..i][1..];
      RemoveFirstAt(tail, h, i - 1);
      calc {
        RemoveFirst(hs, h);
        [hs[0]] + RemoveFirst(tail, h);
        [hs[0]] + (tail[..i - 1] + tail[i..]);
        { assert hs[..i] == [hs[0]] + tail[..i - 1]; assert hs[i + 1..] == tail[i..]; }
        hs[..i] + hs[i + 1..];
      }
    }
  }

  /** Subscribing and then unsubscribing as written leaves the handler in
      place: the bus still counts it. */
  method UnsubscribeKeepsHandler() returns (count: nat)
    ensures count == 1
  {
    var bus := new EventBus();
    bus.Subscribe(TimerTick, 7);
    bus.UnsubscribeAsWritten(TimerTick, 7);
    count := bus.GetSubscriberCount(TimerTick);
  }

  /** With the intended `Unsubscribe` the handler is gone again. */
  method UnsubscribeRemovesHandler() returns (count: nat)
    ensures count == 0
  {
    var bus := new EventBus();
    bus.Subscribe(TimerTick, 7);
    bus.Unsubscribe(TimerTick, 7);
    count := bus.GetSubscriberCount(TimerTick);
  }
}
