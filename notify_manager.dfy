/** The notification manager of internal/notifications/manager.go: which
    events and which notification types the configuration lets through, the
    requests handed to each notifier, the registry of notifiers and the
    tally of what was sent. The notifiers themselves (sound, desktop,
    terminal) run code outside this model: their `Configure` and `Notify`
    are passed in as functions. */
module NotifyManager {
  import opened Common
  import opened Text
  import opened NotifyConfig

  type NotificationType = string
  type EventType = string

  const TypeSound: NotificationType := "sound"
  const TypeSystem: NotificationType := "system"
  const TypeVisual: NotificationType := "visual"

  /** The types in the order `getEnabledTypesWithConfig` lists them. */
  const AllTypes: seq<NotificationType> := [TypeSound, TypeSystem, TypeVisual]

  const EventPomodoroCompleted: EventType := "pomodoro_completed"
  const EventBreakCompleted: EventType := "break_completed"
  const EventSessionStarted: EventType := "session_started"
  const EventTimerPaused: EventType := "timer_paused"
  const EventTimerResumed: EventType := "timer_resumed"
  const EventEarlyAlert: EventType := "early_alert"
  const EventUrgentAlert: EventType := "urgent_alert"
  const EventCustomAlert: EventType := "custom_alert"

  /** The events some switch of the configuration can turn off. */
  const GatedEvents: set<EventType> := {EventPomodoroCompleted, EventBreakCompleted, EventEarlyAlert,
    EventUrgentAlert, EventSessionStarted, EventTimerPaused, EventTimerResumed}

  const PriorityLow: int := 1
  const PriorityNormal: int := 2
  const PriorityHigh: int := 3
  const PriorityUrgent: int := 4

  /** A value of a `map[string]interface{}`, by its dynamic type. */
  datatype Value = IntVal(i: int) | FloatVal(f: real) | StringVal(s: string) | BoolVal(b: bool) | DurationVal(d: Duration)

  /** A `map[string]interface{}`; a nil map reads as the empty one. */
  type Metadata = map<string, Value>

  datatype Request = Request(
    event: EventType,
    title: string,
    message: string,
    priority: int,
    types: seq<NotificationType>,
    metadata: Metadata,
    timeRemaining: Duration)

  /** A `NotificationResponse` without the measured duration. */
  datatype Response = Response(success: bool, kind: NotificationType, error: Error)

  /** A notifier as the manager sees it: the type it reports, whether it is
      available on this system, and an identity. */
  datatype Notifier = Notifier(kind: NotificationType, available: bool, id: nat)

  datatype NotificationStats = NotificationStats(
    totalSent: int,
    successCount: int,
    failureCount: int,
    lastNotified: Option<Time>,
    byType: map<NotificationType, int>,
    byEvent: map<EventType, int>)

  // ---------------------------------------------------------------------
  // Gates

  /** `isEventEnabledWithConfig`: each gated event follows its switch;
      every other event is let through. */
  predicate IsEventEnabled(event: EventType, s: Settings)
    ensures !IsEventEnabled(event, s) ==> event in GatedEvents
  {
    if event == EventPomodoroCompleted then s.events.pomodoroNotifications
    else if event == EventBreakCompleted then s.events.breakNotifications
    else if event == EventEarlyAlert then s.events.earlyAlerts
    else if event == EventUrgentAlert then s.events.urgentAlerts
    else if event == EventSessionStarted || event == EventTimerPaused || event == EventTimerResumed then
      s.events.systemNotifications
    else true
  }

  /** `isTypeEnabledWithConfig`: the three known types follow their switch;
      an unknown type is never enabled. */
  predicate IsTypeEnabled(t: NotificationType, s: Settings)
    ensures IsTypeEnabled(t, s) ==> t in AllTypes
  {
    if t == TypeSound then s.types.sound
    else if t == TypeSystem then s.types.system
    else if t == TypeVisual then s.types.visual
    else false
  }

  /** The types of `ts` that are enabled, in their order. */
  function KeepEnabled(ts: seq<NotificationType>, s: Settings): (r: seq<NotificationType>)
    ensures |r| <= |ts|
    ensures forall t :: t in r <==> t in ts && IsTypeEnabled(t, s)
    ensures |ts| == 1 ==> r == (if IsTypeEnabled(ts[0], s) then ts else [])
  {
    if ts == [] then []
    else
      var init := KeepEnabled(ts[..|ts| - 1], s);
      var last := ts[|ts| - 1];
      assert ts == ts[..|ts| - 1] + [last];
      if IsTypeEnabled(last, s) then init + [last] else init
  }

  /** `getEnabledTypesWithConfig`: the enabled types, in the fixed order
      sound, system, visual. */
  function EnabledTypes(s: Settings): (r: seq<NotificationType>)
    ensures r == KeepEnabled(AllTypes, s)
  {
    var a := if s.types.sound then [TypeSound] else [];
    var b := if s.types.system then a + [TypeSystem] else a;
    assert KeepEnabled(AllTypes[..1], s) == a by {
      assert AllTypes[..1][..0] == [];
    }
    assert KeepEnabled(AllTypes[..2], s) == b by {
      assert AllTypes[..2][..1] == AllTypes[..1];
    }
    assert AllTypes[..3][..2] == AllTypes[..2] && AllTypes[..3] == AllTypes;
    if s.types.visual then b + [TypeVisual] else b
  }

  /** Filtering twice is filtering once. */
  lemma {:induction false} KeepEnabledIdempotent(ts: seq<NotificationType>, s: Settings)
    ensures KeepEnabled(KeepEnabled(ts, s), s) == KeepEnabled(ts, s)
  {
    if ts != [] {
      var init := ts[..|ts| - 1];
      KeepEnabledIdempotent(init, s);
      var k := KeepEnabled(init, s);
      if IsTypeEnabled(ts[|ts| - 1], s) {
        assert (k + [ts[|ts| - 1]])[..|k|] == k;
      }
    }
  }

  /** The request as `Notify` passes it on: one naming no type is given
      the enabled types first; nothing else about it changes. */
  function FilledRequest(req: Request, s: Settings): (r: Request)
    ensures |req.types| == 0 ==> r.types == EnabledTypes(s)
    ensures |req.types| > 0 ==> r == req
    ensures r.(types := req.types) == req
  {
    if |req.types| == 0 then req.(types := EnabledTypes(s)) else req
  }

  /** Filtering keeps order: the enabled types of `a + b` are those of `a`
      followed by those of `b`. With the one-type case of `KeepEnabled`
      this fixes the result as the enabled types of `ts`, each as often and
      in the order it occurs there. */
  lemma {:induction false} KeepEnabledAppend(a: seq<NotificationType>, b: seq<NotificationType>, s: Settings)
    ensures KeepEnabled(a + b, s) == KeepEnabled(a, s) + KeepEnabled(b, s)
    decreases |b|
  {
    if b == [] {
      assert a + b == a;
    } else {
      var init := b[..|b| - 1];
      assert (a + b)[..|a + b| - 1] == a + init;
      assert (a + b)[|a + b| - 1] == b[|b| - 1];
      KeepEnabledAppend(a, init, s);
    }
  }

  /** The types a request is sent to: those of the filled request, less the
      disabled ones. */
  function Targets(req: Request, s: Settings): seq<NotificationType> {
    KeepEnabled(FilledRequest(req, s).types, s)
  }

  /** A request naming no type goes to exactly the enabled types, in order. */
  lemma TargetsOfUntypedRequest(req: Request, s: Settings)
    requires req.types == []
    ensures Targets(req, s) == EnabledTypes(s)
  {
    KeepEnabledIdempotent(AllTypes, s);
  }

  /** Quiet hours never switch an event or a type on. */
  lemma QuietHoursOnlySilence(c: ConfigValue, now: MinuteOfDay, event: EventType, t: NotificationType)
    ensures IsEventEnabled(event, ApplyQuietHours(c, now).settings) ==> IsEventEnabled(event, c.settings)
    ensures IsTypeEnabled(t, ApplyQuietHours(c, now).settings) ==> IsTypeEnabled(t, c.settings)
  {
  }

  /** Inside quiet hours with "only urgent" set, early alerts and the
      start/pause/resume events are held back, while urgent alerts and the
      completion events keep their own switches. */
  lemma OnlyUrgentQuietHours(c: ConfigValue, now: MinuteOfDay)
    requires IsInQuietHoursAsWritten(c, now) && c.settings.quietHours.onlyUrgent
    ensures var a := ApplyQuietHours(c, now).settings;
      !IsEventEnabled(EventEarlyAlert, a) && !IsEventEnabled(EventSessionStarted, a)
      && !IsEventEnabled(EventTimerPaused, a) && !IsEventEnabled(EventTimerResumed, a)
    ensures var a := ApplyQuietHours(c, now).settings;
      IsEventEnabled(EventUrgentAlert, a) == c.settings.events.urgentAlerts
      && IsEventEnabled(EventPomodoroCompleted, a) == c.settings.events.pomodoroNotifications
      && IsEventEnabled(EventBreakCompleted, a) == c.settings.events.breakNotifications
  {
  }

  // ---------------------------------------------------------------------
  // Requests

  /** `configureRequest`: only the metadata changes. With alert repetition on,
      an early or urgent alert carries the repeat interval; a visual request
      carries the visual intensity and the flash switch. */
  function ConfigureRequest(req: Request, t: NotificationType, s: Settings): (r: Request)
    ensures r.(metadata := req.metadata) == req
    ensures forall k :: k in req.metadata ==> k in r.metadata
    ensures forall k :: k in r.metadata && k != "repeat_interval" && k != "visual_intensity" && k != "flash_enabled"
              ==> k in req.metadata && r.metadata[k] == req.metadata[k]
    ensures (s.alerts.repeat && (req.event == EventEarlyAlert || req.event == EventUrgentAlert))
              ==> "repeat_interval" in r.metadata && r.metadata["repeat_interval"] == IntVal(s.alerts.repeatInterval)
    ensures t == TypeVisual ==>
              "visual_intensity" in r.metadata && r.metadata["visual_intensity"] == StringVal(s.visual.intensity)
              && "flash_enabled" in r.metadata && r.metadata["flash_enabled"] == BoolVal(s.visual.flashEnabled)
  {
    var m1 := if s.alerts.repeat && (req.event == EventEarlyAlert || req.event == EventUrgentAlert)
      then req.metadata["repeat_interval" := IntVal(s.alerts.repeatInterval)] else req.metadata;
    var m2 := if t == TypeVisual
      then m1["visual_intensity" := StringVal(s.visual.intensity)]["flash_enabled" := BoolVal(s.visual.flashEnabled)]
      else m1;
    req.(metadata := m2)
  }

  /** `configureNotifier`: the settings handed to a notifier of type `t`. */
  function NotifierSettings(s: Settings, t: NotificationType): (m: Metadata)
    ensures t !in AllTypes ==> m == map[]
    ensures t == TypeSound ==> m.Keys == {"volume", "duration", "frequency", "custom_sounds"}
    ensures t == TypeSystem ==> m.Keys == {"persistence", "actions", "icon", "position"}
    ensures t == TypeVisual ==> m.Keys == {"intensity", "flash_enabled", "color_alerts", "progress_bar_alerts"}
  {
    if t == TypeSound then
      map["volume" := FloatVal(s.sound.volume), "duration" := IntVal(s.sound.duration),
          "frequency" := IntVal(s.sound.beepFrequency), "custom_sounds" := BoolVal(s.sound.customSounds)]
    else if t == TypeSystem then
      map["persistence" := IntVal(s.system.persistence), "actions" := BoolVal(s.system.actions),
          "icon" := StringVal(s.system.icon), "position" := StringVal(s.system.position)]
    else if t == TypeVisual then
      map["intensity" := StringVal(s.visual.intensity), "flash_enabled" := BoolVal(s.visual.flashEnabled),
          "color_alerts" := BoolVal(s.visual.colorAlerts), "progress_bar_alerts" := BoolVal(s.visual.progressBarAlerts)]
    else map[]
  }

  /** `sendNotification`: an unregistered type and a disabled type fail
      without reaching a notifier; otherwise the notifier answers the
      configured request, and the answer is labelled with the type. */
  function Send(notifiers: map<NotificationType, Notifier>, t: NotificationType, req: Request, s: Settings,
                deliver: (Notifier, Request) -> Response): (r: Response)
    ensures r.kind == t
    ensures t !in notifiers ==> r == Response(false, t, Some("notifier " + t + " not registered"))
    ensures t in notifiers && !IsTypeEnabled(t, s) ==>
              r == Response(false, t, Some("notification type " + t + " disabled by configuration"))
    ensures t in notifiers && IsTypeEnabled(t, s) ==>
              var answer := deliver(notifiers[t], ConfigureRequest(req, t, s));
              r.success == answer.success && r.error == answer.error
  {
    if t !in notifiers then Response(false, t, Some("notifier " + t + " not registered"))
    else if !IsTypeEnabled(t, s) then Response(false, t, Some("notification type " + t + " disabled by configuration"))
    else
      var answer := deliver(notifiers[t], ConfigureRequest(req, t, s));
      Response(answer.success, t, answer.error)
  }

  /** The answers for each target, in order. */
  function SendAll(notifiers: map<NotificationType, Notifier>, ts: seq<NotificationType>, req: Request, s: Settings,
                   deliver: (Notifier, Request) -> Response): (rs: seq<Response>)
    ensures |rs| == |ts|
  {
    if ts == [] then []
    else SendAll(notifiers, ts[..|ts| - 1], req, s, deliver) + [Send(notifiers, ts[|ts| - 1], req, s, deliver)]
  }

  /** The i-th answer is the answer for the i-th target. */
  lemma {:induction false} SendAllAt(notifiers: map<NotificationType, Notifier>, ts: seq<NotificationType>, req: Request,
                                     s: Settings, deliver: (Notifier, Request) -> Response, i: nat)
    requires i < |ts|
    ensures SendAll(notifiers, ts, req, s, deliver)[i] == Send(notifiers, ts[i], req, s, deliver)
  {
    if i < |ts| - 1 {
      SendAllAt(notifiers, ts[..|ts| - 1], req, s, deliver, i);
    }
  }

  /** One more type considered: its answer joins the list when it is enabled. */
  lemma SendAllStep(notifiers: map<NotificationType, Notifier>, ts: seq<NotificationType>, i: nat, req: Request,
                    s: Settings, deliver: (Notifier, Request) -> Response)
    requires i < |ts|
    ensures IsTypeEnabled(ts[i], s) ==>
      SendAll(notifiers, KeepEnabled(ts[..i + 1], s), req, s, deliver)
      == SendAll(notifiers, KeepEnabled(ts[..i], s), req, s, deliver) + [Send(notifiers, ts[i], req, s, deliver)]
    ensures !IsTypeEnabled(ts[i], s) ==>
      SendAll(notifiers, KeepEnabled(ts[..i + 1], s), req, s, deliver)
      == SendAll(notifiers, KeepEnabled(ts[..i], s), req, s, deliver)
  {
    assert ts[..i + 1][..i] == ts[..i];
    var k := KeepEnabled(ts[..i], s);
    if IsTypeEnabled(ts[i], s) {
      assert (k + [ts[i]])[..|k|] == k;
    }
  }

  /** Every answer `Notify` collects comes from a notifier or reports a
      missing one: the type gate inside `sendNotification` never refuses a
      target, because the targets are already the enabled types. */
  lemma {:induction false} TargetsPassTypeGate(notifiers: map<NotificationType, Notifier>, req: Request, s: Settings,
                                               deliver: (Notifier, Request) -> Response, i: nat)
    requires i < |Targets(req, s)|
    ensures var t := Targets(req, s)[i];
      var r := SendAll(notifiers, Targets(req, s), req, s, deliver)[i];
      r.kind == t && IsTypeEnabled(t, s)
      && (t !in notifiers ==> r == Response(false, t, Some("notifier " + t + " not registered")))
      && (t in notifiers ==> r.success == deliver(notifiers[t], ConfigureRequest(req, t, s)).success
                             && r.error == deliver(notifiers[t], ConfigureRequest(req, t, s)).error)
  {
    SendAllAt(notifiers, Targets(req, s), req, s, deliver, i);
    assert Targets(req, s)[i] in Targets(req, s);
  }

  /** The event and priority `NotifyTimeAlert` gives the time left: urgent
      within a minute, early within five, a custom alert beyond. */
  function AlertLevel(remaining: Duration): (r: (EventType, int))
    ensures r.0 == EventUrgentAlert <==> r.1 == PriorityUrgent
    ensures r.0 == EventEarlyAlert <==> r.1 == PriorityHigh
    ensures r.0 == EventCustomAlert <==> r.1 == PriorityNormal
  {
    if remaining <= Minute then (EventUrgentAlert, PriorityUrgent)
    else if remaining <= 5 * Minute then (EventEarlyAlert, PriorityHigh)
    else (EventCustomAlert, PriorityNormal)
  }

  /** Less time left never lowers the priority, and the three bands are
      exactly (-inf, 1m], (1m, 5m] and (5m, +inf). */
  lemma AlertLevelBands(a: Duration, b: Duration)
    ensures a <= b ==> AlertLevel(a).1 >= AlertLevel(b).1
    ensures AlertLevel(a).0 == EventUrgentAlert <==> a <= Minute
    ensures AlertLevel(a).0 == EventEarlyAlert <==> Minute < a <= 5 * Minute
    ensures AlertLevel(a).0 == EventCustomAlert <==> a > 5 * Minute
  {
  }

  /** `formatDuration`: `"<h>h <m>m"` from an hour on, otherwise
      `"<m>m <s>s"` or `"<s>s"`; all parts truncated toward zero. */
  function FormatDuration(d: Duration): (s: string)
    ensures |s| >= 2
  {
    if d >= Hour then IntToString(Quo(d, Hour)) + "h " + IntToString(Rem(Quo(d, Minute), 60)) + "m"
    else
      var minutes := Quo(d, Minute);
      var seconds := Rem(Quo(d, Second), 60);
      if minutes > 0 then IntToString(minutes) + "m " + IntToString(seconds) + "s"
      else IntToString(seconds) + "s"
  }

  /** Reading the text back gives the duration in whole seconds, or in
      whole minutes from an hour on, where the seconds are not printed. */
  lemma FormatDurationReadsBack(d: Duration)
    requires d >= 0
    ensures var r := ReadDuration(FormatDuration(d));
      r.Some? && r.value == if d >= Hour then d / Minute * 60 else d / Second
  {
    var hours, minutes := Quo(d, Hour), Quo(d, Minute);
    var seconds := Rem(Quo(d, Second), 60);
    var text := FormatDuration(d);
    ClockParts(d);
    if d >= Hour {
      var m := Rem(minutes, 60);
      ReadHoursMinutes(hours, m);
      assert minutes == hours * 60 + m by {
        DivDiv(d / Second, 60, 60);
      }
      assert d / Minute == minutes by {
        UnitSteps(d);
      }
    } else if minutes > 0 {
      ReadMinutesSeconds(minutes, seconds);
    } else {
      ReadSeconds(seconds);
    }
    var r := ReadDuration(text);
    assert r.Some? && r.value == if d >= Hour then d / Minute * 60 else d / Second;
  }

  /** The request `NotifyTimeAlert` sends: visual and sound only. */
  function TimeAlertRequest(remaining: Duration, sessionType: string): (r: Request)
    ensures r.types == [TypeVisual, TypeSound] && r.timeRemaining == remaining
    ensures (r.event, r.priority) == AlertLevel(remaining)
  {
    var (event, priority) := AlertLevel(remaining);
    var emoji := if event == EventUrgentAlert then "\U{1F6A8}" else if event == EventEarlyAlert then "⚠️" else "⏰";
    Request(event, emoji + " Alerta de Tiempo", FormatDuration(remaining) + " restantes en " + sessionType,
      priority, [TypeVisual, TypeSound],
      map["time_remaining" := DurationVal(remaining), "session_type" := StringVal(sessionType)], remaining)
  }

  // ---------------------------------------------------------------------
  // Statistics

  /** A counter of a `map[K]int64`, zero when absent. */
  function Count(m: map<string, int>, k: string): int {
    if k in m then m[k] else 0
  }

  /** `m[k]++`. */
  function Bump(m: map<string, int>, k: string): (r: map<string, int>)
    ensures r.Keys == m.Keys + {k}
    ensures Count(r, k) == Count(m, k) + 1
    ensures forall j :: j != k ==> Count(r, j) == Count(m, j)
  {
    m[k := Count(m, k) + 1]
  }

  /** Every notification sent was either a success or a failure. */
  predicate Balanced(s: NotificationStats) {
    0 <= s.successCount && 0 <= s.failureCount && s.totalSent == s.successCount + s.failureCount
  }

  /** `updateStats`: one more sent, one more success or failure, one more
      for the response's type and for the event. */
  function Counted(s: NotificationStats, event: EventType, r: Response): (t: NotificationStats)
    ensures t.totalSent == s.totalSent + 1
    ensures t.successCount == s.successCount + (if r.success then 1 else 0)
    ensures t.failureCount == s.failureCount + (if r.success then 0 else 1)
    ensures t.byType == Bump(s.byType, r.kind) && t.byEvent == Bump(s.byEvent, event)
    ensures t.lastNotified == s.lastNotified
    ensures Balanced(s) ==> Balanced(t)
  {
    NotificationStats(s.totalSent + 1,
      if r.success then s.successCount + 1 else s.successCount,
      if r.success then s.failureCount else s.failureCount + 1,
      s.lastNotified, Bump(s.byType, r.kind), Bump(s.byEvent, event))
  }

  /** The statistics after counting `rs`, in order. */
  function Tally(s: NotificationStats, event: EventType, rs: seq<Response>): NotificationStats {
    if rs == [] then s else Counted(Tally(s, event, rs[..|rs| - 1]), event, rs[|rs| - 1])
  }

  lemma TallyStep(s: NotificationStats, event: EventType, rs: seq<Response>, r: Response)
    ensures Tally(s, event, rs + [r]) == Counted(Tally(s, event, rs), event, r)
  {
    assert (rs + [r])[..|rs|] == rs;
  }

  function Successes(rs: seq<Response>): nat {
    if rs == [] then 0 else Successes(rs[..|rs| - 1]) + (if rs[|rs| - 1].success then 1 else 0)
  }

  /** Counting a batch of responses: as many sent as responses, as many
      successes as succeeded, each one counted for the event, and the
      balance kept. */
  lemma {:induction false} TallyCounts(s: NotificationStats, event: EventType, rs: seq<Response>)
    ensures var t := Tally(s, event, rs);
      t.totalSent == s.totalSent + |rs|
      && t.successCount == s.successCount + Successes(rs)
      && Count(t.byEvent, event) == Count(s.byEvent, event) + |rs|
      && t.lastNotified == s.lastNotified
      && (Balanced(s) ==> Balanced(t))
  {
    if rs != [] {
      TallyCounts(s, event, rs[..|rs| - 1]);
    }
  }

  // ---------------------------------------------------------------------
  // The manager

  /** A `*Manager`: the configuration, the notifiers by type, the global
      switch and the statistics. */
  class Manager {
    var config: ConfigValue
    var notifiers: map<NotificationType, Notifier>
    var enabled: bool
    var stats: NotificationStats

    /** Every notification counted was either a success or a failure. */
    ghost predicate Valid()
      reads this
    {
      Balanced(stats)
    }

    /** `NewManager`: the default configuration when none is given, no
        notifier, enabled, nothing counted. */
    constructor (cfg: Option<ConfigValue>)
      ensures Valid()
      ensures config == if cfg.None? then DefaultConfig() else cfg.value
      ensures notifiers == map[] && enabled && stats == NotificationStats(0, 0, 0, None, map[], map[])
    {
      config := if cfg.None? then DefaultConfig() else cfg.value;
      notifiers := map[];
      enabled := true;
      stats := NotificationStats(0, 0, 0, None, map[], map[]);
    }

    /** `RegisterNotifier`: refuses a nil notifier, an unavailable one and
        one that rejects the settings it is configured with; otherwise files
        it under its type, replacing any notifier of that type. */
    method RegisterNotifier(n: Option<Notifier>, configure: (Notifier, Metadata) -> Error) returns (err: Error)
      requires Valid()
      modifies this
      ensures Valid()
      ensures config == old(config) && enabled == old(enabled) && stats == old(stats)
      ensures n.None? ==> err == Some("notifier cannot be nil") && notifiers == old(notifiers)
      ensures n.Some? && !n.value.available ==>
        err == Some("notifier " + n.value.kind + " is not available on this system") && notifiers == old(notifiers)
      ensures n.Some? && n.value.available && configure(n.value, NotifierSettings(config.settings, n.value.kind)).Some? ==>
        err == Some("failed to configure notifier " + n.value.kind + ": "
                    + configure(n.value, NotifierSettings(config.settings, n.value.kind)).value)
        && notifiers == old(notifiers)
      ensures n.Some? && n.value.available && configure(n.value, NotifierSettings(config.settings, n.value.kind)).None? ==>
        err == None && notifiers == old(notifiers)[n.value.kind := n.value]
    {
      if n.None? {
        return Some("notifier cannot be nil");
      }
      var notifier := n.value;
      if !notifier.available {
        return Some("notifier " + notifier.kind + " is not available on this system");
      }
      var failure := configure(notifier, NotifierSettings(config.settings, notifier.kind));
      if failure.Some? {
        return Some("failed to configure notifier " + notifier.kind + ": " + failure.value);
      }
      notifiers := notifiers[notifier.kind := notifier];
      return None;
    }

    /** `updateStats`. */
    method UpdateStats(event: EventType, r: Response)
      requires Valid()
      modifies this
      ensures Valid()
      ensures stats == Counted(old(stats), event, r)
      ensures config == old(config) && notifiers == old(notifiers) && enabled == old(enabled)
    {
      stats := Counted(stats, event, r);
    }

    /** `Notify` at wall-clock instant `clock`, `minute` being its time of
        day: nothing when disabled or when the event is switched off (quiet
        hours applied); otherwise one answer per target, each counted. */
    method Notify(req: Request, clock: Time, minute: MinuteOfDay, deliver: (Notifier, Request) -> Response)
      returns (responses: seq<Response>)
      requires Valid()
      modifies this
      ensures Valid()
      ensures config == old(config) && notifiers == old(notifiers) && enabled == old(enabled)
      ensures var active := ApplyQuietHours(config, minute).settings;
        if !enabled || !IsEventEnabled(req.event, active) then
          responses == [] && stats == old(stats)
        else
          responses == SendAll(notifiers, Targets(req, active), FilledRequest(req, active), active, deliver)
          && stats == Tally(old(stats), req.event, responses).(lastNotified := Some(clock))
    {
      responses := [];
      if !enabled {
        return;
      }
      var active := ApplyQuietHours(config, minute).settings;
      if !IsEventEnabled(req.event, active) {
        return;
      }
      var sent := FilledRequest(req, active);
      responses := SendToEach(sent.types, sent, active, deliver);
      stats := stats.(lastNotified := Some(clock));
    }

    /** The loop of `Notify`: every type of `types` that `active` enables,
        in order, is sent the request and its answer counted. */
    method SendToEach(types: seq<NotificationType>, req: Request, active: Settings,
                      deliver: (Notifier, Request) -> Response) returns (responses: seq<Response>)
      requires Valid()
      modifies this
      ensures Valid()
      ensures config == old(config) && notifiers == old(notifiers) && enabled == old(enabled)
      ensures responses == SendAll(notifiers, KeepEnabled(types, active), req, active, deliver)
      ensures stats == Tally(old(stats), req.event, responses)
    {
      responses := [];
      var i := 0;
      while i < |types|
        invariant 0 <= i <= |types|
        invariant config == old(config) && notifiers == old(notifiers) && enabled == old(enabled)
        invariant Valid()
        invariant responses == SendAll(notifiers, KeepEnabled(types[..i], active), req, active, deliver)
        invariant stats == Tally(old(stats), req.event, responses)
      {
        SendAllStep(notifiers, types, i, req, active, deliver);
        var t := types[i];
        if IsTypeEnabled(t, active) {
          var r := Send(notifiers, t, req, active, deliver);
          TallyStep(old(stats), req.event, responses, r);
          responses := responses + [r];
          UpdateStats(req.event, r);
        }
        i := i + 1;
      }
      assert types[..i] == types;
    }

    /** `NotifyTimeAlert`: the time-alert request, sent to visual and sound. */
    method NotifyTimeAlert(remaining: Duration, sessionType: string, clock: Time, minute: MinuteOfDay,
                           deliver: (Notifier, Request) -> Response) returns (responses: seq<Response>)
      requires Valid()
      modifies this
      ensures Valid()
      ensures config == old(config) && notifiers == old(notifiers) && enabled == old(enabled)
      ensures var active := ApplyQuietHours(config, minute).settings;
        var req := TimeAlertRequest(remaining, sessionType);
        if !enabled || !IsEventEnabled(req.event, active) then
          responses == [] && stats == old(stats)
        else
          responses == SendAll(notifiers, KeepEnabled([TypeVisual, TypeSound], active), req, active, deliver)
          && stats == Tally(old(stats), req.event, responses).(lastNotified := Some(clock))
    {
      responses := Notify(TimeAlertRequest(remaining, sessionType), clock, minute, deliver);
    }

    /** `Enable`. */
    method Enable(on: bool)
      modifies this
      ensures enabled == on
      ensures config == old(config) && notifiers == old(notifiers) && stats == old(stats)
    {
      enabled := on;
    }

    /** `UpdateConfig`: refuses a nil or invalid configuration, the state
        unchanged; otherwise installs it and hands every registered notifier
        its new settings, returned here per type (a notifier's refusal is
        only logged). */
    method UpdateConfig(c: Option<ConfigValue>) returns (err: Error, sent: map<NotificationType, Metadata>)
      requires Valid()
      modifies this
      ensures Valid()
      ensures notifiers == old(notifiers) && enabled == old(enabled) && stats == old(stats)
      ensures c.None? ==> err == Some("config cannot be nil") && config == old(config) && sent == map[]
      ensures c.Some? && Validate(c.value).Some? ==>
        err == Some("invalid config: " + Validate(c.value).value) && config == old(config) && sent == map[]
      ensures c.Some? && Validate(c.value).None? ==>
        err == None && config == c.value
        && sent.Keys == notifiers.Keys
        && forall t :: t in sent ==> sent[t] == NotifierSettings(c.value.settings, notifiers[t].kind)
    {
      sent := map[];
      if c.None? {
        return Some("config cannot be nil"), sent;
      }
      var v := Validate(c.value);
      if v.Some? {
        return Some("invalid config: " + v.value), sent;
      }
      config := c.value;
      var pending := notifiers.Keys;
      while pending != {}
        invariant pending <= notifiers.Keys
        invariant sent.Keys == notifiers.Keys - pending
        invariant forall t :: t in sent ==> sent[t] == NotifierSettings(config.settings, notifiers[t].kind)
        decreases |pending|
      {
        var t :| t in pending;
        sent := sent[t := NotifierSettings(config.settings, notifiers[t].kind)];
        pending := pending - {t};
      }
      err := None;
    }

    /** `ResetStats`: every counter back to zero, both maps empty. */
    method ResetStats()
      modifies this
      ensures stats == NotificationStats(0, 0, 0, None, map[], map[]) && Balanced(stats)
      ensures config == old(config) && notifiers == old(notifiers) && enabled == old(enabled)
    {
      stats := NotificationStats(0, 0, 0, None, map[], map[]);
    }
  }
}
