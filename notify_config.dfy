/** The notification settings of internal/notifications/config.go: the
    per-type and per-event switches, their validation, the quiet-hours window
    and the list of named profiles. */
module NotifyConfig {
  import opened Common
  import opened Text

  datatype QuietHours = QuietHours(
    enabled: bool,
    startTime: string,
    endTime: string,
    disableSound: bool,
    disableSystem: bool,
    onlyUrgent: bool)

  /** `SoundEnabled`, `SystemEnabled`, `VisualEnabled`: one switch per
      notification type. */
  datatype TypeSwitches = TypeSwitches(sound: bool, system: bool, visual: bool)

  /** The per-event switches. */
  datatype EventSwitches = EventSwitches(
    pomodoroNotifications: bool,
    breakNotifications: bool,
    systemNotifications: bool,
    earlyAlerts: bool,
    urgentAlerts: bool)

  datatype SoundSettings = SoundSettings(volume: real, duration: int, beepFrequency: int, customSounds: bool)

  datatype AlertSettings = AlertSettings(thresholds: seq<int>, repeat: bool, repeatInterval: int)

  datatype VisualSettings = VisualSettings(intensity: string, flashEnabled: bool, colorAlerts: bool, progressBarAlerts: bool)

  datatype SystemSettings = SystemSettings(persistence: int, actions: bool, icon: string, position: string)

  /** Every field of the Go `Config` except the profile list and the name
      of the active profile, grouped as the struct's comments group them. */
  datatype Settings = Settings(
    types: TypeSwitches,
    events: EventSwitches,
    sound: SoundSettings,
    alerts: AlertSettings,
    visual: VisualSettings,
    system: SystemSettings,
    quietHours: QuietHours)

  /** A `Config` as a value: what a copy of the struct holds. */
  datatype ConfigValue = ConfigValue(settings: Settings, profiles: seq<Profile>, currentProfile: string)

  datatype Profile = Profile(name: string, description: string, config: ConfigValue)

  const DefaultProfileName: string := "default"
  const VisualIntensities: seq<string> := ["low", "medium", "high"]
  const SystemPositions: seq<string> := ["top-left", "top-right", "bottom-left", "bottom-right", "center"]

  /** A time of day to the minute, as `time.Now().Format("15:04")` sees it. */
  type MinuteOfDay = m: int | 0 <= m < 1440

  function DefaultSettings(): Settings {
    Settings(
      TypeSwitches(true, true, true),
      EventSwitches(true, true, false, true, true),
      SoundSettings(0.7, 500, 800, false),
      AlertSettings([5, 2, 1], false, 30),
      VisualSettings("medium", true, true, true),
      SystemSettings(5, true, "", "top-right"),
      QuietHours(false, "22:00", "08:00", true, false, true))
  }

  /** `DefaultConfig()`: valid, no profiles, the "default" profile active. */
  function DefaultConfig(): (c: ConfigValue)
    ensures IsValid(c) && Validate(c) == None
    ensures c.profiles == [] && c.currentProfile == DefaultProfileName
    ensures !c.settings.quietHours.enabled
  {
    var s := DefaultSettings();
    assert s.visual.intensity == VisualIntensities[1];
    assert s.system.position == SystemPositions[1];
    assert AlertsValid(s.alerts);
    ConfigValue(s, [], DefaultProfileName)
  }

  // ---------------------------------------------------------------------
  // Validation

  /** The value of two decimal digits. */
  function TwoDigits(a: char, b: char): (n: nat)
    requires IsDigit(a) && IsDigit(b)
    ensures n < 100
  {
    DigitValue(a) * 10 + DigitValue(b)
  }

  /** `time.Parse("15:04", t)` succeeds: an hour of one or two digits below
      24, a colon, a minute of exactly two digits below 60, nothing else. */
  predicate ValidTimeFormat(t: string): (b: bool)
    ensures b ==> (|t| == 4 || |t| == 5) && t[|t| - 3] == ':'
    ensures b ==> forall i :: 0 <= i < |t| && i != |t| - 3 ==> IsDigit(t[i])
  {
    if |t| == 4 then
      IsDigit(t[0]) && t[1] == ':' && IsDigit(t[2]) && IsDigit(t[3]) && TwoDigits(t[2], t[3]) < 60
    else if |t| == 5 then
      IsDigit(t[0]) && IsDigit(t[1]) && t[2] == ':' && IsDigit(t[3]) && IsDigit(t[4])
      && TwoDigits(t[0], t[1]) < 24 && TwoDigits(t[3], t[4]) < 60
    else false
  }

  /** The minute of the day a valid "15:04" time denotes. */
  function MinuteOf(t: string): (m: int)
    requires ValidTimeFormat(t)
    ensures 0 <= m < 1440
  {
    if |t| == 4 then DigitValue(t[0]) * 60 + TwoDigits(t[2], t[3])
    else TwoDigits(t[0], t[1]) * 60 + TwoDigits(t[3], t[4])
  }

  /** The first threshold outside [1, 60], in slice order. */
  function FirstBadThreshold(ts: seq<int>): (r: Option<int>)
    ensures r.None? <==> forall i :: 0 <= i < |ts| ==> 1 <= ts[i] <= 60
    ensures r.Some? ==> r.value in ts && !(1 <= r.value <= 60)
    ensures r.Some? ==> (exists i :: 0 <= i < |ts| && ts[i] == r.value
                                     && (forall j :: 0 <= j < i ==> 1 <= ts[j] <= 60))
  {
    if ts == [] then None
    else if ts[0] < 1 || ts[0] > 60 then Some(ts[0])
    else
      var r := FirstBadThreshold(ts[1..]);
      assert r.None? ==> forall i :: 1 <= i < |ts| ==> ts[1..][i - 1] == ts[i];
      assert r.Some? ==> (exists i :: 0 <= i < |ts| && ts[i] == r.value
                                      && (forall j :: 0 <= j < i ==> 1 <= ts[j] <= 60)) by {
        if r.Some? {
          var k :| 0 <= k < |ts[1..]| && ts[1..][k] == r.value
            && (forall j :: 0 <= j < k ==> 1 <= ts[1..][j] <= 60);
          assert ts[k + 1] == r.value;
          forall j | 0 <= j < k + 1
            ensures 1 <= ts[j] <= 60
          {
            if j > 0 {
              assert ts[j] == ts[1..][j - 1];
            }
          }
        }
      }
      r
  }

  predicate SoundValid(s: SoundSettings) {
    0.0 <= s.volume <= 1.0 && 100 <= s.duration <= 5000 && 200 <= s.beepFrequency <= 2000
  }

  predicate AlertsValid(a: AlertSettings) {
    |a.thresholds| > 0
    && (forall i :: 0 <= i < |a.thresholds| ==> 1 <= a.thresholds[i] <= 60)
    && 5 <= a.repeatInterval <= 300
  }

  predicate SystemValid(s: SystemSettings) {
    1 <= s.persistence <= 30 && s.position in SystemPositions
  }

  predicate QuietHoursValid(q: QuietHours) {
    q.enabled ==> ValidTimeFormat(q.startTime) && ValidTimeFormat(q.endTime)
  }

  /** What `Validate` accepts, one condition per check. */
  predicate IsValid(c: ConfigValue) {
    var s := c.settings;
    SoundValid(s.sound)
    && AlertsValid(s.alerts)
    && s.visual.intensity in VisualIntensities
    && SystemValid(s.system)
    && QuietHoursValid(s.quietHours)
  }

  /** The sound checks of `Validate`, in order. */
  function SoundError(s: SoundSettings): (r: Error)
    ensures r.None? <==> SoundValid(s)
    ensures !(0.0 <= s.volume <= 1.0) ==> r == Some("sound volume must be between 0.0 and 1.0")
  {
    if s.volume < 0.0 || s.volume > 1.0 then
      Some("sound volume must be between 0.0 and 1.0")
    else if s.duration < 100 || s.duration > 5000 then
      Some("sound duration must be between 100ms and 5000ms, got " + IntToString(s.duration))
    else if s.beepFrequency < 200 || s.beepFrequency > 2000 then
      Some("beep frequency must be between 200Hz and 2000Hz, got " + IntToString(s.beepFrequency))
    else None
  }

  /** The threshold and repeat-interval checks of `Validate`, in order. */
  function AlertsError(a: AlertSettings): (r: Error)
    ensures r.None? <==> AlertsValid(a)
    ensures a.thresholds == [] ==> r == Some("alert thresholds cannot be empty")
  {
    if |a.thresholds| == 0 then
      Some("alert thresholds cannot be empty")
    else if FirstBadThreshold(a.thresholds).Some? then
      Some("alert threshold must be between 1 and 60 minutes, got " + IntToString(FirstBadThreshold(a.thresholds).value))
    else if a.repeatInterval < 5 || a.repeatInterval > 300 then
      Some("alert repeat interval must be between 5 and 300 seconds, got " + IntToString(a.repeatInterval))
    else None
  }

  /** The persistence and position checks of `Validate`, in order. */
  function SystemError(s: SystemSettings): (r: Error)
    ensures r.None? <==> SystemValid(s)
  {
    if s.persistence < 1 || s.persistence > 30 then
      Some("system persistence must be between 1 and 30 seconds, got " + IntToString(s.persistence))
    else if s.position !in SystemPositions then
      Some("system position must be one of [top-left top-right bottom-left bottom-right center], got " + s.position)
    else None
  }

  /** The quiet-hours checks of `Validate`: only an enabled window is checked. */
  function QuietHoursError(q: QuietHours): (r: Error)
    ensures r.None? <==> QuietHoursValid(q)
  {
    if q.enabled && !ValidTimeFormat(q.startTime) then
      Some("invalid quiet hours start time: time must be in HH:MM format, got " + q.startTime)
    else if q.enabled && !ValidTimeFormat(q.endTime) then
      Some("invalid quiet hours end time: time must be in HH:MM format, got " + q.endTime)
    else None
  }

  /** `Validate`: the checks in the source's order, the first failure's message. */
  function Validate(c: ConfigValue): (r: Error)
    ensures r.None? <==> IsValid(c)
    ensures !SoundValid(c.settings.sound) ==> r == SoundError(c.settings.sound)
    ensures SoundValid(c.settings.sound) && !AlertsValid(c.settings.alerts) ==> r == AlertsError(c.settings.alerts)
    ensures SoundValid(c.settings.sound) && AlertsValid(c.settings.alerts)
      && c.settings.visual.intensity !in VisualIntensities
      ==> r.Some? && r.value == "visual intensity must be one of [low medium high], got " + c.settings.visual.intensity
    ensures SoundValid(c.settings.sound) && AlertsValid(c.settings.alerts)
      && c.settings.visual.intensity in VisualIntensities
      ==> r == (if SystemValid(c.settings.system) then QuietHoursError(c.settings.quietHours)
               else SystemError(c.settings.system))
  {
    var s := c.settings;
    var sound := SoundError(s.sound);
    var alerts := AlertsError(s.alerts);
    var system := SystemError(s.system);
    if sound.Some? then sound
    else if alerts.Some? then alerts
    else if s.visual.intensity !in VisualIntensities then
      Some("visual intensity must be one of [low medium high], got " + s.visual.intensity)
    else if system.Some? then system
    else QuietHoursError(s.quietHours)
  }

  // ---------------------------------------------------------------------
  // Quiet hours

  function Pad2(n: nat): (s: string)
    requires n < 100
    ensures |s| == 2 && IsDigit(s[0]) && IsDigit(s[1]) && TwoDigits(s[0], s[1]) == n
  {
    DigitRoundTrip(n / 10);
    DigitRoundTrip(n % 10);
    [DigitChar(n / 10), DigitChar(n % 10)]
  }

  /** `now.Format("15:04")`: always two hour digits, a colon, two minute digits. */
  function ClockString(m: MinuteOfDay): (s: string)
    ensures |s| == 5 && ValidTimeFormat(s) && MinuteOf(s) == m
  {
    Pad2(m / 60) + ":" + Pad2(m % 60)
  }

  /** `IsInQuietHours` as written: the window's bounds and the clock are
      compared as strings. */
  predicate IsInQuietHoursAsWritten(c: ConfigValue, now: MinuteOfDay): (b: bool)
    ensures b ==> c.settings.quietHours.enabled
    ensures c.settings.quietHours.startTime == c.settings.quietHours.endTime ==> !b
    ensures ClockString(now) == c.settings.quietHours.endTime ==> !b
    ensures (c.settings.quietHours.enabled && c.settings.quietHours.startTime != c.settings.quietHours.endTime
             && ClockString(now) == c.settings.quietHours.startTime) ==> b
  {
    var q := c.settings.quietHours;
    var current := ClockString(now);
    StrLessIrreflexive(current);
    StrLessTrichotomy(q.startTime, q.endTime);
    if !q.enabled then false
    else if StrLess(q.endTime, q.startTime) then !StrLess(current, q.startTime) || StrLess(current, q.endTime)
    else !StrLess(current, q.startTime) && StrLess(current, q.endTime)
  }

  /** The window `[start, end)` of minutes, wrapping past midnight when the
      start is later than the end. */
  predicate InWindow(start: int, end: int, now: int) {
    if start > end then now >= start || now < end else start <= now < end
  }

  /** `IsInQuietHours` as evidently intended, with the bounds compared as
      times of day. Bounds that are not valid times keep the string
      comparison. */
  predicate IsInQuietHours(c: ConfigValue, now: MinuteOfDay): (b: bool)
    ensures b ==> c.settings.quietHours.enabled
    ensures var q := c.settings.quietHours;
      q.enabled && ValidTimeFormat(q.startTime) && ValidTimeFormat(q.endTime) ==>
        (MinuteOf(q.startTime) == MinuteOf(q.endTime) ==> !b)
        && (now == MinuteOf(q.endTime) ==> !b)
        && (MinuteOf(q.startTime) != MinuteOf(q.endTime) && now == MinuteOf(q.startTime) ==> b)
  {
    var q := c.settings.quietHours;
    if !q.enabled then false
    else if ValidTimeFormat(q.startTime) && ValidTimeFormat(q.endTime) then
      InWindow(MinuteOf(q.startTime), MinuteOf(q.endTime), now)
    else IsInQuietHoursAsWritten(c, now)
  }

  lemma StrLessStep(a: string, b: string)
    requires |a| > 0 && |b| > 0
    ensures StrLess(a, b) == (a[0] < b[0] || (a[0] == b[0] && StrLess(a[1..], b[1..])))
  {
  }

  /** On zero-padded "HH:MM" times string order is time order. */
  lemma {:induction false} PaddedTimesOrder(a: string, b: string)
    requires |a| == 5 && ValidTimeFormat(a) && |b| == 5 && ValidTimeFormat(b)
    ensures StrLess(a, b) <==> MinuteOf(a) < MinuteOf(b)
  {
    StrLessStep(a, b);
    StrLessStep(a[1..], b[1..]);
    StrLessStep(a[2..], b[2..]);
    StrLessStep(a[3..], b[3..]);
    StrLessStep(a[4..], b[4..]);
    assert a[1..][1..] == a[2..] && b[1..][1..] == b[2..];
    assert a[2..][1..] == a[3..] && b[2..][1..] == b[3..];
    assert a[3..][1..] == a[4..] && b[3..][1..] == b[4..];
    assert a[4..][1..] == [] && b[4..][1..] == [];
    assert !StrLess(a[4..][1..], b[4..][1..]);
    var h1, h2 := TwoDigits(a[0], a[1]), TwoDigits(b[0], b[1]);
    var m1, m2 := TwoDigits(a[3], a[4]), TwoDigits(b[3], b[4]);
    assert StrLess(a, b) <==> h1 < h2 || (h1 == h2 && m1 < m2);
  }

  /** Where both bounds are zero-padded the string comparison is right. */
  lemma QuietHoursAgreeOnPaddedBounds(c: ConfigValue, now: MinuteOfDay)
    requires |c.settings.quietHours.startTime| == 5 && ValidTimeFormat(c.settings.quietHours.startTime)
    requires |c.settings.quietHours.endTime| == 5 && ValidTimeFormat(c.settings.quietHours.endTime)
    ensures IsInQuietHoursAsWritten(c, now) == IsInQuietHours(c, now)
  {
    var q := c.settings.quietHours;
    PaddedTimesOrder(q.endTime, q.startTime);
    PaddedTimesOrder(ClockString(now), q.startTime);
    PaddedTimesOrder(ClockString(now), q.endTime);
  }

  /** A single-digit start hour, which `Validate` accepts, sorts after a
      two-digit end hour starting with '1': from 9:00 to 17:00 the string
      comparison reads a wrapping window and reports 08:00 as quiet. */
  lemma QuietHoursAsWrittenMisreadsShortHour(c: ConfigValue)
    requires c.settings.quietHours == QuietHours(true, "9:00", "17:00", true, false, true)
    ensures ValidTimeFormat("9:00") && ValidTimeFormat("17:00")
    ensures IsInQuietHoursAsWritten(c, 8 * 60)
    ensures !IsInQuietHours(c, 8 * 60)
  {
    ShortHourStrings();
    assert MinuteOf("9:00") == 540;
  }

  /** The strings the lemma above compares: the clock at 08:00, and how the
      three times order as strings. */
  lemma ShortHourStrings()
    ensures ValidTimeFormat("9:00") && ValidTimeFormat("17:00")
    ensures ClockString(8 * 60) == "08:00"
    ensures StrLess("17:00", "9:00") && StrLess("08:00", "17:00")
  {
    assert ClockString(8 * 60) == Pad2(8) + ":" + Pad2(0);
    StrLessStep("17:00", "9:00");
    StrLessStep("08:00", "17:00");
  }

  /** The copy `ApplyQuietHours` makes inside quiet hours: sound, system,
      early alerts and system events switched off as the quiet-hours options
      ask, and nothing else changed. */
  function Quieted(c: ConfigValue): (r: ConfigValue)
    ensures r.profiles == c.profiles && r.currentProfile == c.currentProfile
    ensures var a, b := r.settings, c.settings;
      a.sound == b.sound && a.alerts == b.alerts && a.visual == b.visual
      && a.system == b.system && a.quietHours == b.quietHours
    ensures var a, b, q := r.settings, c.settings, c.settings.quietHours;
      a.types.sound == (b.types.sound && !q.disableSound)
      && a.types.system == (b.types.system && !q.disableSystem)
      && a.types.visual == b.types.visual
    ensures var a, b, q := r.settings.events, c.settings.events, c.settings.quietHours;
      a.earlyAlerts == (b.earlyAlerts && !q.onlyUrgent)
      && a.systemNotifications == (b.systemNotifications && !q.onlyUrgent)
      && a.pomodoroNotifications == b.pomodoroNotifications
      && a.breakNotifications == b.breakNotifications
      && a.urgentAlerts == b.urgentAlerts
  {
    var s := c.settings;
    var q := s.quietHours;
    var types := TypeSwitches(s.types.sound && !q.disableSound, s.types.system && !q.disableSystem, s.types.visual);
    var e := s.events;
    var events := EventSwitches(e.pomodoroNotifications, e.breakNotifications, e.systemNotifications && !q.onlyUrgent,
                                e.earlyAlerts && !q.onlyUrgent, e.urgentAlerts);
    ConfigValue(Settings(types, events, s.sound, s.alerts, s.visual, s.system, q), c.profiles, c.currentProfile)
  }

  /** Both bounds of the window are zero-padded "HH:MM" times. */
  predicate PaddedBounds(q: QuietHours) {
    |q.startTime| == 5 && ValidTimeFormat(q.startTime) && |q.endTime| == 5 && ValidTimeFormat(q.endTime)
  }

  /** `ApplyQuietHours`: outside quiet hours the configuration itself,
      inside them the quieted copy, quiet hours being decided by the string
      comparison. */
  function ApplyQuietHours(c: ConfigValue, now: MinuteOfDay): (r: ConfigValue)
    ensures !IsInQuietHoursAsWritten(c, now) ==> r == c
    ensures IsInQuietHoursAsWritten(c, now) ==> r == Quieted(c)
  {
    if IsInQuietHoursAsWritten(c, now) then Quieted(c) else c
  }

  /** With zero-padded bounds `ApplyQuietHours` follows the time-of-day
      window. */
  lemma ApplyQuietHoursOnPaddedBounds(c: ConfigValue, now: MinuteOfDay)
    requires PaddedBounds(c.settings.quietHours)
    ensures IsInQuietHours(c, now) ==> ApplyQuietHours(c, now) == Quieted(c)
    ensures !IsInQuietHours(c, now) ==> ApplyQuietHours(c, now) == c
  {
    QuietHoursAgreeOnPaddedBounds(c, now);
  }

  /** Quieting twice is quieting once. */
  lemma QuietedIdempotent(c: ConfigValue)
    ensures Quieted(Quieted(c)) == Quieted(c)
  {
    var r := Quieted(c);
    var rr := Quieted(r);
    assert rr.settings.types == r.settings.types;
    assert rr.settings.events == r.settings.events;
    assert rr.settings == r.settings;
  }

  /** Applying the quiet hours a second time changes nothing more: the
      quiet-hours options themselves are left as they were, so the second
      application sees the same window. */
  lemma ApplyQuietHoursIdempotent(c: ConfigValue, now: MinuteOfDay)
    ensures ApplyQuietHours(ApplyQuietHours(c, now), now) == ApplyQuietHours(c, now)
  {
    if IsInQuietHoursAsWritten(c, now) {
      var r := Quieted(c);
      assert r.settings.quietHours == c.settings.quietHours;
      assert IsInQuietHoursAsWritten(r, now);
      QuietedIdempotent(c);
    }
  }

  // ---------------------------------------------------------------------
  // Profiles

  predicate HasProfile(ps: seq<Profile>, name: string) {
    exists i :: 0 <= i < |ps| && ps[i].name == name
  }

  /** No two profiles share a name. */
  predicate UniqueNames(ps: seq<Profile>) {
    forall i, j :: 0 <= i < j < |ps| ==> ps[i].name != ps[j].name
  }

  /** The position of the first profile called `name`, or `|ps|`. */
  function ProfileIndex(ps: seq<Profile>, name: string): (i: nat)
    ensures i <= |ps|
    ensures i < |ps| ==> ps[i].name == name
    ensures forall j :: 0 <= j < i ==> ps[j].name != name
  {
    if ps == [] then 0
    else if ps[0].name == name then 0
    else
      var k := ProfileIndex(ps[1..], name);
      assert forall j :: 1 <= j < 1 + k ==> ps[j] == ps[1..][j - 1];
      1 + k
  }

  /** `GetProfile`: the first profile with that name, or "not found". */
  function GetProfile(c: ConfigValue, name: string): (r: Result<Profile>)
    ensures r.Ok? <==> HasProfile(c.profiles, name)
    ensures r.Ok? ==> r.value.name == name && r.value == c.profiles[ProfileIndex(c.profiles, name)]
    ensures r.Err? ==> r.msg == "profile " + name + " not found"
  {
    var i := ProfileIndex(c.profiles, name);
    if i < |c.profiles| then Ok(c.profiles[i]) else Err("profile " + name + " not found")
  }

  /** `GetActiveConfig`: the active profile's configuration, or this one when
      "default" is active or the active profile is missing; quiet hours
      applied either way. */
  function GetActiveConfig(c: ConfigValue, now: MinuteOfDay): (r: ConfigValue)
    ensures c.currentProfile == DefaultProfileName || !HasProfile(c.profiles, c.currentProfile)
            ==> r == ApplyQuietHours(c, now)
    ensures c.currentProfile != DefaultProfileName && HasProfile(c.profiles, c.currentProfile)
            ==> exists i :: 0 <= i < |c.profiles| && c.profiles[i].name == c.currentProfile
                            && r == ApplyQuietHours(c.profiles[i].config, now)
  {
    if c.currentProfile == DefaultProfileName then ApplyQuietHours(c, now)
    else match GetProfile(c, c.currentProfile)
      case Err(_) => ApplyQuietHours(c, now)
      case Ok(p) => ApplyQuietHours(p.config, now)
  }

  /** The profile list with the entry at `i` removed, the rest in order. */
  function RemoveAt(ps: seq<Profile>, i: nat): (r: seq<Profile>)
    requires i < |ps|
    ensures |r| == |ps| - 1
    ensures forall j :: 0 <= j < i ==> r[j] == ps[j]
    ensures forall j :: i <= j < |r| ==> r[j] == ps[j + 1]
  {
    ps[..i] + ps[i + 1..]
  }

  /** A `*Config`: its settings, the profile list and the active profile's
      name, which `AddProfile`, `RemoveProfile` and `SetActiveProfile`
      update in place. */
  class Config {
    var settings: Settings
    var profiles: seq<Profile>
    var currentProfile: string

    function Value(): ConfigValue
      reads this
    {
      ConfigValue(settings, profiles, currentProfile)
    }

    /** `DefaultConfig()`. */
    constructor ()
      ensures Value() == DefaultConfig()
    {
      settings := DefaultSettings();
      profiles := [];
      currentProfile := DefaultProfileName;
    }

    /** `Clone`: a new configuration with copies of the slices; changing one
        afterwards leaves the other as it was. */
    method Clone() returns (r: Config)
      ensures fresh(r) && r.Value() == Value()
    {
      r := new Config();
      r.settings := settings;
      r.profiles := profiles;
      r.currentProfile := currentProfile;
    }

    /** `AddProfile`: refuses a name already present and a profile whose
        configuration does not validate; otherwise appends the profile. */
    method AddProfile(p: Profile) returns (err: Error)
      modifies this
      ensures settings == old(settings) && currentProfile == old(currentProfile)
      ensures HasProfile(old(profiles), p.name)
              ==> err == Some("profile " + p.name + " already exists") && profiles == old(profiles)
      ensures !HasProfile(old(profiles), p.name) && Validate(p.config).Some?
              ==> err == Some("invalid profile config: " + Validate(p.config).value) && profiles == old(profiles)
      ensures !HasProfile(old(profiles), p.name) && Validate(p.config).None?
              ==> err == None && profiles == old(profiles) + [p]
      ensures UniqueNames(old(profiles)) ==> UniqueNames(profiles)
    {
      var i := 0;
      while i < |profiles|
        invariant 0 <= i <= |profiles|
        invariant forall j :: 0 <= j < i ==> profiles[j].name != p.name
      {
        if profiles[i].name == p.name {
          return Some("profile " + p.name + " already exists");
        }
        i := i + 1;
      }
      var v := Validate(p.config);
      if v.Some? {
        return Some("invalid profile config: " + v.value);
      }
      profiles := profiles + [p];
      return None;
    }

    /** `RemoveProfile`: "default" cannot be removed and a missing name is an
        error; otherwise the first profile of that name goes, the others keep
        their order, and removing the active profile makes "default" active. */
    method RemoveProfile(name: string) returns (err: Error)
      modifies this
      ensures settings == old(settings)
      ensures name == DefaultProfileName
              ==> err == Some("cannot remove default profile")
                  && profiles == old(profiles) && currentProfile == old(currentProfile)
      ensures name != DefaultProfileName && !HasProfile(old(profiles), name)
              ==> err == Some("profile " + name + " not found")
                  && profiles == old(profiles) && currentProfile == old(currentProfile)
      ensures name != DefaultProfileName && HasProfile(old(profiles), name)
              ==> err == None
                  && profiles == RemoveAt(old(profiles), ProfileIndex(old(profiles), name))
                  && currentProfile == (if old(currentProfile) == name then DefaultProfileName else old(currentProfile))
      ensures UniqueNames(old(profiles)) ==> UniqueNames(profiles) && (err == None ==> !HasProfile(profiles, name))
    {
      if name == DefaultProfileName {
        return Some("cannot remove default profile");
      }
      var i := 0;
      while i < |profiles|
        invariant 0 <= i <= |profiles|
        invariant profiles == old(profiles) && currentProfile == old(currentProfile)
        invariant forall j :: 0 <= j < i ==> profiles[j].name != name
      {
        if profiles[i].name == name {
          assert i == ProfileIndex(profiles, name);
          profiles := RemoveAt(profiles, i);
          if currentProfile == name {
            currentProfile := DefaultProfileName;
          }
          return None;
        }
        i := i + 1;
      }
      return Some("profile " + name + " not found");
    }

    /** `SetActiveProfile`: "default" is always accepted, another name only
        when a profile of that name exists. */
    method SetActiveProfile(name: string) returns (err: Error)
      modifies this
      ensures settings == old(settings) && profiles == old(profiles)
      ensures err == None <==> name == DefaultProfileName || HasProfile(profiles, name)
      ensures err == None ==> currentProfile == name
      ensures err != None ==> err == Some("profile " + name + " not found") && currentProfile == old(currentProfile)
    {
      if name == DefaultProfileName {
        currentProfile := name;
        return None;
      }
      var found := GetProfile(Value(), name);
      if found.Err? {
        return Some(found.msg);
      }
      currentProfile := name;
      return None;
    }
  }

  /** Once a profile is active, the active configuration is that profile's
      (with quiet hours applied); profile names being unique, it is the
      profile's whatever its place in the list. */
  lemma {:induction false} ActiveConfigIsProfile(c: ConfigValue, i: nat, now: MinuteOfDay)
    requires i < |c.profiles| && UniqueNames(c.profiles)
    requires c.profiles[i].name == c.currentProfile && c.currentProfile != DefaultProfileName
    ensures GetActiveConfig(c, now) == ApplyQuietHours(c.profiles[i].config, now)
  {
  }
}
