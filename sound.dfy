/** The pure part of the sound notifier of
    internal/notifications/sound.go: which sound an event plays, which event
    a sound test raises, and how the notifier reads its settings out of the
    untyped map it was configured with. Playing audio is not modelled. */
module NotifySound {
  import opened Common
  import opened Text
  import opened NotifyConfig
  import opened NotifyManager

  /** The seven named sound types; any other name is played as "default". */
  const SoundTypes: seq<string> := ["success", "gentle", "warning", "urgent", "start", "pause", "resume"]

  /** The events with a sound of their own, listed in the order of `SoundTypes`. */
  const SoundEvents: seq<EventType> := [EventPomodoroCompleted, EventBreakCompleted, EventEarlyAlert,
    EventUrgentAlert, EventSessionStarted, EventTimerPaused, EventTimerResumed]

  /** `getSoundTypeForEvent`. */
  function SoundTypeForEvent(event: EventType): (t: string)
    ensures t == "default" || t in SoundTypes
  {
    if event == EventPomodoroCompleted then "success"
    else if event == EventBreakCompleted then "gentle"
    else if event == EventEarlyAlert then "warning"
    else if event == EventUrgentAlert then "urgent"
    else if event == EventSessionStarted then "start"
    else if event == EventTimerPaused then "pause"
    else if event == EventTimerResumed then "resume"
    else "default"
  }

  /** The event `TestSound` raises to play `soundType`: a custom alert
      unless the type is one of the seven named ones. */
  function TestEventFor(soundType: string): (e: EventType)
    ensures e == EventCustomAlert || e in SoundEvents
  {
    if soundType == "success" then EventPomodoroCompleted
    else if soundType == "gentle" then EventBreakCompleted
    else if soundType == "warning" then EventEarlyAlert
    else if soundType == "urgent" then EventUrgentAlert
    else if soundType == "start" then EventSessionStarted
    else if soundType == "pause" then EventTimerPaused
    else if soundType == "resume" then EventTimerResumed
    else EventCustomAlert
  }

  /** Testing a named sound plays that very sound; testing any other name
      plays the default sound. */
  lemma TestSoundPlaysItsType(soundType: string)
    ensures soundType in SoundTypes ==> SoundTypeForEvent(TestEventFor(soundType)) == soundType
    ensures soundType !in SoundTypes ==> SoundTypeForEvent(TestEventFor(soundType)) == "default"
  {
    if soundType !in SoundTypes {
      assert TestEventFor(soundType) == EventCustomAlert;
    }
  }

  /** The two switches are inverse on the seven pairs: event i plays sound
      i, and testing sound i raises event i. */
  lemma SoundsAndEventsCorrespond(i: nat)
    requires i < |SoundTypes|
    ensures SoundTypeForEvent(SoundEvents[i]) == SoundTypes[i]
    ensures TestEventFor(SoundTypes[i]) == SoundEvents[i]
  {
  }

  /** `getConfigInt`: an int as is, a float truncated toward zero, a string
      holding a decimal integer parsed; anything else, or no entry, gives
      the default. */
  function GetConfigInt(config: Metadata, key: string, default: int): (r: int)
    ensures key !in config ==> r == default
    ensures key in config && config[key].IntVal? ==> r == config[key].i
    ensures key in config && config[key].FloatVal? ==> r == TruncateReal(config[key].f)
    ensures key in config && config[key].StringVal? && ParseInt(config[key].s).None? ==> r == default
    ensures key in config && (config[key].BoolVal? || config[key].DurationVal?) ==> r == default
  {
    if key !in config then default
    else match config[key]
      case IntVal(i) => i
      case FloatVal(f) => TruncateReal(f)
      case StringVal(str) => if ParseInt(str).Some? then ParseInt(str).value else default
      case _ => default
  }

  /** Go's `int(f)`: the real truncated toward zero. */
  function TruncateReal(f: real): (n: int)
    ensures f >= 0.0 ==> n as real <= f < n as real + 1.0
    ensures f < 0.0 ==> n as real - 1.0 < f <= n as real
  {
    if f >= 0.0 then f.Floor else -((-f).Floor)
  }

  /** A whole number written out as a string reads back as itself. */
  lemma GetConfigIntOfString(config: Metadata, key: string, default: int, n: int)
    requires key in config && config[key] == StringVal(IntToString(n))
    ensures GetConfigInt(config, key, default) == n
  {
    ParseIntRoundTrip(n);
  }

  /** `getConfigBool`: a bool as is; a string is true exactly when it is
      "true" in any letter case or "1"; an int is true when non-zero;
      anything else, or no entry, gives the default. */
  function GetConfigBool(config: Metadata, key: string, default: bool): (r: bool)
    ensures key !in config ==> r == default
    ensures key in config && config[key].BoolVal? ==> r == config[key].b
    ensures key in config && config[key].IntVal? ==> r == (config[key].i != 0)
    ensures key in config && (config[key].FloatVal? || config[key].DurationVal?) ==> r == default
    ensures key in config && config[key].StringVal? ==>
              (r <==> ToLowerAscii(config[key].s) == "true" || config[key].s == "1")
  {
    if key !in config then default
    else match config[key]
      case BoolVal(b) => b
      case StringVal(str) => ToLowerAscii(str) == "true" || str == "1"
      case IntVal(i) => i != 0
      case _ => default
  }

  /** A string setting never falls back on the default: "TRUE" and "1" are
      true, "yes" is false whatever the default. */
  lemma GetConfigBoolOfStrings(default: bool)
    ensures GetConfigBool(map["k" := StringVal("TRUE")], "k", default)
    ensures GetConfigBool(map["k" := StringVal("1")], "k", default)
    ensures !GetConfigBool(map["k" := StringVal("yes")], "k", default)
  {
    assert ToLowerAscii("TRUE") == "true";
    assert ToLowerAscii("yes") == "yes";
  }

  /** `getConfigFloat`: a float as is, an int converted, a string parsed by
      `parse` (Go's `strconv.ParseFloat`, outside this model); anything
      else, or no entry, gives the default. */
  function GetConfigFloat(config: Metadata, key: string, default: real, parse: string -> Option<real>): (r: real)
    ensures key !in config ==> r == default
    ensures key in config && config[key].FloatVal? ==> r == config[key].f
    ensures key in config && config[key].IntVal? ==> r == config[key].i as real
    ensures key in config && (config[key].BoolVal? || config[key].DurationVal?) ==> r == default
  {
    if key !in config then default
    else match config[key]
      case FloatVal(f) => f
      case IntVal(i) => i as real
      case StringVal(str) => if parse(str).Some? then parse(str).value else default
      case _ => default
  }

  /** The key a custom sound file is stored under. */
  function SoundFileKey(soundType: string): (k: string)
    ensures |k| == |"sound_file_"| + |soundType| && k[..|"sound_file_"|] == "sound_file_"
  {
    "sound_file_" + soundType
  }

  /** Different sound types have different keys. */
  lemma SoundFileKeyInjective(a: string, b: string)
    ensures SoundFileKey(a) == SoundFileKey(b) ==> a == b
  {
    if SoundFileKey(a) == SoundFileKey(b) {
      assert a == SoundFileKey(a)[|"sound_file_"|..];
      assert b == SoundFileKey(b)[|"sound_file_"|..];
    }
  }

  /** `getSoundFilePath`: the string stored under the type's key, or "". */
  function GetSoundFilePath(config: Metadata, soundType: string): (path: string)
    ensures SoundFileKey(soundType) !in config ==> path == ""
    ensures SoundFileKey(soundType) in config && config[SoundFileKey(soundType)].StringVal? ==>
              path == config[SoundFileKey(soundType)].s
  {
    var key := SoundFileKey(soundType);
    if key in config && config[key].StringVal? then config[key].s else ""
  }

  /** A file stored for one sound type is found for it and for no other. */
  lemma SoundFileFoundForItsTypeOnly(config: Metadata, t: string, u: string, path: string)
    ensures GetSoundFilePath(config[SoundFileKey(t) := StringVal(path)], t) == path
    ensures u != t ==> GetSoundFilePath(config[SoundFileKey(t) := StringVal(path)], u) == GetSoundFilePath(config, u)
  {
    SoundFileKeyInjective(t, u);
  }

  /** A sound notifier configured by the manager plays with exactly the
      configured volume, duration, frequency and custom-sound switch. */
  lemma SoundNotifierReadsManagerSettings(s: Settings, parse: string -> Option<real>)
    ensures var m := NotifierSettings(s, TypeSound);
      GetConfigFloat(m, "volume", 0.7, parse) == s.sound.volume
      && GetConfigInt(m, "duration", 500) == s.sound.duration
      && GetConfigInt(m, "frequency", 800) == s.sound.beepFrequency
      && GetConfigBool(m, "custom_sounds", false) == s.sound.customSounds
  {
  }
}
