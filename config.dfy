/** The pomodoro configuration of core/config: four settings, their
    validation, the break chosen after each work interval, and the short
    duration format used by the core. */
module PomodoroConfig {
  import opened Common
  import opened Text

  datatype Config = Config(
    workDuration: Duration,
    shortBreak: Duration,
    longBreak: Duration,
    longBreakInterval: int)

  /** The field that failed validation and why. */
  datatype ValidationError = ValidationError(field: string, message: string)

  predicate WorkInRange(c: Config) { Minute <= c.workDuration <= 120 * Minute }
  predicate ShortInRange(c: Config) { Minute <= c.shortBreak <= 30 * Minute }
  predicate LongInRange(c: Config) { 5 * Minute <= c.longBreak <= 60 * Minute }
  predicate IntervalInRange(c: Config) { 2 <= c.longBreakInterval <= 10 }

  /** Every bound the configuration must respect, as one conjunction. */
  predicate IsValid(c: Config) {
    WorkInRange(c) && ShortInRange(c) && LongInRange(c) && IntervalInRange(c)
    && c.longBreak > c.shortBreak
  }

  /** The stock configuration: 25-minute work, 5- and 15-minute breaks, a
      long break every fourth pomodoro. */
  function DefaultConfig(): (c: Config)
    ensures IsValid(c)
    ensures c.workDuration == 25 * Minute && c.longBreakInterval == 4
    ensures c.shortBreak == 5 * Minute && c.longBreak == 15 * Minute
  {
    Config(25 * Minute, 5 * Minute, 15 * Minute, 4)
  }

  /** Checks the fields in a fixed order (work, short break, long break,
      interval, then long against short) and reports the first failure. */
  function Validate(c: Config): (r: Option<ValidationError>)
    ensures r.None? <==> IsValid(c)
    ensures (r.Some? && r.value.field == "WorkDuration") <==> !WorkInRange(c)
    ensures (r.Some? && r.value.field == "ShortBreak") <==> WorkInRange(c) && !ShortInRange(c)
    ensures (r.Some? && r.value.field == "LongBreakInterval") <==>
      WorkInRange(c) && ShortInRange(c) && LongInRange(c) && !IntervalInRange(c)
    ensures (r.Some? && r.value.field == "LongBreak") <==>
      WorkInRange(c) && ShortInRange(c)
      && (!LongInRange(c) || (IntervalInRange(c) && c.longBreak <= c.shortBreak))
  {
    if c.workDuration < Minute then
      Some(ValidationError("WorkDuration", "must be at least 1 minute"))
    else if c.workDuration > 120 * Minute then
      Some(ValidationError("WorkDuration", "must be less than 2 hours"))
    else if c.shortBreak < Minute then
      Some(ValidationError("ShortBreak", "must be at least 1 minute"))
    else if c.shortBreak > 30 * Minute then
      Some(ValidationError("ShortBreak", "must be less than 30 minutes"))
    else if c.longBreak < 5 * Minute then
      Some(ValidationError("LongBreak", "must be at least 5 minutes"))
    else if c.longBreak > 60 * Minute then
      Some(ValidationError("LongBreak", "must be less than 1 hour"))
    else if c.longBreakInterval < 2 then
      Some(ValidationError("LongBreakInterval", "must be at least 2"))
    else if c.longBreakInterval > 10 then
      Some(ValidationError("LongBreakInterval", "must be less than 10"))
    else if c.longBreak <= c.shortBreak then
      Some(ValidationError("LongBreak", "must be longer than short break"))
    else
      None
  }

  /** A copy with every field equal to the original's. */
  function Clone(c: Config): (r: Config)
    ensures r == c
    ensures Validate(r) == Validate(c)
  {
    Config(c.workDuration, c.shortBreak, c.longBreak, c.longBreakInterval)
  }

  /** The break that follows work interval `pomodoroNumber`: the long one on
      every multiple of the interval. Go panics on a zero interval. */
  function GetNextBreakType(c: Config, pomodoroNumber: int): (r: (Duration, bool))
    requires c.longBreakInterval != 0
    ensures r.1 ==> r.0 == c.longBreak
    ensures !r.1 ==> r.0 == c.shortBreak
  {
    if Rem(pomodoroNumber, Abs(c.longBreakInterval)) == 0 then (c.longBreak, true)
    else (c.shortBreak, false)
  }

  function Abs(i: int): nat { if i < 0 then -i else i }

  /** A long break comes exactly when the number is a multiple of the interval. */
  lemma LongBreakOnMultiples(c: Config, n: int)
    requires IsValid(c)
    ensures GetNextBreakType(c, n).1 <==> exists k :: n == k * c.longBreakInterval
  {
    var l := c.longBreakInterval;
    QuoRem(n, l);
    if GetNextBreakType(c, n).1 {
      assert n == Quo(n, l) * l;
    } else {
      if k :| n == k * l {
        DivisibleRem(n, l, k);
        assert false;
      }
    }
  }

  lemma DivisibleRem(n: int, l: int, k: int)
    requires l > 0 && n == k * l
    ensures Rem(n, l) == 0
  {
    if n >= 0 {
      DivUnique(n, l, k, 0);
    } else {
      assert -n == (-k) * l;
      DivUnique(-n, l, -k, 0);
    }
  }

  /** The pattern repeats every `longBreakInterval` pomodoros. */
  lemma BreakPatternPeriodic(c: Config, n: nat)
    requires IsValid(c)
    ensures GetNextBreakType(c, n + c.longBreakInterval) == GetNextBreakType(c, n)
  {
    var l := c.longBreakInterval;
    DivUnique(n + l, l, n / l + 1, n % l);
  }

  /** With a valid configuration the first pomodoro is followed by a short break. */
  lemma FirstBreakIsShort(c: Config)
    requires IsValid(c)
    ensures GetNextBreakType(c, 1) == (c.shortBreak, false)
  {
  }

  /** Number of long breaks among pomodoros 1 .. n. */
  function LongBreaksUpTo(c: Config, n: nat): nat
    requires c.longBreakInterval != 0
  {
    if n == 0 then 0
    else LongBreaksUpTo(c, n - 1) + (if GetNextBreakType(c, n).1 then 1 else 0)
  }

  /** After `n` pomodoros exactly `n / longBreakInterval` long breaks were due. */
  lemma {:induction false} LongBreakCount(c: Config, n: nat)
    requires IsValid(c)
    ensures LongBreaksUpTo(c, n) == n / c.longBreakInterval
  {
    var l := c.longBreakInterval;
    if n > 0 {
      LongBreakCount(c, n - 1);
      QuoOfNatural(n, l);
      assert GetNextBreakType(c, n).1 <==> n % l == 0;
      DivStep(n, l);
    }
  }

  /** Moving from `n - 1` to `n` adds one to the quotient exactly on a multiple. */
  lemma DivStep(n: int, l: int)
    requires n >= 1 && l >= 1
    ensures n / l == (n - 1) / l + (if n % l == 0 then 1 else 0)
  {
    var q, r := (n - 1) / l, (n - 1) % l;
    assert n - 1 == q * l + r && 0 <= r < l;
    if r == l - 1 {
      assert n == (q + 1) * l + 0;
      DivUnique(n, l, q + 1, 0);
    } else {
      assert n == q * l + (r + 1);
      DivUnique(n, l, q, r + 1);
    }
  }

  /** `FormatDuration`: `"<m>m <s>s"` when there is at least one whole
      minute, `"<s>s"` otherwise, both truncated toward zero. */
  function FormatDuration(d: Duration): (s: string)
    ensures |s| >= 2 && s[|s| - 1] == 's'
  {
    var minutes := Quo(d, Minute);
    var seconds := Rem(Quo(d, Second), 60);
    if minutes > 0 then IntToString(minutes) + "m " + IntToString(seconds) + "s"
    else IntToString(seconds) + "s"
  }

  /** Reading the text back gives the duration in whole seconds. */
  lemma FormatDurationReadsBack(d: Duration)
    requires d >= 0
    ensures ReadDuration(FormatDuration(d)) == Some(d / Second)
  {
    var minutes := Quo(d, Minute);
    var seconds := Rem(Quo(d, Second), 60);
    UnitSteps(d);
    assert minutes == d / Second / 60 && seconds == d / Second % 60;
    if minutes > 0 {
      ReadMinutesSeconds(minutes, seconds);
    } else {
      ReadSeconds(seconds);
    }
    var r := ReadDuration(FormatDuration(d));
    assert r.Some? && r.value == d / Second;
  }
}
