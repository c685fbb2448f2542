/** Decimal formatting (`fmt`'s `%d`), decimal parsing (`strconv.Atoi`),
    Go's byte-wise string ordering and ASCII lower-casing. */
module Text {
  import opened Common

  predicate IsDigit(c: char) {
    '0' <= c <= '9'
  }

  predicate AllDigits(s: string) {
    forall i :: 0 <= i < |s| ==> IsDigit(s[i])
  }

  function DigitChar(d: nat): (c: char)
    requires d < 10
    ensures IsDigit(c)
  {
    "0123456789"[d]
  }

  function DigitValue(c: char): (d: nat)
    requires IsDigit(c)
    ensures d < 10
  {
    (c as int - '0' as int) as nat
  }

  lemma DigitRoundTrip(d: nat)
    requires d < 10
    ensures DigitValue(DigitChar(d)) == d
  {
  }

  /** `%d` of a non-negative integer: its decimal digits, most significant first. */
  function NatToString(n: nat): (s: string)
    ensures |s| > 0
  {
    if n < 10 then [DigitChar(n)] else NatToString(n / 10) + [DigitChar(n % 10)]
  }

  /** `%d` of any integer: a minus sign before the digits of a negative one. */
  function IntToString(i: int): (s: string)
    ensures |s| > 0
  {
    if i >= 0 then NatToString(i) else "-" + NatToString(-i)
  }

  /** The number a string of decimal digits denotes. */
  function DigitsValue(s: string): nat
    requires AllDigits(s)
  {
    if s == [] then 0 else DigitsValue(s[..|s| - 1]) * 10 + DigitValue(s[|s| - 1])
  }

  /** `strconv.Atoi`: an optional sign, then one or more decimal digits. */
  function ParseInt(s: string): (r: Option<int>)
    ensures r.Some? ==> |s| > 0
  {
    if |s| > 0 && (s[0] == '-' || s[0] == '+') then
      var body := s[1..];
      if |body| > 0 && AllDigits(body) then
        Some(if s[0] == '-' then 0 - DigitsValue(body) as int else DigitsValue(body))
      else None
    else if |s| > 0 && AllDigits(s) then Some(DigitsValue(s))
    else None
  }

  /** `%d` prints decimal digits only. */
  lemma {:induction false} NatToStringDigits(n: nat)
    ensures AllDigits(NatToString(n))
  {
    if n >= 10 {
      NatToStringDigits(n / 10);
    }
  }

  lemma {:induction false} DigitsValueOfNatToString(n: nat)
    ensures AllDigits(NatToString(n)) && DigitsValue(NatToString(n)) == n
  {
    NatToStringDigits(n);
    var s := NatToString(n);
    if n < 10 {
      DigitRoundTrip(n);
    } else {
      DigitsValueOfNatToString(n / 10);
      assert s[..|s| - 1] == NatToString(n / 10);
      DigitRoundTrip(n % 10);
    }
  }

  /** Parsing what `%d` prints gives back the number: `Atoi(Itoa(i)) == i`. */
  lemma ParseIntRoundTrip(i: int)
    ensures ParseInt(IntToString(i)) == Some(i)
  {
    if i >= 0 {
      DigitsValueOfNatToString(i);
    } else {
      var s := IntToString(i);
      assert s[1..] == NatToString(-i);
      DigitsValueOfNatToString(-i);
    }
  }

  /** Go's `a < b` on strings: lexicographic order of the characters. */
  predicate StrLess(a: string, b: string)
    decreases |a|
  {
    if |a| == 0 then |b| > 0
    else if |b| == 0 then false
    else a[0] < b[0] || (a[0] == b[0] && StrLess(a[1..], b[1..]))
  }

  lemma {:induction false} StrLessIrreflexive(a: string)
    ensures !StrLess(a, a)
  {
    if |a| > 0 {
      StrLessIrreflexive(a[1..]);
    }
  }

  /** Exactly one of `a < b`, `a == b`, `b < a` holds. */
  lemma {:induction false} StrLessTrichotomy(a: string, b: string)
    ensures StrLess(a, b) || a == b || StrLess(b, a)
    ensures !(StrLess(a, b) && StrLess(b, a))
    decreases |a|
  {
    if |a| > 0 && |b| > 0 && a[0] == b[0] {
      StrLessTrichotomy(a[1..], b[1..]);
      if a[1..] == b[1..] {
        assert a == [a[0]] + a[1..] && b == [b[0]] + b[1..];
      }
    }
  }

  lemma {:induction false} StrLessTransitive(a: string, b: string, c: string)
    requires StrLess(a, b) && StrLess(b, c)
    ensures StrLess(a, c)
    decreases |a|
  {
    if |a| > 0 && a[0] == b[0] && b[0] == c[0] {
      StrLessTransitive(a[1..], b[1..], c[1..]);
    }
  }

  function LowerChar(c: char): char {
    if 'A' <= c <= 'Z' then (c as int + 32) as char else c
  }

  /** `strings.ToLower`, restricted to the ASCII letters (see README). */
  function ToLowerAscii(s: string): (r: string)
    ensures |r| == |s|
    ensures forall i :: 0 <= i < |s| ==> r[i] == LowerChar(s[i])
  {
    seq(|s|, i requires 0 <= i < |s| => LowerChar(s[i]))
  }

  /** Index of the first occurrence of `c` in `s`, or `|s|` when there is none. */
  function IndexOf(s: string, c: char): (i: nat)
    ensures i <= |s|
    ensures i < |s| ==> s[i] == c
  {
    if s == [] then 0 else if s[0] == c then 0 else 1 + IndexOf(s[1..], c)
  }

  function UnitSeconds(u: char): Option<int> {
    if u == 'h' then Some(3600) else if u == 'm' then Some(60) else if u == 's' then Some(1) else None
  }

  /** One token `<int><unit>` of a rendered duration, in seconds. */
  function ReadToken(tok: string): Option<int> {
    if |tok| < 2 then None
    else match UnitSeconds(tok[|tok| - 1])
      case None => None
      case Some(k) =>
        match ParseInt(tok[..|tok| - 1])
        case None => None
        case Some(v) => Some(v * k)
  }

  /** Reads back a duration rendered as space-separated `<int><unit>` tokens
      (`"1h 2m 3s"`, `"25m 0s"`, `"7s"`), as a total number of seconds. */
  function ReadDuration(s: string): Option<int>
    decreases |s|
  {
    var i := IndexOf(s, ' ');
    match ReadToken(s[..i])
    case None => None
    case Some(v) =>
      if i == |s| then Some(v)
      else match ReadDuration(s[i + 1..])
        case None => None
        case Some(w) => Some(v + w)
  }

  lemma {:induction false} NatToStringHasNo(n: nat, c: char)
    requires !IsDigit(c)
    ensures IndexOf(NatToString(n), c) == |NatToString(n)|
  {
    if n >= 10 {
      NatToStringHasNo(n / 10, c);
      IndexOfAppend(NatToString(n / 10), [DigitChar(n % 10)], c);
    }
  }

  lemma IntToStringHasNo(i: int, c: char)
    requires !IsDigit(c) && c != '-'
    ensures IndexOf(IntToString(i), c) == |IntToString(i)|
  {
    if i < 0 {
      NatToStringHasNo(-i, c);
      assert IndexOf("-", c) == 1;
      IndexOfAppend("-", NatToString(-i), c);
    } else {
      NatToStringHasNo(i, c);
    }
  }

  /** A token `"<i><u>"` reads back as `i` times the unit. */
  lemma ReadOneToken(i: int, u: char, k: int)
    requires UnitSeconds(u) == Some(k)
    ensures ReadToken(IntToString(i) + [u]) == Some(i * k)
  {
    var tok := IntToString(i) + [u];
    assert tok[..|tok| - 1] == IntToString(i);
    ParseIntRoundTrip(i);
  }

  /** `<n><unit>` tokens joined by single spaces: what `fmt.Sprintf` prints
      for the formats `"%dh %dm %ds"`, `"%dm %ds"`, `"%dh %dm"` and `"%ds"`. */
  function Render(ts: seq<(int, char)>): string {
    if ts == [] then ""
    else if |ts| == 1 then IntToString(ts[0].0) + [ts[0].1]
    else IntToString(ts[0].0) + [ts[0].1, ' '] + Render(ts[1..])
  }

  predicate KnownUnits(ts: seq<(int, char)>) {
    forall k :: 0 <= k < |ts| ==> UnitSeconds(ts[k].1).Some?
  }

  /** The number of seconds a list of tokens adds up to. */
  function Total(ts: seq<(int, char)>): int
    requires KnownUnits(ts)
  {
    if ts == [] then 0 else ts[0].0 * UnitSeconds(ts[0].1).value + Total(ts[1..])
  }

  /** Reading rendered tokens back gives their total. */
  lemma {:induction false} ReadRender(ts: seq<(int, char)>)
    requires ts != [] && KnownUnits(ts)
    ensures ReadDuration(Render(ts)) == Some(Total(ts))
    decreases |ts|
  {
    if |ts| == 1 {
      ReadRenderOne(ts);
    } else {
      ReadRender(ts[1..]);
      ReadRenderCons(ts);
    }
  }

  lemma ReadRenderOne(ts: seq<(int, char)>)
    requires |ts| == 1 && KnownUnits(ts)
    ensures ReadDuration(Render(ts)) == Some(Total(ts))
  {
    var i, u := ts[0].0, ts[0].1;
    assert UnitSeconds(ts[0].1).Some?;
    ReadLastToken(i, u, UnitSeconds(u).value);
  }

  lemma ReadRenderCons(ts: seq<(int, char)>)
    requires |ts| > 1 && KnownUnits(ts)
    requires ReadDuration(Render(ts[1..])) == Some(Total(ts[1..]))
    ensures ReadDuration(Render(ts)) == Some(Total(ts))
  {
    var i, u := ts[0].0, ts[0].1;
    assert UnitSeconds(u).Some?;
    var k := UnitSeconds(u).value;
    var rest, w := Render(ts[1..]), Total(ts[1..]);
    RenderCons(ts);
    ReadLeadingToken(i, u, k, [u, ' '], rest, w);
    var r := ReadDuration(Render(ts));
    assert r.Some? && r.value == Total(ts);
  }

  lemma RenderCons(ts: seq<(int, char)>)
    requires |ts| > 1 && KnownUnits(ts)
    ensures Render(ts) == IntToString(ts[0].0) + [ts[0].1, ' '] + Render(ts[1..])
    ensures Total(ts) == ts[0].0 * UnitSeconds(ts[0].1).value + Total(ts[1..])
  {
  }

  /** The layouts `"%ds"`, `"%dm %ds"`, `"%dh %dm %ds"` and `"%dh %dm"` read
      back as the seconds they denote. */
  lemma ReadSeconds(sec: int)
    ensures var r := ReadDuration(IntToString(sec) + "s"); r.Some? && r.value == sec
  {
    var ts := [(sec, 's')];
    assert KnownUnits(ts);
    ReadRender(ts);
  }

  lemma ReadMinutesSeconds(m: int, sec: int)
    ensures var r := ReadDuration(IntToString(m) + "m " + IntToString(sec) + "s");
      r.Some? && r.value == m * 60 + sec
  {
    var ts := [(m, 'm'), (sec, 's')];
    assert KnownUnits(ts);
    RenderMinutesSeconds(m, sec);
    ReadRender(ts);
    TotalMinutesSeconds(m, sec);
    var r := ReadDuration(Render(ts));
    assert r.Some? && r.value == m * 60 + sec;
  }

  lemma ReadHoursMinutesSeconds(h: int, m: int, sec: int)
    ensures var r := ReadDuration(IntToString(h) + "h " + IntToString(m) + "m " + IntToString(sec) + "s");
      r.Some? && r.value == h * 3600 + m * 60 + sec
  {
    var ts := [(h, 'h'), (m, 'm'), (sec, 's')];
    assert KnownUnits(ts);
    RenderHoursMinutesSeconds(h, m, sec);
    ReadRender(ts);
    RenderCons(ts);
    assert ts[1..] == [(m, 'm'), (sec, 's')];
    TotalMinutesSeconds(m, sec);
    var r := ReadDuration(Render(ts));
    assert r.Some? && r.value == h * 3600 + m * 60 + sec;
  }

  lemma ReadHoursMinutes(h: int, m: int)
    ensures var r := ReadDuration(IntToString(h) + "h " + IntToString(m) + "m");
      r.Some? && r.value == h * 3600 + m * 60
  {
    var ts := [(h, 'h'), (m, 'm')];
    assert KnownUnits(ts);
    RenderHoursMinutes(h, m);
    ReadRender(ts);
    RenderCons(ts);
    assert ts[1..] == [(m, 'm')];
    var r := ReadDuration(Render(ts));
    assert r.Some? && r.value == h * 3600 + m * 60;
  }

  lemma TotalMinutesSeconds(m: int, sec: int)
    ensures KnownUnits([(m, 'm'), (sec, 's')]) && Total([(m, 'm'), (sec, 's')]) == m * 60 + sec
  {
    var ts := [(m, 'm'), (sec, 's')];
    assert KnownUnits(ts);
    RenderCons(ts);
    assert ts[1..] == [(sec, 's')];
  }

  lemma RenderMinutesSeconds(m: int, sec: int)
    ensures Render([(m, 'm'), (sec, 's')]) == IntToString(m) + "m " + IntToString(sec) + "s"
  {
    var ts := [(m, 'm'), (sec, 's')];
    assert KnownUnits(ts);
    RenderCons(ts);
    assert ts[1..] == [(sec, 's')];
  }

  lemma RenderHoursMinutesSeconds(h: int, m: int, sec: int)
    ensures Render([(h, 'h'), (m, 'm'), (sec, 's')])
         == IntToString(h) + "h " + IntToString(m) + "m " + IntToString(sec) + "s"
  {
    var ts := [(h, 'h'), (m, 'm'), (sec, 's')];
    assert KnownUnits(ts);
    RenderCons(ts);
    assert ts[1..] == [(m, 'm'), (sec, 's')];
    RenderMinutesSeconds(m, sec);
  }

  lemma RenderHoursMinutes(h: int, m: int)
    ensures Render([(h, 'h'), (m, 'm')]) == IntToString(h) + "h " + IntToString(m) + "m"
  {
    var ts := [(h, 'h'), (m, 'm')];
    assert KnownUnits(ts);
    RenderCons(ts);
    assert ts[1..] == [(m, 'm')];
  }

  /** The last token of a rendered duration. */
  lemma ReadLastToken(i: int, u: char, k: int)
    requires UnitSeconds(u) == Some(k)
    ensures ReadDuration(IntToString(i) + [u]) == Some(i * k)
  {
    var s := IntToString(i) + [u];
    IntToStringHasNo(i, ' ');
    IndexOfAppend(IntToString(i), [u], ' ');
    assert IndexOf(s, ' ') == |s|;
    assert s[..|s|] == s;
    ReadOneToken(i, u, k);
  }

  /** A leading token followed by a space and more tokens. */
  lemma ReadLeadingToken(i: int, u: char, k: int, sep: string, rest: string, w: int)
    requires UnitSeconds(u) == Some(k) && sep == [u, ' ']
    requires ReadDuration(rest) == Some(w)
    ensures ReadDuration(IntToString(i) + sep + rest) == Some(i * k + w)
  {
    var head := IntToString(i) + [u];
    IntToStringHasNo(i, ' ');
    IndexOfAppend(IntToString(i), [u], ' ');
    ReadOneToken(i, u, k);
    ReadAfterSpace(head, rest, i * k, w);
    AppendAssoc(IntToString(i), [u], [' ']);
    assert [u] + [' '] == [u, ' '];
  }

  lemma AppendAssoc(a: string, b: string, c: string)
    ensures a + b + c == a + (b + c)
  {
  }

  /** A string made of a token without spaces, a space and a remainder is read
      token first. */
  lemma ReadAfterSpace(head: string, rest: string, v: int, w: int)
    requires IndexOf(head, ' ') == |head|
    requires ReadToken(head) == Some(v) && ReadDuration(rest) == Some(w)
    ensures ReadDuration(head + " " + rest) == Some(v + w)
  {
    var s := head + " " + rest;
    assert s == head + (" " + rest);
    IndexOfAppend(head, " " + rest, ' ');
    var i := IndexOf(s, ' ');
    assert i == |head|;
    assert s[..i] == head;
    assert s[i + 1..] == rest;
  }

  lemma {:induction false} IndexOfAppend(a: string, b: string, c: char)
    requires IndexOf(a, c) == |a|
    ensures IndexOf(a + b, c) == |a| + IndexOf(b, c)
  {
    if a != [] {
      assert (a + b)[1..] == a[1..] + b;
      IndexOfAppend(a[1..], b, c);
    } else {
      assert a + b == b;
    }
  }
}
