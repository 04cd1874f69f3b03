/**
 * The two uses of Python's `datetime.strptime` that the core relies on,
 * written out as the regular expressions `_strptime` builds for them.
 * A directive matches as follows (the whole string must be consumed):
 *   %H  `2[0-3]|[0-1]\d|\d`        one or two digits, value 0..23
 *   %I  `1[0-2]|0[1-9]|[1-9]`      one or two digits, value 1..12
 *   %M  `[0-5]\d|\d`               one or two digits, value 0..59
 *   %p  `am|pm`, case-insensitive
 *   a space in the format          `\s+`, one or more whitespace characters
 * Results are minutes since midnight.
 */
module Strptime {
  import opened Common

  predicate IsDigit(c: char)
  {
    '0' <= c <= '9'
  }

  function DigitValue(c: char): (v: int)
    requires IsDigit(c)
    ensures 0 <= v < 10
  {
    c as int - '0' as int
  }

  function Digit(v: int): (c: char)
    requires 0 <= v < 10
    ensures IsDigit(c) && DigitValue(c) == v
  {
    ('0' as int + v) as char
  }

  /** A numeric field of one or two digits. */
  predicate IsNumeral(f: string)
  {
    1 <= |f| <= 2 && IsDigit(f[0]) && (|f| == 2 ==> IsDigit(f[1]))
  }

  function NumeralValue(f: string): (v: int)
    requires IsNumeral(f)
    ensures 0 <= v < 100
    ensures |f| == 1 ==> v < 10
  {
    if |f| == 1 then DigitValue(f[0]) else 10 * DigitValue(f[0]) + DigitValue(f[1])
  }

  /** `v` written in decimal, zero-padded to two digits when `pad` holds. */
  function Numeral(v: int, pad: bool): string
    requires 0 <= v < 100
  {
    if pad || v >= 10 then [Digit(v / 10), Digit(v % 10)] else [Digit(v)]
  }

  lemma NumeralRoundTrip(v: int, pad: bool)
    requires 0 <= v < 100
    ensures IsNumeral(Numeral(v, pad)) && NumeralValue(Numeral(v, pad)) == v
    ensures |Numeral(v, pad)| == 2 <==> pad || v >= 10
  {
  }

  /** Every one- or two-digit field is the spelling of its value. */
  lemma {:induction false} NumeralSpelling(f: string)
    requires IsNumeral(f)
    ensures f == Numeral(NumeralValue(f), |f| == 2)
  {
    var v := NumeralValue(f);
    if |f| == 2 {
      var a, b := DigitValue(f[0]), DigitValue(f[1]);
      assert v / 10 == a && v % 10 == b;
      assert Digit(a) == f[0] && Digit(b) == f[1];
    } else {
      assert Digit(v) == f[0];
    }
  }

  /** The index of the first `c` in `s`, or `|s|` when there is none. */
  function IndexOf(s: string, c: char): (i: nat)
    ensures i <= |s|
    ensures i < |s| ==> s[i] == c
    ensures forall k :: 0 <= k < i ==> s[k] != c
  {
    IndexOfFrom(s, c, 0)
  }

  /** The index of the first `c` in `s` at or after `from`, or `|s|`. */
  function IndexOfFrom(s: string, c: char, from: nat): (i: nat)
    requires from <= |s|
    ensures from <= i <= |s|
    ensures i < |s| ==> s[i] == c
    ensures forall k :: from <= k < i ==> s[k] != c
    decreases |s| - from
  {
    if from == |s| || s[from] == c then from else IndexOfFrom(s, c, from + 1)
  }

  // ---------------------------------------------------------------------------
  // "%H:%M"

  /** `datetime.strptime(s, "%H:%M").time()`, or `None` where it raises ValueError. */
  function ParseHourMinute(s: string): (r: Option<int>)
    ensures r.Some? ==> 0 <= r.value < 1440
  {
    var i := IndexOf(s, ':');
    if i < |s| && IsNumeral(s[..i]) && IsNumeral(s[i + 1..])
       && NumeralValue(s[..i]) <= 23 && NumeralValue(s[i + 1..]) <= 59
    then Some(60 * NumeralValue(s[..i]) + NumeralValue(s[i + 1..]))
    else None
  }

  /** A spelling of minute-of-day `t` as "%H:%M" accepts it, padded or not. */
  function SpellHourMinute(t: int, padHour: bool, padMinute: bool): string
    requires 0 <= t < 1440
  {
    Numeral(t / 60, padHour) + ":" + Numeral(t % 60, padMinute)
  }

  /** Every spelling parses back to the minute it spells. */
  lemma {:induction false} ParseSpelledHourMinute(t: int, padHour: bool, padMinute: bool)
    requires 0 <= t < 1440
    ensures ParseHourMinute(SpellHourMinute(t, padHour, padMinute)) == Some(t)
  {
    var h, m := Numeral(t / 60, padHour), Numeral(t % 60, padMinute);
    var s := SpellHourMinute(t, padHour, padMinute);
    NumeralRoundTrip(t / 60, padHour);
    NumeralRoundTrip(t % 60, padMinute);
    NumeralThenColon(h, m);
    var i := IndexOf(s, ':');
    assert i == |h|;
    assert s[..i] == h;
    assert s[i + 1..] == m;
  }

  /** Only the spellings of `t` parse to `t`: padding is the only freedom. */
  lemma {:induction false} ParsedHourMinuteIsSpelled(s: string)
    requires ParseHourMinute(s).Some?
    ensures exists ph: bool, pm: bool :: s == SpellHourMinute(ParseHourMinute(s).value, ph, pm)
  {
    var i := IndexOf(s, ':');
    var h, m := s[..i], s[i + 1..];
    var t := ParseHourMinute(s).value;
    NumeralSpelling(h);
    NumeralSpelling(m);
    assert t / 60 == NumeralValue(h) && t % 60 == NumeralValue(m);
    assert s == h + ":" + m;
    assert s == SpellHourMinute(t, |h| == 2, |m| == 2);
  }

  // ---------------------------------------------------------------------------
  // "%I:%M %p"

  /** Python's `str.isspace`, the class `\s` matches in a `str` pattern. */
  predicate IsSpace(c: char)
  {
    if c <= ' ' then '\t' <= c <= '\r' || '\U{1c}' <= c
    else '\U{85}' <= c && IsWideSpace(c)
  }

  /** The whitespace characters beyond ASCII. */
  predicate IsWideSpace(c: char)
  {
    || c == '\U{85}' || c == '\U{a0}' || c == '\U{1680}' || '\U{2000}' <= c <= '\U{200a}'
    || c == '\U{2028}' || c == '\U{2029}' || c == '\U{202f}' || c == '\U{205f}' || c == '\U{3000}'
  }

  /**
   * The 29 characters `str.isspace` accepts, listed one by one: the ASCII
   * tab, line feed, vertical tab, form feed, carriage return, the four
   * information separators and the space, then the Unicode spaces and
   * line/paragraph separators.
   */
  const PythonWhitespace: set<char> := {
    '\t', '\n', '\U{0b}', '\U{0c}', '\r', '\U{1c}', '\U{1d}', '\U{1e}', '\U{1f}', ' ',
    '\U{85}', '\U{a0}', '\U{1680}',
    '\U{2000}', '\U{2001}', '\U{2002}', '\U{2003}', '\U{2004}', '\U{2005}',
    '\U{2006}', '\U{2007}', '\U{2008}', '\U{2009}', '\U{200a}',
    '\U{2028}', '\U{2029}', '\U{202f}', '\U{205f}', '\U{3000}'}

  /** The range tests of `IsSpace` accept exactly the listed whitespace characters. */
  lemma IsSpaceIsPythonWhitespace(c: char)
    ensures IsSpace(c) <==> c in PythonWhitespace
  {
  }

  /** The index of the first character of `s` that is not whitespace (or `|s|`). */
  function SkipSpaces(s: string): (i: nat)
    ensures i <= |s|
    ensures i < |s| ==> !IsSpace(s[i])
    ensures forall k :: 0 <= k < i ==> IsSpace(s[k])
  {
    SkipSpacesFrom(s, 0)
  }

  /** The index of the first non-whitespace character of `s` at or after `from`, or `|s|`. */
  function SkipSpacesFrom(s: string, from: nat): (i: nat)
    requires from <= |s|
    ensures from <= i <= |s|
    ensures i < |s| ==> !IsSpace(s[i])
    ensures forall k :: from <= k < i ==> IsSpace(s[k])
    decreases |s| - from
  {
    if from == |s| || !IsSpace(s[from]) then from else SkipSpacesFrom(s, from + 1)
  }

  /** `%p` under `re.IGNORECASE`: `Some(false)` for AM, `Some(true)` for PM. */
  function ParseMeridiem(p: string): (r: Option<bool>)
    ensures r.Some? ==> |p| == 2 && (p[1] == 'm' || p[1] == 'M')
    ensures r == Some(false) <==> |p| == 2 && (p[0] == 'a' || p[0] == 'A') && (p[1] == 'm' || p[1] == 'M')
    ensures r == Some(true) <==> |p| == 2 && (p[0] == 'p' || p[0] == 'P') && (p[1] == 'm' || p[1] == 'M')
  {
    if |p| != 2 || !(p[1] == 'm' || p[1] == 'M') then None
    else if p[0] == 'a' || p[0] == 'A' then Some(false)
    else if p[0] == 'p' || p[0] == 'P' then Some(true)
    else None
  }

  /**
   * The 12-hour rule of `_strptime`: 12 AM is hour 0, 12 PM is hour 12,
   * any other PM hour gains 12.
   */
  function To24Hour(hour12: int, pm: bool): (h: int)
    requires 1 <= hour12 <= 12
    ensures 0 <= h < 24
    ensures pm <==> h >= 12
  {
    if pm then (if hour12 == 12 then 12 else hour12 + 12)
    else (if hour12 == 12 then 0 else hour12)
  }

  /**
   * The result is the unique hour of the day that is in the afternoon exactly
   * when `pm` holds and agrees with `hour12` modulo 12.
   */
  lemma To24HourModTwelve(hour12: int, pm: bool, h: int)
    requires 1 <= hour12 <= 12 && 0 <= h < 24
    ensures h == To24Hour(hour12, pm) <==> ((pm <==> h >= 12) && h % 12 == hour12 % 12)
  {
  }

  /**
   * The time part of `strptime(f"{date} {text}", "%Y-%m-%d %I:%M %p")`:
   * the format's space becomes `\s+`, which also absorbs any whitespace at the
   * start of `text`; another run of whitespace separates the minutes from the
   * AM/PM marker, which ends the string.
   */
  function ParseClock12(text: string): (r: Option<int>)
    ensures r.Some? ==> 0 <= r.value < 1440
  {
    ParseClockFields(text[SkipSpaces(text)..])
  }

  /** The hour field runs up to the colon. */
  function ParseClockFields(rest: string): (r: Option<int>)
    ensures r.Some? ==> 0 <= r.value < 1440
  {
    var i := IndexOf(rest, ':');
    if i == |rest| then None
    else if IsNumeral(rest[..i]) && 1 <= NumeralValue(rest[..i]) <= 12
    then ParseMinuteMarker(NumeralValue(rest[..i]), rest[i + 1..])
    else None
  }

  /** After the colon: the minute field, whitespace, and the two-letter marker at the end. */
  function ParseMinuteMarker(hour12: int, tail: string): (r: Option<int>)
    requires 1 <= hour12 <= 12
    ensures r.Some? ==> 0 <= r.value < 1440
  {
    if |tail| < 2 then None
    else
      var body, marker := tail[..|tail| - 2], tail[|tail| - 2..];
      var k := IndexOfSpace(body);
      if IsNumeral(body[..k]) && NumeralValue(body[..k]) <= 59
         && k < |body| && AllSpaces(body[k..]) && ParseMeridiem(marker).Some?
      then Some(60 * To24Hour(hour12, ParseMeridiem(marker).value) + NumeralValue(body[..k]))
      else None
  }

  predicate AllSpaces(s: string)
  {
    forall k :: 0 <= k < |s| ==> IsSpace(s[k])
  }

  /** The index of the first whitespace character of `s` (or `|s|`). */
  function IndexOfSpace(s: string): (i: nat)
    ensures i <= |s|
    ensures i < |s| ==> IsSpace(s[i])
    ensures forall k :: 0 <= k < i ==> !IsSpace(s[k])
  {
    IndexOfSpaceFrom(s, 0)
  }

  /** The index of the first whitespace character of `s` at or after `from`, or `|s|`. */
  function IndexOfSpaceFrom(s: string, from: nat): (i: nat)
    requires from <= |s|
    ensures from <= i <= |s|
    ensures i < |s| ==> IsSpace(s[i])
    ensures forall k :: from <= k < i ==> !IsSpace(s[k])
    decreases |s| - from
  {
    if from == |s| || IsSpace(s[from]) then from else IndexOfSpaceFrom(s, from + 1)
  }

  /** The hour on the 12-hour clock: 12 for hours 0 and 12. */
  function Hour12(h: int): (r: int)
    requires 0 <= h < 24
    ensures 1 <= r <= 12 && To24Hour(r, h >= 12) == h
  {
    if h % 12 == 0 then 12 else h % 12
  }

  /** `strftime("%I:%M %p")` of minute-of-day `t`, as WeatherAPI writes sunrise and sunset. */
  function FormatClock12(t: int): string
    requires 0 <= t < 1440
  {
    Numeral(Hour12(t / 60), true) + ":" + Numeral(t % 60, true) + " " + Meridiem(t / 60)
  }

  /** `%p`: "AM" before noon, "PM" from noon on. */
  function Meridiem(h: int): (p: string)
    ensures ParseMeridiem(p) == Some(h >= 12)
  {
    if h >= 12 then "PM" else "AM"
  }

  lemma DigitIsNotSpace(c: char)
    requires IsDigit(c)
    ensures !IsSpace(c) && c != ':'
  {
  }

  lemma SkipSpacesPrefix(lead: string, rest: string)
    requires AllSpaces(lead)
    requires rest != [] && !IsSpace(rest[0])
    ensures SkipSpaces(lead + rest) == |lead|
  {
    var s := lead + rest;
    var i := SkipSpaces(s);
    assert s[|lead|] == rest[0];
    assert forall k :: 0 <= k < |lead| ==> s[k] == lead[k];
  }

  lemma NumeralThenSpace(f: string, gap: string)
    requires IsNumeral(f) && gap != [] && IsSpace(gap[0])
    ensures IndexOfSpace(f + gap) == |f|
  {
    var s := f + gap;
    var i := IndexOfSpace(s);
    assert s[|f|] == gap[0];
    DigitIsNotSpace(f[0]);
    assert s[0] == f[0];
    if |f| == 2 {
      DigitIsNotSpace(f[1]);
      assert s[1] == f[1];
    }
  }

  lemma NumeralThenColon(f: string, q: string)
    requires IsNumeral(f)
    ensures IndexOf(f + ":" + q, ':') == |f|
  {
    var s := f + ":" + q;
    var i := IndexOf(s, ':');
    assert s[|f|] == ':';
    DigitIsNotSpace(f[0]);
    assert s[0] == f[0];
    if |f| == 2 {
      DigitIsNotSpace(f[1]);
      assert s[1] == f[1];
    }
  }

  /**
   * Every string `ws* I ":" M ws+ P` parses: leading whitespace, an hour
   * field 1..12, a minute field 0..59, at least one whitespace character,
   * and an AM/PM marker in any letter case, read on the 24-hour clock.
   */
  lemma ParseSpelledClock12(lead: string, hourText: string, minuteText: string,
                            gap: string, marker: string)
    requires AllSpaces(lead)
    requires IsNumeral(hourText) && 1 <= NumeralValue(hourText) <= 12
    requires IsNumeral(minuteText) && NumeralValue(minuteText) <= 59
    requires gap != [] && AllSpaces(gap)
    requires ParseMeridiem(marker).Some?
    ensures ParseClock12(lead + hourText + ":" + minuteText + gap + marker)
         == Some(60 * To24Hour(NumeralValue(hourText), ParseMeridiem(marker).value)
                 + NumeralValue(minuteText))
  {
    ParseClock12Of(lead + hourText + ":" + minuteText + gap + marker, lead, hourText, minuteText, gap, marker);
  }

  lemma ConcatAssoc5(a: string, b: string, c: string, d: string, e: string, f: string)
    ensures a + b + c + d + e + f == a + (b + c + d + e + f)
  {
  }

  /** `ParseClock12` skips the leading whitespace and reads the fields after it. */
  lemma SkipLeadStep(text: string, lead: string, rest: string)
    requires text == lead + rest
    requires AllSpaces(lead) && rest != [] && !IsSpace(rest[0])
    ensures ParseClock12(text) == ParseClockFields(rest)
  {
    SkipSpacesPrefix(lead, rest);
    assert text[|lead|..] == rest;
  }

  /** `ParseClockFields` splits at the colon after a valid hour field. */
  lemma ClockFieldsStep(rest: string, hourText: string, tail: string)
    requires IsNumeral(hourText) && 1 <= NumeralValue(hourText) <= 12
    requires |hourText| < |rest| && IndexOf(rest, ':') == |hourText|
    requires rest[..|hourText|] == hourText && rest[|hourText| + 1..] == tail
    ensures ParseClockFields(rest) == ParseMinuteMarker(NumeralValue(hourText), tail)
  {
    var i := IndexOf(rest, ':');
    assert rest[..i] == hourText && rest[i + 1..] == tail;
  }

  /** After an hour field and a colon, `IndexOf` stops at that colon. */
  lemma ColonSplit(rest: string, hourText: string, tail: string)
    requires rest == hourText + ":" + tail && IsNumeral(hourText)
    ensures |hourText| < |rest| && IndexOf(rest, ':') == |hourText|
    ensures rest[..|hourText|] == hourText && rest[|hourText| + 1..] == tail
  {
    NumeralThenColon(hourText, tail);
  }

  lemma ParseFieldsSpelled(rest: string, hourText: string, tail: string, minuteText: string, gap: string, marker: string)
    requires rest == hourText + ":" + tail && tail == minuteText + gap + marker
    requires IsNumeral(hourText) && 1 <= NumeralValue(hourText) <= 12
    requires IsNumeral(minuteText) && NumeralValue(minuteText) <= 59
    requires gap != [] && AllSpaces(gap)
    requires ParseMeridiem(marker).Some?
    ensures ParseClockFields(rest)
         == Some(60 * To24Hour(NumeralValue(hourText), ParseMeridiem(marker).value)
                 + NumeralValue(minuteText))
  {
    HourFieldStep(rest, hourText, tail);
    ParseMinuteMarkerSpelled(tail, NumeralValue(hourText), minuteText, gap, marker);
  }

  /** A valid hour field and a colon hand the rest of the text to `ParseMinuteMarker`. */
  lemma HourFieldStep(rest: string, hourText: string, tail: string)
    requires rest == hourText + ":" + tail
    requires IsNumeral(hourText) && 1 <= NumeralValue(hourText) <= 12
    ensures ParseClockFields(rest) == ParseMinuteMarker(NumeralValue(hourText), tail)
  {
    ColonSplit(rest, hourText, tail);
    ClockFieldsStep(rest, hourText, tail);
  }

  /** `ParseMinuteMarker` reads the minute field up to the whitespace and the marker at the end. */
  lemma MinuteMarkerStep(tail: string, hour12: int, minuteText: string, gap: string, marker: string)
    requires 1 <= hour12 <= 12
    requires |tail| >= 2 && tail[..|tail| - 2] == minuteText + gap && tail[|tail| - 2..] == marker
    requires IndexOfSpace(minuteText + gap) == |minuteText|
    requires (minuteText + gap)[..|minuteText|] == minuteText && (minuteText + gap)[|minuteText|..] == gap
    requires IsNumeral(minuteText) && NumeralValue(minuteText) <= 59
    requires gap != [] && AllSpaces(gap)
    requires ParseMeridiem(marker).Some?
    ensures ParseMinuteMarker(hour12, tail)
         == Some(60 * To24Hour(hour12, ParseMeridiem(marker).value) + NumeralValue(minuteText))
  {
  }

  lemma ParseMinuteMarkerSpelled(tail: string, hour12: int, minuteText: string, gap: string, marker: string)
    requires tail == minuteText + gap + marker
    requires 1 <= hour12 <= 12
    requires IsNumeral(minuteText) && NumeralValue(minuteText) <= 59
    requires gap != [] && AllSpaces(gap)
    requires ParseMeridiem(marker).Some?
    ensures ParseMinuteMarker(hour12, tail)
         == Some(60 * To24Hour(hour12, ParseMeridiem(marker).value) + NumeralValue(minuteText))
  {
    assert tail[..|tail| - 2] == minuteText + gap;
    assert tail[|tail| - 2..] == marker;
    NumeralThenSpace(minuteText, gap);
    assert (minuteText + gap)[..|minuteText|] == minuteText;
    assert (minuteText + gap)[|minuteText|..] == gap;
    MinuteMarkerStep(tail, hour12, minuteText, gap, marker);
  }

  /** Parsing the 12-hour spelling of a time gives that time back. */
  lemma ParseFormattedClock12(t: int)
    requires 0 <= t < 1440
    ensures ParseClock12(FormatClock12(t)) == Some(t)
  {
    var hour, minute := t / 60, t % 60;
    FormattedFields(hour, minute);
    ParseUnindented(Numeral(Hour12(hour), true), Numeral(minute, true), " ", Meridiem(hour));
  }

  /** The fields `FormatClock12` writes are the ones `ParseClock12` accepts, with their values. */
  lemma FormattedFields(hour: int, minute: int)
    requires 0 <= hour < 24 && 0 <= minute < 60
    ensures IsNumeral(Numeral(Hour12(hour), true)) && NumeralValue(Numeral(Hour12(hour), true)) == Hour12(hour)
    ensures IsNumeral(Numeral(minute, true)) && NumeralValue(Numeral(minute, true)) == minute
    ensures AllSpaces(" ")
    ensures 60 * To24Hour(Hour12(hour), ParseMeridiem(Meridiem(hour)).value) + minute == 60 * hour + minute
  {
    NumeralRoundTrip(Hour12(hour), true);
    NumeralRoundTrip(minute, true);
    OneSpace();
  }

  lemma ParseUnindented(hourText: string, minuteText: string, gap: string, marker: string)
    requires IsNumeral(hourText) && 1 <= NumeralValue(hourText) <= 12
    requires IsNumeral(minuteText) && NumeralValue(minuteText) <= 59
    requires gap != [] && AllSpaces(gap)
    requires ParseMeridiem(marker).Some?
    ensures ParseClock12(hourText + ":" + minuteText + gap + marker)
         == Some(60 * To24Hour(NumeralValue(hourText), ParseMeridiem(marker).value)
                 + NumeralValue(minuteText))
  {
    var text := hourText + ":" + minuteText + gap + marker;
    assert text == [] + hourText + ":" + minuteText + gap + marker;
    ParseClock12Of(text, [], hourText, minuteText, gap, marker);
  }

  lemma OneSpace()
    ensures AllSpaces(" ")
  {
    assert IsSpace(" "[0]);
  }

  lemma ParseClock12Of(text: string, lead: string, hourText: string, minuteText: string,
                       gap: string, marker: string)
    requires text == lead + hourText + ":" + minuteText + gap + marker
    requires AllSpaces(lead)
    requires IsNumeral(hourText) && 1 <= NumeralValue(hourText) <= 12
    requires IsNumeral(minuteText) && NumeralValue(minuteText) <= 59
    requires gap != [] && AllSpaces(gap)
    requires ParseMeridiem(marker).Some?
    ensures ParseClock12(text)
         == Some(60 * To24Hour(NumeralValue(hourText), ParseMeridiem(marker).value)
                 + NumeralValue(minuteText))
  {
    var tail := minuteText + gap + marker;
    var rest := hourText + ":" + tail;
    ConcatAssoc5(lead, hourText, ":", minuteText, gap, marker);
    DigitIsNotSpace(hourText[0]);
    SkipLeadStep(text, lead, rest);
    ParseFieldsSpelled(rest, hourText, tail, minuteText, gap, marker);
  }
}
