/**
 * The timestamp codec of the subtitle library: whole milliseconds to `HH:MM:SS,mmm`
 * (`HH:MM:SS.mmm` for WebVTT) and back, through the pattern
 * `^(?:(\d+):)?(\d{2}):(\d{2})[,.](\d{3})$` written out character by character.
 */
module Timestamp {
  import opened Strings
  import opened Wrappers
  import opened Errors

  datatype Format = Srt | Vtt

  const MsPerHour: nat := 3600000
  const MsPerMinute: nat := 60000
  const MsPerSecond: nat := 1000
  /** The range in which the `Date` arithmetic of the library equals plain division. */
  const MsPerDay: nat := 86400000

  function Separator(f: Format): char {
    if f == Vtt then '.' else ','
  }

  predicate IsSeparator(c: char) {
    c == ',' || c == '.'
  }

  /** The optional `(\d+):` hour group: empty, or digits followed by a colon. */
  predicate IsHourPrefix(p: string) {
    p == [] || (|p| >= 2 && p[|p| - 1] == ':' && AllDigits(p[..|p| - 1]))
  }

  /** The whole-string timestamp pattern: the fixed `MM:SS,mmm` tail and the optional hour group. */
  predicate IsTimestampText(s: string) {
    && |s| >= 9
    && IsDigit(s[|s| - 9]) && IsDigit(s[|s| - 8]) && s[|s| - 7] == ':'
    && IsDigit(s[|s| - 6]) && IsDigit(s[|s| - 5]) && IsSeparator(s[|s| - 4])
    && IsDigit(s[|s| - 3]) && IsDigit(s[|s| - 2]) && IsDigit(s[|s| - 1])
    && IsHourPrefix(s[..|s| - 9])
  }

  lemma TimestampTextHasNoSpace(s: string)
    requires IsTimestampText(s)
    ensures ' ' !in s
  {
    var p := s[..|s| - 9];
    forall i | 0 <= i < |s| ensures s[i] != ' ' {
      if i < |p| - 1 {
        assert s[i] == p[..|p| - 1][i];
      }
    }
  }

  /** The milliseconds of the hour group (with its colon), the minutes, the seconds and the milliseconds. */
  function ClockValue(p: string, mm: string, ss: string, mmm: string): nat
    requires IsHourPrefix(p) && AllDigits(mm) && AllDigits(ss) && AllDigits(mmm)
  {
    (if p == [] then 0 else DigitsValue(p[..|p| - 1]) * 3600000)
    + DigitsValue(mm) * 60000 + DigitsValue(ss) * 1000 + DigitsValue(mmm)
  }

  /** `parseTimestamp`: the milliseconds the text denotes, or the error it throws. */
  function ParseTimestamp(s: string): (r: Result<int, Error>)
    ensures r.Ok? <==> IsTimestampText(s)
    ensures r.Err? ==> r.error == TimeFormat(s)
    ensures r.Ok? ==> r.value >= 0
  {
    if !IsTimestampText(s) then Err(TimeFormat(s))
    else
      TimestampDigits(s);
      Ok(ClockValue(s[..|s| - 9], s[|s| - 9..|s| - 7], s[|s| - 6..|s| - 4], s[|s| - 3..]))
  }

  /** The digit groups of a timestamp text. */
  lemma TimestampDigits(s: string)
    requires IsTimestampText(s)
    ensures AllDigits(s[|s| - 9..|s| - 7]) && AllDigits(s[|s| - 6..|s| - 4]) && AllDigits(s[|s| - 3..])
  {
    var n := |s|;
    assert s[n - 9..n - 7] == [s[n - 9], s[n - 8]];
    assert s[n - 6..n - 4] == [s[n - 6], s[n - 5]];
    assert s[n - 3..] == [s[n - 3], s[n - 2], s[n - 1]];
  }

  /** `getHours()` of `new Date(0, 0, 0, 0, 0, 0, t)`: the hour of the day of `t` milliseconds. */
  function Hours(t: int): (h: nat)
    ensures h < 24
  {
    (t / 3600000) % 24
  }

  /** `getMinutes()`: the minute of the hour. */
  function Minutes(t: int): (m: nat)
    ensures m < 60
  {
    (t / 60000) % 60
  }

  /** `getSeconds()`: the second of the minute. */
  function Seconds(t: int): (s: nat)
    ensures s < 60
  {
    (t / 1000) % 60
  }

  /** The `ms` of `formatTimestamp`: what is left of `t` after the clock fields of the day. */
  function Millis(t: int): int {
    t - (Hours(t) * 3600000 + Minutes(t) * 60000 + Seconds(t) * 1000)
  }

  /** Whole hours and the rest are determined by any quotient and remainder in range. */
  lemma HoursOf(t: int, q: int, r: int)
    requires 0 <= r < 3600000 && t == q * 3600000 + r
    ensures t / 3600000 == q
  {
  }

  /** Whole minutes and the rest are determined by any quotient and remainder in range. */
  lemma MinutesOf(t: int, q: int, r: int)
    requires 0 <= r < 60000 && t == q * 60000 + r
    ensures t / 60000 == q
  {
  }

  /** Within one day the clock fields are the plain quotients, and the milliseconds are `t % 1000`. */
  lemma ClockFields(t: int)
    requires 0 <= t < MsPerDay
    ensures Hours(t) == t / 3600000
    ensures Minutes(t) == t % 3600000 / 60000
    ensures Seconds(t) == t % 60000 / 1000
    ensures Millis(t) == t % 1000
  {
    var mins, r2 := t / 60000, t % 60000;
    var secs, r3 := t / 1000, t % 1000;
    HoursOf(t, mins / 60, mins % 60 * 60000 + r2);
    MinutesOf(t, secs / 60, secs % 60 * 1000 + r3);
    assert t / 3600000 < 24;
    MinutesOf(t % 3600000, mins % 60, r2);
    assert t % 60000 / 1000 == secs % 60 by {
      MinutesOf(t, secs / 60, secs % 60 * 1000 + r3);
    }
  }

  /**
   * `formatTimestamp`: hours, minutes and seconds as two digits each, the separator of the
   * format and at least three characters of milliseconds.
   */
  function FormatTimestamp(t: int, f: Format): string {
    Clock(Hours(t), Minutes(t), Seconds(t), Millis(t), f)
  }

  /** Every formatted time starts with the two-digit clock fields of its day, separated as the format says. */
  lemma FormatShape(t: int, f: Format)
    ensures var r := FormatTimestamp(t, f);
      && |r| >= 12 && r[2] == ':' && r[5] == ':' && r[8] == Separator(f)
      && AllDigits(r[..2]) && DigitsValue(r[..2]) == Hours(t)
      && AllDigits(r[3..5]) && DigitsValue(r[3..5]) == Minutes(t)
      && AllDigits(r[6..8]) && DigitsValue(r[6..8]) == Seconds(t)
  {
    ClockShape(FormatTimestamp(t, f), Hours(t), Minutes(t), Seconds(t), Millis(t), f);
  }

  /** The text of the four clock fields, each padded to its width. */
  function Clock(hours: nat, minutes: nat, seconds: nat, ms: int, f: Format): string {
    PadLeft(hours, 2) + ":" + PadLeft(minutes, 2) + ":" + PadLeft(seconds, 2) + [Separator(f)] + PadLeft(ms, 3)
  }

  /** Fields below 100 fill two digits each; milliseconds below 1000 give the timestamp shape. */
  lemma ClockShape(r: string, hours: nat, minutes: nat, seconds: nat, ms: int, f: Format)
    requires hours < 100 && minutes < 100 && seconds < 100 && r == Clock(hours, minutes, seconds, ms, f)
    ensures |r| >= 12 && r[2] == ':' && r[5] == ':' && r[8] == Separator(f)
    ensures AllDigits(r[..2]) && DigitsValue(r[..2]) == hours
    ensures AllDigits(r[3..5]) && DigitsValue(r[3..5]) == minutes
    ensures AllDigits(r[6..8]) && DigitsValue(r[6..8]) == seconds
    ensures 0 <= ms < 1000 ==> |r| == 12 && IsTimestampText(r) && AllDigits(r[9..]) && DigitsValue(r[9..]) == ms
  {
    var hh, mm, ss, mmm := PadLeft(hours, 2), PadLeft(minutes, 2), PadLeft(seconds, 2), PadLeft(ms, 3);
    PadLeftValue(hours, 2);
    PadLeftValue(minutes, 2);
    PadLeftValue(seconds, 2);
    ClockPieces(r, hh, mm, ss, Separator(f), mmm);
    MillisText(ms);
    if 0 <= ms < 1000 {
      ClockText(r, hh, mm, ss, Separator(f), mmm);
    }
  }

  /** Milliseconds below a second pad to exactly three digits. */
  lemma MillisText(ms: int)
    ensures 0 <= ms < 1000 ==> |PadLeft(ms, 3)| == 3 && AllDigits(PadLeft(ms, 3)) && DigitsValue(PadLeft(ms, 3)) == ms
  {
    if 0 <= ms < 1000 {
      PadLeftValue(ms, 3);
    }
  }

  /** Within one day the text has the timestamp shape, with the milliseconds as its last three digits. */
  lemma FormatWithinDay(t: int, f: Format)
    requires 0 <= t < MsPerDay
    ensures |FormatTimestamp(t, f)| == 12 && IsTimestampText(FormatTimestamp(t, f))
    ensures DigitsValue(FormatTimestamp(t, f)[9..]) == t % 1000
  {
    ClockFields(t);
    ClockShape(FormatTimestamp(t, f), Hours(t), Minutes(t), Seconds(t), Millis(t), f);
  }

  /** Where the pieces of a clock text sit. */
  lemma ClockPieces(r: string, hh: string, mm: string, ss: string, c: char, mmm: string)
    requires |hh| == 2 && |mm| == 2 && |ss| == 2 && |mmm| >= 3
    requires r == hh + ":" + mm + ":" + ss + [c] + mmm
    ensures |r| == 9 + |mmm| && r[2] == ':' && r[5] == ':' && r[8] == c
    ensures r[..2] == hh && r[..3] == hh + ":" && r[3..5] == mm && r[6..8] == ss && r[9..] == mmm
  {
    assert r[..2] == hh && r[3..5] == mm && r[6..8] == ss && r[9..] == mmm;
    assert r == (hh + ":") + (mm + ":" + ss + [c] + mmm);
  }

  /** A clock text of two-digit fields and three-digit milliseconds has the timestamp shape. */
  lemma ClockText(r: string, hh: string, mm: string, ss: string, c: char, mmm: string)
    requires |r| == 12 && r[2] == ':' && r[5] == ':' && r[8] == c && IsSeparator(c)
    requires r[..2] == hh && r[3..5] == mm && r[6..8] == ss && r[9..] == mmm
    requires AllDigits(hh) && AllDigits(mm) && AllDigits(ss) && AllDigits(mmm)
    ensures IsTimestampText(r)
  {
    assert r[..3][..2] == hh;
    assert IsDigit(hh[0]) && IsDigit(hh[1]);
    assert IsDigit(mm[0]) && IsDigit(mm[1]) && IsDigit(ss[0]) && IsDigit(ss[1]);
    assert IsDigit(mmm[0]) && IsDigit(mmm[1]) && IsDigit(mmm[2]);
  }

  /** Two-digit hours with their colon and the other fields add up to the values of the fields. */
  lemma ClockValueOfFields(p: string, hh: string, mm: string, ss: string, mmm: string, h: nat, m: nat, sec: nat, ms: nat, t: int)
    requires p == hh + ":"
    requires |hh| == 2 && AllDigits(hh) && AllDigits(mm) && AllDigits(ss) && AllDigits(mmm)
    requires DigitsValue(hh) == h && DigitsValue(mm) == m && DigitsValue(ss) == sec && DigitsValue(mmm) == ms
    requires t == h * 3600000 + m * 60000 + sec * 1000 + ms
    ensures IsHourPrefix(p)
    ensures ClockValue(p, mm, ss, mmm) == t
  {
    assert p[..|p| - 1] == hh;
  }

  /** A twelve-character timestamp text whose groups have the values given parses to `t`, their sum. */
  lemma ParseClockText(r: string, p: string, mm: string, ss: string, mmm: string, t: int)
    requires |r| == 12 && IsTimestampText(r)
    requires r[..3] == p && r[3..5] == mm && r[6..8] == ss && r[9..] == mmm
    requires IsHourPrefix(p) && AllDigits(mm) && AllDigits(ss) && AllDigits(mmm)
    requires t == ClockValue(p, mm, ss, mmm)
    ensures ParseTimestamp(r) == Ok(t)
  {
    ParseTimestampOk(r, r[..|r| - 9], r[|r| - 9..|r| - 7], r[|r| - 6..|r| - 4], r[|r| - 3..]);
  }

  /** A timestamp text parses to the value of its groups. */
  lemma ParseTimestampOk(s: string, p: string, a: string, b: string, c: string)
    requires IsTimestampText(s)
    requires p == s[..|s| - 9] && a == s[|s| - 9..|s| - 7] && b == s[|s| - 6..|s| - 4] && c == s[|s| - 3..]
    ensures IsHourPrefix(p) && AllDigits(a) && AllDigits(b) && AllDigits(c)
    ensures ParseTimestamp(s) == Ok(ClockValue(p, a, b, c))
  {
    TimestampDigits(s);
  }

  /** A clock text of two-digit fields and three-digit milliseconds parses to the sum of their values. */
  lemma ClockTextParses(r: string, hh: string, mm: string, ss: string, mmm: string,
                        h: nat, m: nat, sec: nat, ms: nat, t: int)
    requires |r| == 12 && IsTimestampText(r)
    requires r[..3] == hh + ":" && r[3..5] == mm && r[6..8] == ss && r[9..] == mmm
    requires |hh| == 2 && AllDigits(hh) && AllDigits(mm) && AllDigits(ss) && AllDigits(mmm)
    requires DigitsValue(hh) == h && DigitsValue(mm) == m && DigitsValue(ss) == sec && DigitsValue(mmm) == ms
    requires t == h * 3600000 + m * 60000 + sec * 1000 + ms
    ensures ParseTimestamp(r) == Ok(t)
  {
    var p := r[..3];
    ClockValueOfFields(p, hh, mm, ss, mmm, h, m, sec, ms, t);
    ParseClockText(r, p, mm, ss, mmm, t);
  }

  /** Clock fields in range format to a text that parses back to `t`, their sum. */
  lemma ClockRoundTrip(h: nat, m: nat, sec: nat, ms: nat, f: Format, t: int)
    requires h < 100 && m < 100 && sec < 100 && ms < 1000
    requires t == h * 3600000 + m * 60000 + sec * 1000 + ms
    ensures ParseTimestamp(Clock(h, m, sec, ms, f)) == Ok(t)
  {
    var hh, mm, ss, mmm := PadLeft(h, 2), PadLeft(m, 2), PadLeft(sec, 2), PadLeft(ms, 3);
    PadLeftValue(h, 2);
    PadLeftValue(m, 2);
    PadLeftValue(sec, 2);
    PadLeftValue(ms, 3);
    JoinedClockParses(Clock(h, m, sec, ms, f), hh, mm, ss, Separator(f), mmm, h, m, sec, ms, t);
  }

  /** Two-digit fields and three-digit milliseconds, joined into a clock text, parse to their sum. */
  lemma JoinedClockParses(r: string, hh: string, mm: string, ss: string, c: char, mmm: string,
                          h: nat, m: nat, sec: nat, ms: nat, t: int)
    requires r == hh + ":" + mm + ":" + ss + [c] + mmm && IsSeparator(c)
    requires |hh| == 2 && |mm| == 2 && |ss| == 2 && |mmm| == 3
    requires AllDigits(hh) && AllDigits(mm) && AllDigits(ss) && AllDigits(mmm)
    requires DigitsValue(hh) == h && DigitsValue(mm) == m && DigitsValue(ss) == sec && DigitsValue(mmm) == ms
    requires t == h * 3600000 + m * 60000 + sec * 1000 + ms
    ensures ParseTimestamp(r) == Ok(t)
  {
    ClockPieces(r, hh, mm, ss, c, mmm);
    ClockText(r, hh, mm, ss, c, mmm);
    ClockTextParses(r, hh, mm, ss, mmm, h, m, sec, ms, t);
  }

  /** Parsing a formatted timestamp gives back the milliseconds, in both formats, within one day. */
  lemma FormatParseRoundTrip(t: int, f: Format)
    requires 0 <= t < MsPerDay
    ensures ParseTimestamp(FormatTimestamp(t, f)) == Ok(t)
  {
    ClockFields(t);
    ClockRoundTrip(Hours(t), Minutes(t), Seconds(t), Millis(t), f, t);
  }
}
