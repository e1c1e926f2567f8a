/**
 * `parse(stringify(captions))`: what the parser gives back for the text the serializer writes.
 * The times survive within one day, the text survives when its lines are non-blank and are
 * not themselves timestamp lines, and settings survive in the WebVTT format only.
 */
module RoundTrip {
  import opened Strings
  import opened Wrappers
  import opened Timestamp
  import opened Cues
  import opened Rows
  import opened Parser
  import opened Serializer

  /** A text line that `parse` reads back as text: not blank, no carriage return, not a timestamp line. */
  predicate TextLineOk(line: string) {
    line != "" && '\r' !in line && !IsTimestampLine(line)
  }

  /** Every line of a text is a text line `parse` reads back. */
  predicate TextLinesOk(lines: seq<string>)
    decreases |lines|
  {
    lines == [] || (TextLineOk(lines[0]) && TextLinesOk(lines[1..]))
  }

  /** A cue whose timing line `stringify` writes in a form `parse` reads back. */
  predicate TimingWritable(c: Cue, f: Format) {
    && 0 <= c.start < MsPerDay && 0 <= c.end < MsPerDay
    && (f == Vtt && c.settings.Some? ==> NoLineTerminator(c.settings.value))
  }

  /** A cue that `stringify` writes in a form `parse` reads back. */
  predicate Writable(c: Cue, f: Format) {
    && TimingWritable(c, f)
    && c.text != ""
    && TextLinesOk(SplitLines(c.text))
  }

  /** The cue `parse` gives back: settings are written for WebVTT only, and only when non-empty. */
  function Decoded(c: Cue, f: Format): Cue {
    c.(settings := if f == Vtt && c.settings.Some? && c.settings.value != "" then c.settings else None)
  }

  function DecodedAll(cs: seq<Cue>, f: Format): (r: seq<Cue>)
    ensures |r| == |cs|
    ensures forall k :: 0 <= k < |cs| ==> r[k] == Decoded(cs[k], f)
  {
    if cs == [] then [] else [Decoded(cs[0], f)] + DecodedAll(cs[1..], f)
  }

  /** The caption after the callback has added the text rows `lines` one by one. */
  function FoldRows(caption: Cue, lines: seq<string>): Cue
    decreases |lines|
  {
    if lines == [] then caption else FoldRows(WithRow(caption, lines[0]), lines[1..])
  }

  // ----- one row at a time -----

  // The row number `next` after the rows of a lemma is a parameter, so that callers name it
  // exactly as their own conclusion does.

  /** An index row where an index may stand is skipped. */
  lemma RunIndexRow(row: string, rest: seq<string>, n: nat, st: State, next: nat)
    requires st.expecting == ExpectIndex && IsIndex(row) && next == n + 1
    ensures Run([row] + rest, n, st) == Run(rest, next, st.(expecting := ExpectTimestamp))
  {
    var rows := [row] + rest;
    assert rows[0] == row && rows[1..] == rest;
    RunStep(rows, n, st);
  }

  /** A timestamp line where one is expected sets the times and settings of the caption. */
  lemma RunTimingRow(row: string, rest: seq<string>, n: nat, st: State, t: Timing, next: nat)
    requires st.expecting == ExpectTimestamp && ParseTimestamps(row) == Ok(t) && next == n + 1
    ensures Run([row] + rest, n, st) == Run(rest, next, State(ExpectText, WithTiming(st.caption, t), st.captions))
  {
    var rows := [row] + rest;
    assert rows[0] == row && rows[1..] == rest;
    RunStep(rows, n, st);
  }

  /** A text row followed by a row that starts no cue is added to the caption. */
  lemma RunTextRow(row: string, rest: seq<string>, n: nat, st: State, next: nat)
    requires st.expecting == ExpectText && rest != [] && !IsTimestampLine(rest[0]) && next == n + 1
    requires !(IsIndex(rest[0]) && |rest| > 1 && IsTimestampLine(rest[1]))
    ensures Run([row] + rest, n, st) == Run(rest, next, st.(caption := WithRow(st.caption, row)))
  {
    var rows := [row] + rest;
    assert rows[0] == row && rows[1..] == rest;
    assert rows[1] == rest[0] && (|rest| > 1 ==> rows[2] == rest[1]);
    RunStep(rows, n, st);
  }

  /** The last row, or a row before an index row and a timestamp line, closes the caption. */
  lemma RunClosingRow(row: string, rest: seq<string>, n: nat, st: State, next: nat)
    requires st.expecting == ExpectText && next == n + 1
    requires rest == [] || (!IsTimestampLine(rest[0]) && IsIndex(rest[0]) && |rest| > 1 && IsTimestampLine(rest[1]))
    ensures Run([row] + rest, n, st) == Run(rest, next, State(ExpectIndex, EmptyCaption, st.captions + [st.caption]))
  {
    var rows := [row] + rest;
    assert rows[0] == row && rows[1..] == rest;
    assert rest != [] ==> rows[1] == rest[0] && rows[2] == rest[1];
    RunStep(rows, n, st);
  }

  lemma BlankRowNeither()
    ensures !IsIndex("") && !IsTimestampLine("")
  {
    NoSpaceNoTimestampLine("");
  }

  /** Text rows up to a blank row are added to the caption one by one. */
  lemma {:induction false} RunLines(lines: seq<string>, tail: seq<string>, n: nat, st: State, next: nat)
    requires TextLinesOk(lines) && next == n + |lines|
    requires tail != [] && tail[0] == "" && st.expecting == ExpectText
    ensures Run(lines + tail, n, st) == Run(tail, next, st.(caption := FoldRows(st.caption, lines)))
    decreases |lines|
  {
    if lines == [] {
      assert lines + tail == tail;
    } else {
      var after := st.(caption := WithRow(st.caption, lines[0]));
      var n1 := n + 1;
      RunFirstLine(lines, tail, n, st, n1);
      RunLines(lines[1..], tail, n1, after, next);
      assert after.(caption := FoldRows(after.caption, lines[1..])) == st.(caption := FoldRows(st.caption, lines));
    }
  }

  /** The first of the text lines is added to the caption. */
  lemma RunFirstLine(lines: seq<string>, tail: seq<string>, n: nat, st: State, next: nat)
    requires lines != [] && TextLinesOk(lines) && next == n + 1
    requires tail != [] && tail[0] == "" && st.expecting == ExpectText
    ensures Run(lines + tail, n, st) == Run(lines[1..] + tail, next, st.(caption := WithRow(st.caption, lines[0])))
  {
    BlankRowNeither();
    ConsRows(lines, tail);
    RunTextRow(lines[0], lines[1..] + tail, n, st, next);
  }

  /** Text lines followed by a blank row: the first line, and the two rows after it. */
  lemma ConsRows(lines: seq<string>, tail: seq<string>)
    requires lines != [] && TextLinesOk(lines) && tail != [] && tail[0] == ""
    ensures lines + tail == [lines[0]] + (lines[1..] + tail)
    ensures var rest := lines[1..] + tail;
      && (rest[0] == "" || TextLineOk(rest[0]))
      && (|rest| > 1 && rest[0] != "" ==> rest[1] == "" || TextLineOk(rest[1]))
  {
    var rest := lines[1..] + tail;
    assert lines + tail == [lines[0]] + rest;
    if |lines| > 1 {
      assert rest[0] == lines[1];
      if |lines| > 2 {
        assert lines[1..][1..][0] == lines[2];
        assert rest[1] == lines[2];
      } else {
        assert rest[1] == tail[0];
      }
    } else {
      assert rest[0] == tail[0];
    }
  }

  /** Adding non-blank lines to a caption joins them to its text with line feeds. */
  lemma {:induction false} FoldRowsJoins(caption: Cue, lines: seq<string>)
    requires lines != [] && forall k :: 0 <= k < |lines| ==> lines[k] != ""
    ensures FoldRows(caption, lines)
         == caption.(text := if caption.text == "" then Join(lines, "\n") else caption.text + "\n" + Join(lines, "\n"))
    decreases |lines|
  {
    var next := WithRow(caption, lines[0]);
    if |lines| > 1 {
      FoldRowsJoins(next, lines[1..]);
      assert Join(lines, "\n") == lines[0] + "\n" + Join(lines[1..], "\n");
      if caption.text != "" {
        assert caption.text + "\n" + lines[0] + "\n" + Join(lines[1..], "\n")
            == caption.text + "\n" + (lines[0] + "\n" + Join(lines[1..], "\n"));
      }
    }
  }

  // ----- the rows of one cue -----

  lemma TimestampTextNoBreak(s: string)
    requires IsTimestampText(s)
    ensures '\n' !in s && '\r' !in s && ' ' !in s
  {
    TimestampTextHasNoSpace(s);
    var p := s[..|s| - 9];
    forall i | 0 <= i < |s| ensures s[i] != '\n' && s[i] != '\r' {
      if i < |p| - 1 {
        assert s[i] == p[..|p| - 1][i];
      }
    }
  }

  /** The timing line of a cue within one day is a timestamp line with the cue's times, read back. */
  lemma TimingLineReadBack(c: Cue, f: Format)
    requires TimingWritable(c, f)
    ensures var line := TimingLine(c, f);
      && IsTimestampLine(line) && '\n' !in line && '\r' !in line
      && ParseTimestamps(line) == Ok(Timing(c.start, c.end, Decoded(c, f).settings))
  {
    TimingLineParses(c, f);
    ParseTimestampsShape(TimingLine(c, f));
    TimingLineNoBreak(c, f);
  }

  lemma TimingLineParses(c: Cue, f: Format)
    requires TimingWritable(c, f)
    ensures ParseTimestamps(TimingLine(c, f)) == Ok(Timing(c.start, c.end, Decoded(c, f).settings))
  {
    FormatParseRoundTrip(c.start, f);
    FormatParseRoundTrip(c.end, f);
    TimingFromParts(FormatTimestamp(c.start, f), FormatTimestamp(c.end, f), c.start, c.end,
                    SettingsSuffix(c, f), Decoded(c, f).settings);
  }

  lemma TimingLineNoBreak(c: Cue, f: Format)
    requires TimingWritable(c, f)
    ensures '\n' !in TimingLine(c, f) && '\r' !in TimingLine(c, f)
  {
    var a, b := FormatTimestamp(c.start, f), FormatTimestamp(c.end, f);
    FormatWithinDay(c.start, f);
    FormatWithinDay(c.end, f);
    TimestampTextNoBreak(a);
    TimestampTextNoBreak(b);
    var suffix := SettingsSuffix(c, f);
    if suffix != "" {
      SettingsNoBreak(c.settings.value);
    }
    NoBreakConcat(a, b, suffix);
  }

  lemma SettingsNoBreak(v: string)
    requires NoLineTerminator(v)
    ensures '\n' !in " " + v && '\r' !in " " + v
  {
    assert forall i :: 0 <= i < |v| ==> !IsLineTerminator(v[i]);
  }

  lemma NoBreakConcat(a: string, b: string, suffix: string)
    requires '\n' !in a && '\r' !in a && '\n' !in b && '\r' !in b && '\n' !in suffix && '\r' !in suffix
    ensures var line := a + " --> " + b + suffix; '\n' !in line && '\r' !in line
  {
  }

  /** A number is an index row and no timestamp line. */
  lemma NumberIsIndex(n: nat)
    ensures IsIndex(NatToString(n)) && !IsTimestampLine(NatToString(n))
  {
    var s := NatToString(n);
    assert !IsWhitespace(s[|s| - 1]) && !IsWhitespace(s[0]);
    assert TrimEnd(s) == s;
    assert Trim(s) == s;
    assert ' ' !in s by {
      assert forall i :: 0 <= i < |s| ==> IsDigit(s[i]);
    }
    NoSpaceNoTimestampLine(s);
  }

  /** The rows of one cue, from an index row up to the blank row, give back the cue. */
  lemma RunBlock(n: nat, c: Cue, f: Format, rest: seq<string>, m: nat, captions: seq<Cue>, next: nat)
    requires Writable(c, f) && next == m + |BlockRows(n, c, f)|
    requires rest == [] || (!IsTimestampLine(rest[0]) && IsIndex(rest[0]) && |rest| > 1 && IsTimestampLine(rest[1]))
    ensures Run(BlockRows(n, c, f) + rest, m, State(ExpectIndex, EmptyCaption, captions))
         == Run(rest, next, State(ExpectIndex, EmptyCaption, captions + [Decoded(c, f)]))
  {
    var t := Timing(c.start, c.end, Decoded(c, f).settings);
    NumberIsIndex(n);
    TimingLineReadBack(c, f);
    RunRowsOfCue(NatToString(n), TimingLine(c, f), t, SplitLines(c.text), rest, m, captions, next);
    FoldedCue(c, f);
  }

  /** An index row, a timing line, text lines and a blank row add one caption. */
  lemma RunRowsOfCue(num: string, line: string, t: Timing, lines: seq<string>, rest: seq<string>,
                     m: nat, captions: seq<Cue>, next: nat)
    requires IsIndex(num) && ParseTimestamps(line) == Ok(t) && TextLinesOk(lines) && next == m + |lines| + 3
    requires rest == [] || (!IsTimestampLine(rest[0]) && IsIndex(rest[0]) && |rest| > 1 && IsTimestampLine(rest[1]))
    ensures Run([num, line] + lines + [""] + rest, m, State(ExpectIndex, EmptyCaption, captions))
         == Run(rest, next, State(ExpectIndex, EmptyCaption, captions + [FoldRows(WithTiming(EmptyCaption, t), lines)]))
  {
    var k := m + 2;
    RunCueHead(num, line, t, lines, rest, m, captions, k);
    RunTextRows(lines, rest, k, WithTiming(EmptyCaption, t), captions, next);
  }

  lemma RunCueHead(num: string, line: string, t: Timing, lines: seq<string>, rest: seq<string>,
                   m: nat, captions: seq<Cue>, next: nat)
    requires IsIndex(num) && ParseTimestamps(line) == Ok(t) && next == m + 2
    ensures Run([num, line] + lines + [""] + rest, m, State(ExpectIndex, EmptyCaption, captions))
         == Run(lines + ([""] + rest), next, State(ExpectText, WithTiming(EmptyCaption, t), captions))
  {
    RegroupRows([num, line], lines, rest);
    RunHeadRows(num, line, t, lines + ([""] + rest), m, captions, next);
  }

  lemma RegroupRows(head: seq<string>, lines: seq<string>, rest: seq<string>)
    ensures head + lines + [""] + rest == head + (lines + ([""] + rest))
  {
  }

  /** The index row and the timing line of a cue start its caption with the times and settings. */
  lemma RunHeadRows(num: string, line: string, t: Timing, body: seq<string>, m: nat, captions: seq<Cue>, next: nat)
    requires IsIndex(num) && ParseTimestamps(line) == Ok(t) && next == m + 2
    ensures Run([num, line] + body, m, State(ExpectIndex, EmptyCaption, captions))
         == Run(body, next, State(ExpectText, WithTiming(EmptyCaption, t), captions))
  {
    assert [num, line] + body == [num] + ([line] + body);
    var k := m + 1;
    RunIndexRow(num, [line] + body, m, State(ExpectIndex, EmptyCaption, captions), k);
    RunTimingRow(line, body, k, State(ExpectTimestamp, EmptyCaption, captions), t, next);
  }

  /** The text rows of a cue and the blank row after them close its caption. */
  lemma RunTextRows(lines: seq<string>, rest: seq<string>, m: nat, caption: Cue, captions: seq<Cue>, next: nat)
    requires TextLinesOk(lines) && next == m + |lines| + 1
    requires rest == [] || (!IsTimestampLine(rest[0]) && IsIndex(rest[0]) && |rest| > 1 && IsTimestampLine(rest[1]))
    ensures Run(lines + ([""] + rest), m, State(ExpectText, caption, captions))
         == Run(rest, next, State(ExpectIndex, EmptyCaption, captions + [FoldRows(caption, lines)]))
  {
    var tail := [""] + rest;
    var st := State(ExpectText, caption, captions);
    var closed := State(ExpectText, FoldRows(caption, lines), captions);
    var k := m + |lines|;
    RunLines(lines, tail, m, st, k);
    assert st.(caption := FoldRows(st.caption, lines)) == closed;
    RunClosingRow("", rest, k, closed, next);
  }

  /** Adding the text lines of a writable cue to its timed caption gives back the cue. */
  lemma FoldedCue(c: Cue, f: Format)
    requires c.text != "" && TextLinesOk(SplitLines(c.text))
    ensures FoldRows(WithTiming(EmptyCaption, Timing(c.start, c.end, Decoded(c, f).settings)), SplitLines(c.text))
         == Decoded(c, f)
  {
    var lines := SplitLines(c.text);
    TextLinesEach(lines);
    FoldRowsJoins(WithTiming(EmptyCaption, Timing(c.start, c.end, Decoded(c, f).settings)), lines);
    JoinSplit(c.text);
  }

  /** Each of the text lines is a text line. */
  lemma {:induction false} TextLinesEach(lines: seq<string>)
    requires TextLinesOk(lines)
    ensures forall k :: 0 <= k < |lines| ==> TextLineOk(lines[k])
    decreases |lines|
  {
    if lines != [] {
      TextLinesEach(lines[1..]);
      assert forall k :: 1 <= k < |lines| ==> lines[k] == lines[1..][k - 1];
    }
  }

  // ----- all cues -----

  predicate AllWritable(cs: seq<Cue>, f: Format) {
    forall k :: 0 <= k < |cs| ==> Writable(cs[k], f)
  }

  /** The rows of a cue begin with an index row followed by a timestamp line. */
  lemma BlockStartsCue(n: nat, c: Cue, f: Format, more: seq<string>)
    requires TimingWritable(c, f)
    ensures var rows := BlockRows(n, c, f) + more;
      !IsTimestampLine(rows[0]) && IsIndex(rows[0]) && |rows| > 1 && IsTimestampLine(rows[1])
  {
    var rows := BlockRows(n, c, f) + more;
    assert rows[0] == NatToString(n) && rows[1] == TimingLine(c, f);
    NumberIsIndex(n);
    TimingLineReadBack(c, f);
  }

  /** The rows of writable cues give back the cues, after those read so far. */
  lemma {:induction false} RunCueRows(cs: seq<Cue>, n: nat, f: Format, m: nat, captions: seq<Cue>)
    requires AllWritable(cs, f)
    ensures Run(CueRows(cs, n, f), m, State(ExpectIndex, EmptyCaption, captions)) == Ok(captions + DecodedAll(cs, f))
    decreases |cs|
  {
    if cs == [] {
      assert captions + [] == captions;
    } else {
      var k := m + |BlockRows(n, cs[0], f)|;
      var more := captions + [Decoded(cs[0], f)];
      assert AllWritable(cs[1..], f) by {
        forall i | 0 <= i < |cs| - 1 ensures Writable(cs[1..][i], f) {
          assert cs[1..][i] == cs[i + 1];
        }
      }
      RunCueRows(cs[1..], n + 1, f, k, more);
      RunCueRowsStep(cs, n, f, m, captions, k, more);
    }
  }

  /** The rows of the first cue, followed by those of the others read as the others. */
  lemma RunCueRowsStep(cs: seq<Cue>, n: nat, f: Format, m: nat, captions: seq<Cue>, k: nat, more: seq<Cue>)
    requires cs != [] && AllWritable(cs, f) && k == m + |BlockRows(n, cs[0], f)|
    requires more == captions + [Decoded(cs[0], f)]
    requires Run(CueRows(cs[1..], n + 1, f), k, State(ExpectIndex, EmptyCaption, more)) == Ok(more + DecodedAll(cs[1..], f))
    ensures Run(CueRows(cs, n, f), m, State(ExpectIndex, EmptyCaption, captions)) == Ok(captions + DecodedAll(cs, f))
  {
    RunFirstBlock(cs, n, f, m, captions, k);
    assert DecodedAll(cs, f) == [Decoded(cs[0], f)] + DecodedAll(cs[1..], f);
    AppendOne(captions, Decoded(cs[0], f), DecodedAll(cs[1..], f));
  }

  /** The rows of the first of the cues add it to the captions read so far. */
  lemma RunFirstBlock(cs: seq<Cue>, n: nat, f: Format, m: nat, captions: seq<Cue>, next: nat)
    requires cs != [] && AllWritable(cs, f) && next == m + |BlockRows(n, cs[0], f)|
    ensures Run(CueRows(cs, n, f), m, State(ExpectIndex, EmptyCaption, captions))
         == Run(CueRows(cs[1..], n + 1, f), next, State(ExpectIndex, EmptyCaption, captions + [Decoded(cs[0], f)]))
  {
    var rest := CueRows(cs[1..], n + 1, f);
    if cs[1..] != [] {
      assert rest == BlockRows(n + 1, cs[1], f) + CueRows(cs[2..], n + 2, f);
      BlockStartsCue(n + 1, cs[1], f, CueRows(cs[2..], n + 2, f));
    }
    assert CueRows(cs, n, f) == BlockRows(n, cs[0], f) + rest;
    RunBlock(n, cs[0], f, rest, m, captions, next);
  }

  lemma AppendOne(xs: seq<Cue>, x: Cue, ys: seq<Cue>)
    ensures xs + [x] + ys == xs + ([x] + ys)
  {
  }
}
