/**
 * What `stringify` writes, `parse` reads back: the round trip over the whole text, through
 * `normalize` and the header it strips.
 */
module StringifyParse {
  import opened Strings
  import opened Wrappers
  import opened Timestamp
  import opened Cues
  import opened Rows
  import opened Parser
  import opened Serializer
  import opened RoundTrip

  /** No row holds a line feed or a carriage return. */
  predicate NoBreaks(rows: seq<string>) {
    forall i :: 0 <= i < |rows| ==> '\n' !in rows[i] && '\r' !in rows[i]
  }

  /** The last line of a text. */
  function LastLine(text: string): string {
    Last(SplitLines(text))
  }

  /** No blank row is next to another across the seam of two spaced row lists. */
  lemma SpacedConcat(a: seq<string>, b: seq<string>)
    requires Spaced(a) && Spaced(b)
    ensures Spaced(a + b)
  {
    var ab := a + b;
    forall i | 0 <= i < |ab| - 1
      ensures NotBothBlank(ab, i)
    {
      if i < |a| - 1 {
        assert NotBothBlank(a, i);
        assert ab[i] == a[i] && ab[i + 1] == a[i + 1];
      } else if i == |a| - 1 {
        assert ab[i + 1] == b[0];
      } else {
        assert NotBothBlank(b, i - |a|);
        assert ab[i] == b[i - |a|] && ab[i + 1] == b[i - |a| + 1];
      }
    }
  }

  lemma NoBreaksConcat(a: seq<string>, b: seq<string>)
    requires NoBreaks(a) && NoBreaks(b)
    ensures NoBreaks(a + b)
  {
    assert forall i :: |a| <= i < |a + b| ==> (a + b)[i] == b[i - |a|];
  }

  /** A number written in digits holds no line break and starts with a digit. */
  lemma NumberRow(n: nat)
    ensures var s := NatToString(n); '\n' !in s && '\r' !in s && IsDigit(s[0]) && !IsWhitespace(s[0])
  {
    var s := NatToString(n);
    assert forall i :: 0 <= i < |s| ==> IsDigit(s[i]);
  }

  /** Two rows, the lines after them and a blank row, when none of them is blank or breaks. */
  lemma FramedRows(a: string, b: string, lines: seq<string>)
    requires a != "" && '\n' !in a && '\r' !in a && b != "" && '\n' !in b && '\r' !in b
    requires NoBreaks(lines) && lines != []
    requires forall k :: 0 <= k < |lines| ==> lines[k] != ""
    ensures var rows := [a, b] + lines + [""];
      && Spaced(rows) && NoBreaks(rows) && |rows| >= 4 && rows[0] == a
      && Last(rows) == "" && BeforeLast(rows) == Last(lines)
  {
    var rows := [a, b] + lines + [""];
    assert forall i :: 2 <= i < 2 + |lines| ==> rows[i] == lines[i - 2];
    forall i | 0 <= i < |rows| - 1
      ensures NotBothBlank(rows, i)
    {
      assert i < 2 || rows[i] == lines[i - 2];
    }
  }

  /** The lines of a text are neither blank nor hold a line break. */
  predicate CleanLines(text: string) {
    var lines := SplitLines(text);
    NoBreaks(lines) && forall k :: 0 <= k < |lines| ==> lines[k] != ""
  }

  /** The text lines of a writable cue are neither blank nor hold a carriage return. */
  lemma TextLinesClean(text: string)
    requires TextLinesOk(SplitLines(text))
    ensures CleanLines(text)
  {
    TextLinesEach(SplitLines(text));
  }

  /** The timing line of a writable cue is not blank and holds no line break. */
  lemma TimingRowClean(c: Cue, f: Format)
    requires TimingWritable(c, f)
    ensures var line := TimingLine(c, f); line != "" && '\n' !in line && '\r' !in line
  {
    TimingLineReadBack(c, f);
    BlankRowNeither();
  }

  /** The rows of one writable cue: spaced, without line breaks, ending in its last line and a blank row. */
  lemma BlockRowsShape(n: nat, c: Cue, f: Format)
    requires TimingWritable(c, f) && CleanLines(c.text)
    ensures var rows := BlockRows(n, c, f);
      && Spaced(rows) && NoBreaks(rows) && |rows| >= 4 && rows[0] == NatToString(n)
      && Last(rows) == "" && BeforeLast(rows) == LastLine(c.text)
  {
    var num := NatToString(n);
    var line := TimingLine(c, f);
    NumberRow(n);
    TimingRowClean(c, f);
    FramedRows(num, line, SplitLines(c.text));
  }

  /** The cues after the first of writable cues are writable, and so is the first. */
  lemma AllWritableTail(cs: seq<Cue>, f: Format)
    requires cs != [] && AllWritable(cs, f)
    ensures AllWritable(cs[1..], f) && TimingWritable(cs[0], f) && CleanLines(cs[0].text)
  {
    assert forall k :: 0 <= k < |cs[1..]| ==> cs[1..][k] == cs[k + 1];
    assert Writable(cs[0], f);
    TextLinesClean(cs[0].text);
  }

  /** The rows of writable cues are spaced, hold no line breaks and start with the first number. */
  lemma {:induction false} CueRowsSpaced(cs: seq<Cue>, n: nat, f: Format)
    requires cs != [] && AllWritable(cs, f)
    ensures var rows := CueRows(cs, n, f); Spaced(rows) && NoBreaks(rows) && rows[0] == NatToString(n)
    decreases |cs|
  {
    var b := BlockRows(n, cs[0], f);
    var rest := CueRows(cs[1..], n + 1, f);
    AllWritableTail(cs, f);
    BlockRowsShape(n, cs[0], f);
    assert CueRows(cs, n, f) == b + rest;
    if |cs| == 1 {
      assert b + rest == b;
    } else {
      CueRowsSpaced(cs[1..], n + 1, f);
      SpacedConcat(b, rest);
      NoBreaksConcat(b, rest);
    }
  }

  /** The rows of writable cues end with the last line of the last cue and a blank row. */
  lemma {:induction false} CueRowsEnd(cs: seq<Cue>, n: nat, f: Format)
    requires cs != [] && AllWritable(cs, f)
    ensures var rows := CueRows(cs, n, f); |rows| >= 4 && Last(rows) == "" && BeforeLast(rows) == LastLine(Last(cs).text)
    decreases |cs|
  {
    var b := BlockRows(n, cs[0], f);
    var rest := CueRows(cs[1..], n + 1, f);
    AllWritableTail(cs, f);
    BlockRowsShape(n, cs[0], f);
    assert CueRows(cs, n, f) == b + rest;
    if |cs| == 1 {
      assert b + rest == b;
    } else {
      CueRowsEnd(cs[1..], n + 1, f);
      LastOfTail(cs);
      EndsOfConcat(b, rest);
    }
  }

  /** The last line of a text ends with the text's last character. */
  lemma LastLineEnd(text: string)
    requires LastLine(text) != ""
    ensures text != [] && Last(LastLine(text)) == Last(text)
  {
    JoinSplit(text);
    JoinLast(SplitLines(text));
  }

  /** What every cue's rows satisfy, and what `normalize` needs to keep them as they are. */
  predicate Normal(body: seq<string>) {
    && Spaced(body) && NoBreaks(body) && |body| >= 2 && IsDigit(body[0][0])
    && Last(body) == "" && BeforeLast(body) != "" && !IsWhitespace(Last(BeforeLast(body)))
  }

  /**
   * Rows that start with a number, hold no line break, have no two neighbouring blank rows and
   * end in a blank row after a line that does not end in whitespace come back from `normalize`
   * unchanged, after the header rows of either format.
   */
  lemma NormalizeBody(body: seq<string>, f: Format)
    requires Normal(body)
    ensures Normalize(Join(HeaderRows(f) + body, "\n")) == body
  {
    if f == Vtt {
      NormalizeWithHeader(body);
    } else {
      assert HeaderRows(f) + body == body;
      NormalizeWithoutHeader(body);
    }
  }

  lemma NormalizeWithoutHeader(body: seq<string>)
    requires Normal(body)
    ensures Normalize(Join(body, "\n")) == body
  {
    NormalizeJoinedRows(body);
    assert body[0][0] != 'W';
    StripHeaderWithoutMagic(body);
  }

  lemma NormalizeWithHeader(body: seq<string>)
    requires Normal(body)
    ensures Normalize(Join(["WEBVTT", ""] + body, "\n")) == body
  {
    var header := ["WEBVTT", ""];
    var all := header + body;
    assert NotBothBlank(header, 0);
    assert Spaced(header) && NoBreaks(header);
    SpacedConcat(header, body);
    NoBreaksConcat(header, body);
    assert all[0] == "WEBVTT";
    EndsOfConcat(header, body);
    NormalizeJoinedRows(all);
    StripBareHeader(body);
  }

  /** The rows `stringify` writes, header included, are what `normalize` gives back. */
  lemma NormalizeStringified(cs: seq<Cue>, f: Format)
    requires cs != [] && AllWritable(cs, f)
    requires Last(cs).text != "" && !IsWhitespace(Last(Last(cs).text))
    ensures Normalize(Stringify(cs, f)) == CueRows(cs, 1, f)
  {
    var body := CueRows(cs, 1, f);
    StringifyRows(cs, f);
    CueRowsSpaced(cs, 1, f);
    CueRowsEnd(cs, 1, f);
    NumberRow(1);
    var last := Last(cs);
    TextLinesEach(SplitLines(last.text));
    LastLineEnd(last.text);
    NormalizeBody(body, f);
  }

  /**
   * `parse(stringify(captions))` gives back the captions, with settings kept only where
   * `stringify` writes them, when every cue is writable and the last text does not end in
   * whitespace (`normalize` trims the whole text).
   */
  lemma StringifyParseRoundTrip(cs: seq<Cue>, f: Format)
    requires cs != [] && AllWritable(cs, f)
    requires Last(cs).text != "" && !IsWhitespace(Last(Last(cs).text))
    ensures ParseText(Stringify(cs, f)) == Ok(DecodedAll(cs, f))
  {
    NormalizeStringified(cs, f);
    RunCueRows(cs, 1, f, 0, []);
    assert [] + DecodedAll(cs, f) == DecodedAll(cs, f);
  }
}
