/**
 * The cue record of the subtitle library and the matchers for the two kinds of special rows:
 * the timestamp line `RE_TIMESTAMP` and the digits-only index row.
 */
module Cues {
  import opened Strings
  import opened Wrappers
  import opened Errors
  import opened Timestamp

  /** One subtitle: start and end in milliseconds, its (possibly multi-line) text and optional settings. */
  datatype Cue = Cue(start: int, end: int, text: string, settings: Option<string>)

  /** What `parseTimestamps` gives: the two times and the settings, if any. */
  datatype Timing = Timing(start: int, end: int, settings: Option<string>)

  /** The three capture groups of `RE_TIMESTAMP`; `rest` is `None` when the optional group did not take part. */
  datatype Groups = Groups(start: string, end: string, rest: Option<string>)

  /** The index of the first space at or after `from`, or the length of `s`. */
  function FirstSpace(s: string, from: nat): (k: nat)
    requires from <= |s|
    ensures from <= k <= |s|
    decreases |s| - from
  {
    if from == |s| || s[from] == ' ' then from else FirstSpace(s, from + 1)
  }

  /** The first space: a space, with none before it. */
  lemma {:induction false} FirstSpaceShape(s: string, from: nat)
    requires from <= |s|
    ensures var k := FirstSpace(s, from);
      && (k < |s| ==> s[k] == ' ')
      && (forall i :: from <= i < k ==> s[i] != ' ')
    decreases |s| - from
  {
    if !(from == |s| || s[from] == ' ') {
      FirstSpaceShape(s, from + 1);
    }
  }

  /**
   * `RE_TIMESTAMP.exec`: `^(TS) --> (TS)(?: (.*))?$`. A timestamp contains no space, so the first
   * timestamp ends at the first space and the second at the next space or at the end.
   */
  function MatchTimestampLine(s: string): Option<Groups> {
    var k := FirstSpace(s, 0);
    if !(k + 5 <= |s| && s[k..k + 5] == " --> " && IsTimestampText(s[..k])) then None
    else
      var j := FirstSpace(s, k + 5);
      if !IsTimestampText(s[k + 5..j]) then None
      else if j == |s| then Some(Groups(s[..k], s[k + 5..j], None))
      else if NoLineTerminator(s[j + 1..]) then Some(Groups(s[..k], s[k + 5..j], Some(s[j + 1..])))
      else None
  }

  /** The text a match of `RE_TIMESTAMP` was taken from. */
  function Reassemble(g: Groups): string {
    g.start + " --> " + g.end + (if g.rest.Some? then " " + g.rest.value else "")
  }

  /** `isTimestamp`. */
  predicate IsTimestampLine(s: string) {
    MatchTimestampLine(s).Some?
  }

  /** The groups of a match are two timestamps and a rest without line terminators. */
  lemma MatchShape(s: string)
    ensures var m := MatchTimestampLine(s);
      && (m.Some? ==> IsTimestampText(m.value.start) && IsTimestampText(m.value.end))
      && (m.Some? && m.value.rest.Some? ==> NoLineTerminator(m.value.rest.value))
  {
  }

  lemma FirstSpaceAt(s: string, from: nat, k: nat)
    requires from <= k <= |s|
    requires k < |s| ==> s[k] == ' '
    requires forall i :: from <= i < k ==> s[i] != ' '
    ensures FirstSpace(s, from) == k
    decreases k - from
  {
    if from < k {
      FirstSpaceAt(s, from + 1, k);
    }
  }

  lemma NoSpaceIn(s: string, from: nat, k: nat)
    requires from <= k <= |s| && ' ' !in s[from..k]
    ensures forall i :: from <= i < k ==> s[i] != ' '
  {
    forall i | from <= i < k ensures s[i] != ' ' {
      assert s[i] == s[from..k][i - from];
    }
  }

  /** The pieces of a row cut at the arrow and at the space before the settings. */
  lemma CutAtArrow(s: string, k: nat, j: nat)
    requires k + 5 <= j <= |s| && s[k..k + 5] == " --> " && (j < |s| ==> s[j] == ' ')
    ensures Reassemble(Groups(s[..k], s[k + 5..j], if j == |s| then None else Some(s[j + 1..]))) == s
  {
    if j < |s| {
      assert s[j..] == " " + s[j + 1..];
    }
    assert s == s[..k] + s[k..k + 5] + s[k + 5..j] + s[j..];
  }

  /** The positions of the pieces of a reassembled row. */
  lemma ReassembledPieces(a: string, b: string, tail: string)
    ensures var s := a + " --> " + b + tail;
      && s[..|a|] == a && s[|a|..|a| + 5] == " --> " && s[|a|] == ' '
      && s[|a| + 5..|a| + 5 + |b|] == b && s[|a| + 5 + |b|..] == tail
  {
  }

  /** Where a match cuts the row: at the arrow after the first space and at the next space. */
  lemma MatchCuts(s: string, k: nat, j: nat)
    requires IsTimestampLine(s) && k == FirstSpace(s, 0) && k + 5 <= |s| && j == FirstSpace(s, k + 5)
    ensures s[k..k + 5] == " --> " && (j < |s| ==> s[j] == ' ')
    ensures MatchTimestampLine(s) == Some(Groups(s[..k], s[k + 5..j], if j == |s| then None else Some(s[j + 1..])))
  {
    FirstSpaceShape(s, k + 5);
  }

  /** A match splits the row into its groups, and nothing of the row is lost. */
  lemma MatchSound(s: string)
    requires IsTimestampLine(s)
    ensures Reassemble(MatchTimestampLine(s).value) == s
  {
    var k := FirstSpace(s, 0);
    var j := FirstSpace(s, k + 5);
    MatchCuts(s, k, j);
    CutAtArrow(s, k, j);
  }

  /** The matcher once the two spaces it looks for are known. */
  lemma MatchAt(s: string, k: nat, j: nat)
    requires FirstSpace(s, 0) == k && k + 5 <= j <= |s| && FirstSpace(s, k + 5) == j
    requires s[k..k + 5] == " --> " && IsTimestampText(s[..k]) && IsTimestampText(s[k + 5..j])
    requires j < |s| ==> NoLineTerminator(s[j + 1..])
    ensures MatchTimestampLine(s) == Some(Groups(s[..k], s[k + 5..j], if j == |s| then None else Some(s[j + 1..])))
  {
  }

  /** A piece without spaces, followed by a space or by nothing, ends at the first space. */
  lemma FirstSpaceAfter(s: string, from: nat, p: string)
    requires from + |p| <= |s| && s[from..from + |p|] == p && ' ' !in p
    requires from + |p| < |s| ==> s[from + |p|] == ' '
    ensures FirstSpace(s, from) == from + |p|
  {
    forall i | from <= i < from + |p| ensures s[i] != ' ' {
      assert s[i] == p[i - from];
    }
    FirstSpaceAt(s, from, from + |p|);
  }

  /** Where the matcher cuts a row of two pieces without spaces and a tail. */
  lemma CutsOfPieces(a: string, b: string, tail: string)
    requires ' ' !in a && ' ' !in b && (tail == [] || tail[0] == ' ')
    ensures var s := a + " --> " + b + tail;
      var j := |a| + 5 + |b|;
      && FirstSpace(s, 0) == |a| && FirstSpace(s, |a| + 5) == j
      && s[..|a|] == a && s[|a|..|a| + 5] == " --> " && s[|a| + 5..j] == b
      && (tail != [] ==> s[j + 1..] == tail[1..])
  {
    var s := a + " --> " + b + tail;
    ReassembledPieces(a, b, tail);
    FirstSpaceAfter(s, 0, a);
    FirstSpaceAfter(s, |a| + 5, b);
    if tail != [] {
      assert s[|a| + 5 + |b| + 1..] == tail[1..];
    }
  }

  /** The matcher on a row whose cuts are known to give two timestamps and a tail. */
  lemma MatchCut(s: string, a: string, b: string, tail: string, j: nat)
    requires IsTimestampText(a) && IsTimestampText(b)
    requires tail == [] || (tail[0] == ' ' && NoLineTerminator(tail[1..]))
    requires j == |a| + 5 + |b| && |s| == j + |tail|
    requires FirstSpace(s, 0) == |a| && FirstSpace(s, |a| + 5) == j
    requires s[..|a|] == a && s[|a|..|a| + 5] == " --> " && s[|a| + 5..j] == b
    requires tail != [] ==> s[j + 1..] == tail[1..]
    ensures MatchTimestampLine(s) == Some(Groups(a, b, if tail == [] then None else Some(tail[1..])))
  {
    var rest := if tail == [] then None else Some(tail[1..]);
    assert rest == (if j == |s| then None else Some(s[j + 1..]));
    assert Groups(s[..|a|], s[|a| + 5..j], rest) == Groups(a, b, rest);
    MatchAt(s, |a|, j);
  }

  /** The row of two timestamps and a tail that is empty or starts with a space is matched. */
  lemma MatchPieces(a: string, b: string, tail: string)
    requires IsTimestampText(a) && IsTimestampText(b)
    requires tail == [] || (tail[0] == ' ' && NoLineTerminator(tail[1..]))
    ensures MatchTimestampLine(a + " --> " + b + tail)
         == Some(Groups(a, b, if tail == [] then None else Some(tail[1..])))
  {
    TimestampTextHasNoSpace(a);
    TimestampTextHasNoSpace(b);
    CutsOfPieces(a, b, tail);
    MatchCut(a + " --> " + b + tail, a, b, tail, |a| + 5 + |b|);
  }

  /** Every row of the shape of `RE_TIMESTAMP` is matched, with the groups it was built from. */
  lemma MatchComplete(g: Groups)
    requires IsTimestampText(g.start) && IsTimestampText(g.end)
    requires g.rest.Some? ==> NoLineTerminator(g.rest.value)
    ensures MatchTimestampLine(Reassemble(g)) == Some(g)
  {
    if g.rest.Some? {
      var tail := " " + g.rest.value;
      assert tail[1..] == g.rest.value;
      MatchPieces(g.start, g.end, tail);
    } else {
      MatchPieces(g.start, g.end, []);
      assert g.start + " --> " + g.end + [] == Reassemble(g);
    }
  }

  /** `parseTimestamps`: the times of a timestamp line; settings only when text follows the space. */
  function ParseTimestamps(s: string): Result<Timing, Error> {
    MatchShape(s);
    match MatchTimestampLine(s)
    case None => Err(TimestampLine)
    case Some(g) =>
      var settings := if g.rest.Some? && g.rest.value != "" then g.rest else None;
      Ok(Timing(ParseTimestamp(g.start).value, ParseTimestamp(g.end).value, settings))
  }

  /** `parseTimestamps` succeeds exactly on timestamp lines, with non-negative times and non-empty settings. */
  lemma ParseTimestampsShape(s: string)
    ensures var r := ParseTimestamps(s);
      && (r.Ok? <==> IsTimestampLine(s))
      && (r.Err? ==> r.error == TimestampLine)
      && (r.Ok? ==> r.value.start >= 0 && r.value.end >= 0)
      && (r.Ok? && r.value.settings.Some? ==> r.value.settings.value != "")
  {
    MatchShape(s);
  }

  /** A timestamp line carries settings exactly when non-empty text follows the space after the end time. */
  lemma SettingsWhenTextFollows(a: string, b: string, rest: string)
    requires IsTimestampText(a) && IsTimestampText(b) && NoLineTerminator(rest)
    ensures ParseTimestamps(a + " --> " + b + (" " + rest))
         == Ok(Timing(ParseTimestamp(a).value, ParseTimestamp(b).value, if rest == "" then None else Some(rest)))
  {
    var g := Groups(a, b, Some(rest));
    MatchComplete(g);
  }

  /** Without the optional group a timestamp line has no settings. */
  lemma NoSettingsWithoutSpace(a: string, b: string)
    requires IsTimestampText(a) && IsTimestampText(b)
    ensures ParseTimestamps(a + " --> " + b) == Ok(Timing(ParseTimestamp(a).value, ParseTimestamp(b).value, None))
  {
    var g := Groups(a, b, None);
    MatchComplete(g);
    assert Reassemble(g) == a + " --> " + b;
  }

  /** A timing line built from two readable timestamps and optional settings reads back as those. */
  lemma TimingFromParts(a: string, b: string, start: int, end: int, suffix: string, settings: Option<string>)
    requires ParseTimestamp(a) == Ok(start) && ParseTimestamp(b) == Ok(end)
    requires settings.None? ==> suffix == ""
    requires settings.Some? ==> settings.value != "" && NoLineTerminator(settings.value) && suffix == " " + settings.value
    ensures ParseTimestamps(a + " --> " + b + suffix) == Ok(Timing(start, end, settings))
  {
    if settings.None? {
      TimingWithoutSettings(a, b, start, end, suffix);
    } else {
      TimingWithSettings(a, b, start, end, settings.value);
    }
  }

  lemma TimingWithoutSettings(a: string, b: string, start: int, end: int, suffix: string)
    requires ParseTimestamp(a) == Ok(start) && ParseTimestamp(b) == Ok(end) && suffix == ""
    ensures ParseTimestamps(a + " --> " + b + suffix) == Ok(Timing(start, end, None))
  {
    NoSettingsWithoutSpace(a, b);
    assert a + " --> " + b + suffix == a + " --> " + b;
  }

  lemma TimingWithSettings(a: string, b: string, start: int, end: int, settings: string)
    requires ParseTimestamp(a) == Ok(start) && ParseTimestamp(b) == Ok(end)
    requires settings != "" && NoLineTerminator(settings)
    ensures ParseTimestamps(a + " --> " + b + (" " + settings)) == Ok(Timing(start, end, Some(settings)))
  {
    SettingsWhenTextFollows(a, b, settings);
  }

  lemma NoSpaceNoTimestampLine(s: string)
    requires ' ' !in s
    ensures !IsTimestampLine(s)
  {
    FirstSpaceShape(s, 0);
  }

  /** `isIndex`: the characters between leading and trailing whitespace are a non-empty run of digits. */
  predicate IsIndex(s: string) {
    var e := TrimEndAt(s, |s|);
    var b := TrimStartAt(s, 0, e);
    b < e && forall i :: b <= i < e ==> IsDigit(s[i])
  }

  /** `isIndex` tests the trimmed row: non-empty and all digits. */
  lemma IsIndexTrim(s: string)
    ensures IsIndex(s) <==> Trim(s) != [] && AllDigits(Trim(s))
  {
    TrimBetween(s);
    var e := TrimEndAt(s, |s|);
    var b := TrimStartAt(s, 0, e);
    var t := s[b..e];
    assert forall i :: b <= i < e ==> s[i] == t[i - b];
  }
}
