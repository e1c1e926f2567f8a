/**
 * `parse` of the subtitle library: a three-state machine over the normalized rows that
 * collects cues in source order. `Run` is the machine as a function of the rows still to
 * come; the method `Parse` is the row-by-row loop, proved to compute it.
 */
module Parser {
  import opened Strings
  import opened Wrappers
  import opened Errors
  import opened Cues
  import opened Rows

  datatype Expect = ExpectIndex | ExpectTimestamp | ExpectText

  /** The `state` record: what the next row should be, the cue being built and the cues so far. */
  datatype State = State(expecting: Expect, caption: Cue, captions: seq<Cue>)

  const EmptyCaption := Cue(0, 0, "", None)

  const Initial := State(ExpectIndex, EmptyCaption, [])

  /** The caption with the times of a timestamp row; settings are copied only when present. */
  function WithTiming(caption: Cue, t: Timing): Cue {
    Cue(t.start, t.end, caption.text, if t.settings.Some? then t.settings else caption.settings)
  }

  /** The caption with one more text row. */
  function WithRow(caption: Cue, row: string): Cue {
    caption.(text := if caption.text != "" then caption.text + "\n" + row else row)
  }

  /** What the callback looks up about the current row and the two rows after it. */
  datatype Lookahead = Lookahead(rowIsIndex: bool, timing: Result<Timing, Error>,
                                 nextIsTimestamp: bool, isLastRow: bool, nextIsCaption: bool)

  /** The lookups for row `index` of `source`; a row past the end is neither an index nor a timestamp. */
  function LookaheadIn(source: seq<string>, index: nat): Lookahead
    requires index < |source|
  {
    Lookahead(IsIndex(source[index]), ParseTimestamps(source[index]),
              index + 1 < |source| && IsTimestampLine(source[index + 1]),
              index == |source| - 1,
              index + 1 < |source| && IsIndex(source[index + 1])
                && index + 2 < |source| && IsTimestampLine(source[index + 2]))
  }

  /** The effect of `row`, which is row `n` (from 0) of the source, given the lookups `la`. */
  function Transition(st: State, n: nat, row: string, la: Lookahead): Result<State, Error> {
    if st.expecting == ExpectIndex && la.rowIsIndex then Ok(st.(expecting := ExpectTimestamp))
    else if st.expecting != ExpectText then
      if la.timing.Err? then Err(UnexpectedRow("timestamp", n + 1, row))
      else Ok(State(ExpectText, WithTiming(st.caption, la.timing.value), st.captions))
    else if la.nextIsTimestamp then
      Ok(State(ExpectTimestamp, EmptyCaption, st.captions + [st.caption]))
    else if la.isLastRow || la.nextIsCaption then
      Ok(State(ExpectIndex, EmptyCaption, st.captions + [st.caption]))
    else Ok(st.(caption := WithRow(st.caption, row)))
  }

  /**
   * The effect of the row `rows[0]`, which is row `n` (from 0) of the source; `rows[1]` and
   * `rows[2]` are the rows after it, if there are any.
   */
  function Step(rows: seq<string>, n: nat, st: State): Result<State, Error>
    requires rows != []
  {
    Transition(st, n, rows[0], LookaheadIn(rows, 0))
  }

  /** The cues the machine returns, or the error it throws, from state `st` at row `n`. */
  function Run(rows: seq<string>, n: nat, st: State): Result<seq<Cue>, Error>
    decreases |rows|
  {
    if rows == [] then Ok(st.captions)
    else
      match Step(rows, n, st)
      case Err(e) => Err(e)
      case Ok(next) => Run(rows[1..], n + 1, next)
  }

  /** `parse` as a function of the input text. */
  function ParseText(input: string): Result<seq<Cue>, Error> {
    Run(Normalize(input), 0, Initial)
  }

  /** The `state` record of `parse`, updated by the `forEach` callback one row at a time. */
  class ParserState {
    var expecting: Expect
    var caption: Cue
    var captions: seq<Cue>

    constructor ()
      ensures Snapshot() == Initial
    {
      expecting, caption, captions := ExpectIndex, EmptyCaption, [];
    }

    function Snapshot(): State
      reads this
    {
      State(expecting, caption, captions)
    }

    /** The `forEach` callback for row `index`; `Some` is the error it throws. */
    method HandleRow(source: seq<string>, index: nat) returns (thrown: Option<Error>)
      requires index < |source|
      modifies this
      ensures var next := Transition(old(Snapshot()), index, source[index], LookaheadIn(source, index));
        if next.Ok? then thrown == None && Snapshot() == next.value else thrown == Some(next.error)
    {
      var row := source[index];
      var la := LookaheadIn(source, index);
      ghost var next := Transition(Snapshot(), index, row, la);
      if expecting == ExpectIndex {
        expecting := ExpectTimestamp;
        if la.rowIsIndex {
          assert next == Ok(Snapshot());
          return None;
        }
      }
      if expecting == ExpectTimestamp {
        if la.timing.Err? {
          assert next == Err(UnexpectedRow("timestamp", index + 1, row));
          return Some(UnexpectedRow("timestamp", index + 1, row));
        }
        caption := WithTiming(caption, la.timing.value);
        expecting := ExpectText;
        assert next == Ok(Snapshot());
        return None;
      }
      if la.nextIsTimestamp {
        expecting := ExpectTimestamp;
        captions := captions + [caption];
        caption := EmptyCaption;
        assert next == Ok(Snapshot());
        return None;
      }
      if la.isLastRow || la.nextIsCaption {
        expecting := ExpectIndex;
        captions := captions + [caption];
        caption := EmptyCaption;
      } else {
        caption := WithRow(caption, row);
      }
      assert next == Ok(Snapshot());
      return None;
    }
  }

  /** The lookups of the first of the remaining rows are those of the same row in the whole source. */
  lemma LookaheadSuffix(source: seq<string>, index: nat)
    requires index < |source|
    ensures LookaheadIn(source[index..], 0) == LookaheadIn(source, index)
  {
    var rows := source[index..];
    assert rows[0] == source[index];
    assert |rows| > 1 ==> rows[1] == source[index + 1];
    assert |rows| > 2 ==> rows[2] == source[index + 2];
  }

  lemma RunStep(rows: seq<string>, n: nat, st: State)
    requires rows != []
    ensures Step(rows, n, st).Ok? ==> Run(rows, n, st) == Run(rows[1..], n + 1, Step(rows, n, st).value)
    ensures Step(rows, n, st).Err? ==> Run(rows, n, st) == Err(Step(rows, n, st).error)
  {
  }

  /** `parse`: the rows of `normalize`, handed one by one to the callback. */
  method Parse(input: string) returns (r: Result<seq<Cue>, Error>)
    ensures r == ParseText(input)
  {
    r := ParseRows(Normalize(input));
  }

  /** The `forEach` loop of `parse` over the normalized rows. */
  method ParseRows(source: seq<string>) returns (r: Result<seq<Cue>, Error>)
    ensures r == Run(source, 0, Initial)
  {
    var state := new ParserState();
    var index := 0;
    while index < |source|
      invariant 0 <= index <= |source|
      invariant Run(source, 0, Initial) == Run(source[index..], index, state.Snapshot())
    {
      ghost var rows, before := source[index..], state.Snapshot();
      ghost var step := Step(rows, index, before);
      RunStep(rows, index, before);
      LookaheadSuffix(source, index);
      assert rows[1..] == source[index + 1..];
      var thrown := state.HandleRow(source, index);
      if thrown.Some? {
        assert step.Err?;
        return Err(thrown.value);
      }
      assert step.Ok? && state.Snapshot() == step.value;
      index := index + 1;
    }
    r := Ok(state.captions);
  }

  /**
   * Every failure of the machine is an "expected timestamp" error naming the 1-based number
   * of a row that is not a timestamp line, and the content of that row.
   */
  lemma {:induction false} RunErrorNamesRow(rows: seq<string>, n: nat, st: State)
    requires Run(rows, n, st).Err?
    ensures var e := Run(rows, n, st).error;
      && e.UnexpectedRow? && e.expected == "timestamp"
      && n < e.row <= n + |rows| && e.received == rows[e.row - n - 1]
      && !IsTimestampLine(e.received)
  {
    if Step(rows, n, st).Ok? {
      RunErrorNamesRow(rows[1..], n + 1, Step(rows, n, st).value);
    }
  }

  /** `parse` fails only with "expected timestamp at row k", k a row of the normalized input. */
  lemma ParseErrorNamesRow(input: string)
    requires ParseText(input).Err?
    ensures var e := ParseText(input).error; var rows := Normalize(input);
      && e.UnexpectedRow? && 1 <= e.row <= |rows| && e.received == rows[e.row - 1]
      && !IsTimestampLine(e.received) && e.expected == "timestamp"
  {
    RunErrorNamesRow(Normalize(input), 0, Initial);
  }

  /** A row that is neither an index nor a timestamp line where a cue should start throws at that row. */
  lemma MissingTimestampThrows(rows: seq<string>, n: nat, st: State)
    requires rows != [] && st.expecting != ExpectText
    requires !IsTimestampLine(rows[0]) && (st.expecting == ExpectIndex ==> !IsIndex(rows[0]))
    ensures Run(rows, n, st) == Err(UnexpectedRow("timestamp", n + 1, rows[0]))
  {
  }

  lemma TimestampLineIsNoIndex(s: string)
    requires IsTimestampLine(s)
    ensures !IsIndex(s)
  {
    var k := FirstSpace(s, 0);
    ArrowAfterFirstSpace(s, k);
    TimestampStartsWithDigit(s);
    NoIndexWithInnerSpace(s, k);
  }

  /** The first space of a timestamp line opens the ` --> ` arrow. */
  lemma ArrowAfterFirstSpace(s: string, k: nat)
    requires IsTimestampLine(s) && k == FirstSpace(s, 0)
    ensures k + 1 < |s| && s[k] == ' ' && s[k + 1] == '-'
  {
    assert k + 5 <= |s| && s[k..k + 5] == " --> ";
    assert s[k] == s[k..k + 5][0] && s[k + 1] == s[k..k + 5][1];
  }

  /** A row that starts with a digit and has a space before a later non-blank character is no index. */
  lemma NoIndexWithInnerSpace(s: string, k: nat)
    requires k + 1 < |s| && s[k] == ' ' && s[k + 1] == '-' && IsDigit(s[0])
    ensures !IsIndex(s)
  {
    TrimEndKeeps(s, k + 1);
    TrimEndPrefix(s);
    var t := TrimEnd(s);
    assert t[0] == s[0] && t[k] == s[k];
    assert Trim(s) == t;
    IsIndexTrim(s);
  }

  lemma TimestampStartsWithDigit(s: string)
    requires IsTimestampLine(s)
    ensures s != [] && IsDigit(s[0])
  {
    var k := FirstSpace(s, 0);
    var a := s[..k];
    assert Timestamp.IsTimestampText(a);
    assert a[0] == s[0];
    if |a| > 9 {
      var p := a[..|a| - 9];
      assert p[..|p| - 1][0] == a[0];
    }
  }

  /**
   * The digits-only index row of a block is optional: with or without it in front of a
   * timestamp line the machine gives the same cues or the same error.
   */
  lemma IndexRowOptional(idx: string, rows: seq<string>, n: nat, captions: seq<Cue>)
    requires IsIndex(idx) && rows != [] && IsTimestampLine(rows[0])
    ensures Run([idx] + rows, n, State(ExpectIndex, EmptyCaption, captions))
         == Run(rows, n + 1, State(ExpectIndex, EmptyCaption, captions))
  {
    var m := n + 1;
    SkipIndexRow(idx, rows, n, m, captions);
    TimestampRowFromIndex(rows, m, captions);
  }

  /** An index row where one is expected only moves the machine on to the timestamp. */
  lemma SkipIndexRow(idx: string, rows: seq<string>, n: nat, m: nat, captions: seq<Cue>)
    requires IsIndex(idx) && m == n + 1
    ensures Run([idx] + rows, n, State(ExpectIndex, EmptyCaption, captions))
         == Run(rows, m, State(ExpectTimestamp, EmptyCaption, captions))
  {
    var all := [idx] + rows;
    assert all[0] == idx && all[1..] == rows;
    assert LookaheadIn(all, 0).rowIsIndex;
    RunStep(all, n, State(ExpectIndex, EmptyCaption, captions));
  }

  /** A timestamp row has the same effect whether an index or a timestamp is expected. */
  lemma TimestampRowFromIndex(rows: seq<string>, m: nat, captions: seq<Cue>)
    requires rows != [] && IsTimestampLine(rows[0])
    ensures Run(rows, m, State(ExpectIndex, EmptyCaption, captions))
         == Run(rows, m, State(ExpectTimestamp, EmptyCaption, captions))
  {
    var atIndex := State(ExpectIndex, EmptyCaption, captions);
    var atTimestamp := State(ExpectTimestamp, EmptyCaption, captions);
    TimestampLineIsNoIndex(rows[0]);
    var la := LookaheadIn(rows, 0);
    assert !la.rowIsIndex;
    NoIndexTransition(m, rows[0], la, captions);
    RunSameStep(rows, m, atIndex, atTimestamp);
  }

  /** A row that is no index has the same effect whether an index or a timestamp is expected. */
  lemma NoIndexTransition(m: nat, row: string, la: Lookahead, captions: seq<Cue>)
    requires !la.rowIsIndex
    ensures Transition(State(ExpectIndex, EmptyCaption, captions), m, row, la)
         == Transition(State(ExpectTimestamp, EmptyCaption, captions), m, row, la)
  {
  }

  /** Two states in which the next row has the same effect give the same run. */
  lemma RunSameStep(rows: seq<string>, m: nat, a: State, b: State)
    requires rows != [] && Step(rows, m, a) == Step(rows, m, b)
    ensures Run(rows, m, a) == Run(rows, m, b)
  {
  }
}
