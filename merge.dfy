/**
 * `merge(srtPrimary, srtSecondary, attrs, noString)`: both tracks parsed, the attribute tokens
 * sorted and applied one after the other, and the two tracks combined into one sorted by start.
 */
module Merge {
  import opened Strings
  import opened Wrappers
  import opened Errors
  import opened Timestamp
  import opened Cues
  import opened Parser
  import opened Serializer
  import opened Sorting
  import opened Attrs
  import opened Positions
  import opened Resync
  import N = Nearest

  /** A track given as text: the empty text is the empty track, anything else is parsed. */
  function ParseTrack(s: string): (r: Result<seq<Cue>, Error>)
    ensures s == "" ==> r == Ok([])
    ensures s != "" ==> r == ParseText(s)
  {
    if s == "" then Ok([]) else ParseText(s)
  }

  /** The effect of one attribute on the two tracks. */
  function ApplyAttr(a: Attr, tr: N.Tracks): (r: Result<N.Tracks, Error>)
    ensures r.Err? <==> a.Nearest? && tr.primary == [] && tr.secondary != []
    ensures r.Err? ==> r.error == NoPrimaryCue
    ensures r.Ok? ==> SameTimes(r.value.primary, tr.primary)
    ensures r.Ok? ==> |r.value.secondary| <= |tr.secondary|
    ensures r.Ok? && !(a.Nearest? && !a.noAppend) ==> |r.value.secondary| == |tr.secondary|
  {
    match a
    case TopBottom =>
      Ok(N.Tracks(ClearPosition(tr.primary), AlignTop(ClearPosition(tr.secondary))))
    case Nearest(threshold, noAppend) =>
      if tr.primary == [] then
        N.EmptyPrimary(tr.secondary, threshold, noAppend);
        N.NearestCue(tr.primary, tr.secondary, threshold, noAppend)
      else if noAppend then
        N.NoAppendEffect(tr.primary, tr.secondary, threshold);
        N.NearestCue(tr.primary, tr.secondary, threshold, noAppend)
      else
        N.AppendEffect(tr.primary, tr.secondary, threshold);
        N.NearestCue(tr.primary, tr.secondary, threshold, noAppend)
    case Move(delay) => Ok(N.Tracks(tr.primary, Resync.Resync(tr.secondary, delay)))
    case NoOp => Ok(tr)
  }

  /** Whether a token asks for the append form of `nearest-cue`, the one that drops cues. */
  predicate Absorbs(token: string) {
    var a := ParseAttr(token);
    a.Ok? && a.value.Nearest? && !a.value.noAppend
  }

  /**
   * The `forEach` over the sorted tokens: each token read and applied, the first rejected
   * token or failing attribute ending the merge. The primary track keeps its times, and the
   * secondary only loses cues to a token that absorbs them.
   */
  function ApplyTokens(tokens: seq<string>, tr: N.Tracks): (r: Result<N.Tracks, Error>)
    ensures r.Ok? ==> SameTimes(r.value.primary, tr.primary)
    ensures r.Ok? ==> |r.value.secondary| <= |tr.secondary|
    ensures r.Ok? && (forall i :: 0 <= i < |tokens| ==> !Absorbs(tokens[i])) ==>
      |r.value.secondary| == |tr.secondary|
    decreases |tokens|
  {
    if tokens == [] then Ok(tr)
    else
      var a :- ParseAttr(tokens[0]);
      var next :- ApplyAttr(a, tr);
      ApplyTokens(tokens[1..], next)
  }

  /** The key of the final sort, `caption1.start - caption2.start`. */
  function StartOf(c: Cue): int {
    c.start
  }

  /** `srtPrimary.concat(srtSecondary)` sorted by start. */
  function Combine(tr: N.Tracks): seq<Cue> {
    SortBy(tr.primary + tr.secondary, StartOf)
  }

  /** The two forms `merge` returns: the cues, or their SRT text. */
  datatype Output = Merged(cues: seq<Cue>) | Serialized(text: string)

  /** `merge` on the cues: parse, apply the sorted tokens, combine. */
  function MergeCues(primary: string, secondary: string, attrs: seq<string>): Result<seq<Cue>, Error> {
    var p :- ParseTrack(primary);
    var s :- ParseTrack(secondary);
    var tr :- ApplyTokens(SortAttrs(attrs), N.Tracks(p, s));
    Ok(Combine(tr))
  }

  /** `merge(...)`: the cues when `noString`, else `stringify` with its default SRT format. */
  function MergeText(primary: string, secondary: string, attrs: seq<string>, noString: bool)
    : Result<Output, Error>
  {
    var all :- MergeCues(primary, secondary, attrs);
    Ok(if noString then Merged(all) else Serialized(Stringify(all, Srt)))
  }

  // ----- Properties of the merge -----

  /**
   * The combined track is both tracks' cues, ascending by start; among cues with the same start
   * the primary ones come first, each track's in its own order.
   */
  lemma CombineOrdered(tr: N.Tracks)
    ensures var all := Combine(tr);
      && |all| == |tr.primary| + |tr.secondary|
      && multiset(all) == multiset(tr.primary + tr.secondary)
      && (forall i, j :: 0 <= i < j < |all| ==> all[i].start <= all[j].start)
      && (forall k :: WithKey(all, StartOf, k)
                   == WithKey(tr.primary, StartOf, k) + WithKey(tr.secondary, StartOf, k))
  {
    var all := Combine(tr);
    SortSorted(tr.primary + tr.secondary, StartOf);
    assert forall i, j :: 0 <= i < j < |all| ==> StartOf(all[i]) <= StartOf(all[j]);
    forall k
      ensures WithKey(all, StartOf, k) == WithKey(tr.primary, StartOf, k) + WithKey(tr.secondary, StartOf, k)
    {
      SortStable(tr.primary + tr.secondary, StartOf, k);
      WithKeyAppend(tr.primary, tr.secondary, StartOf, k);
    }
  }

  /** A token that is rejected anywhere in the list makes the whole application fail. */
  lemma {:induction false} RejectedFails(tokens: seq<string>, tr: N.Tracks, i: nat)
    requires i < |tokens| && ParseAttr(tokens[i]).Err?
    ensures ApplyTokens(tokens, tr).Err?
    decreases i
  {
    var t := tokens[0];
    var a := ParseAttr(t);
    if i == 0 {
      FirstTokenRejected(tokens, t, tr);
    } else if a.Ok? {
      var next := ApplyAttr(a.value, tr);
      if next.Ok? {
        RejectedFails(tokens[1..], next.value, i - 1);
        ApplyFirstToken(tokens, t, tr, a.value, next.value);
      } else {
        FirstTokenStuck(tokens, t, tr, a.value);
      }
    } else {
      FirstTokenRejected(tokens, t, tr);
    }
  }

  lemma FirstTokenRejected(tokens: seq<string>, t: string, tr: N.Tracks)
    requires tokens != [] && tokens[0] == t && ParseAttr(t).Err?
    ensures ApplyTokens(tokens, tr).Err?
  {
  }

  lemma FirstTokenStuck(tokens: seq<string>, t: string, tr: N.Tracks, a: Attr)
    requires tokens != [] && tokens[0] == t && ParseAttr(t) == Ok(a) && ApplyAttr(a, tr).Err?
    ensures ApplyTokens(tokens, tr) == Err(NoPrimaryCue)
  {
  }

  /** A rejected token anywhere in the caller's list makes the merge fail. */
  lemma RejectedTokenFails(attrs: seq<string>, tr: N.Tracks, i: nat)
    requires i < |attrs| && ParseAttr(attrs[i]).Err?
    ensures ApplyTokens(SortAttrs(attrs), tr).Err?
  {
    var sorted := SortAttrs(attrs);
    assert attrs[i] in multiset(sorted);
    var j :| 0 <= j < |sorted| && sorted[j] == attrs[i];
    RejectedFails(sorted, tr, j);
  }

  /** The application fails with "Cannot parse attr" only where some token is rejected. */
  lemma {:induction false} BadAttributeFromToken(tokens: seq<string>, tr: N.Tracks)
    requires ApplyTokens(tokens, tr) == Err(BadAttribute)
    ensures exists i :: 0 <= i < |tokens| && ParseAttr(tokens[i]).Err?
    decreases |tokens|
  {
    var t := tokens[0];
    var a := ParseAttr(t);
    if a.Ok? {
      var next := ApplyAttr(a.value, tr);
      if next.Err? {
        assert false;
      }
      ApplyFirstToken(tokens, t, tr, a.value, next.value);
      BadAttributeFromToken(tokens[1..], next.value);
      var i :| 0 <= i < |tokens[1..]| && ParseAttr(tokens[1..][i]).Err?;
      assert tokens[i + 1] == tokens[1..][i];
    } else {
      assert ParseAttr(tokens[0]).Err?;
    }
  }

  /**
   * The merge fails with "Cannot parse attr" only when one of the caller's tokens is rejected,
   * the converse of RejectedTokenFails.
   */
  lemma BadAttributeNamesToken(attrs: seq<string>, tr: N.Tracks)
    requires ApplyTokens(SortAttrs(attrs), tr) == Err(BadAttribute)
    ensures exists i :: 0 <= i < |attrs| && ParseAttr(attrs[i]).Err?
  {
    var sorted := SortAttrs(attrs);
    BadAttributeFromToken(sorted, tr);
    var j :| 0 <= j < |sorted| && ParseAttr(sorted[j]).Err?;
    AttrsOrdered(attrs);
    assert sorted[j] in multiset(attrs);
    var i :| 0 <= i < |attrs| && attrs[i] == sorted[j];
  }

  /**
   * The tokens ranked -1 are applied first, in their given order, so when the first of them is
   * rejected the merge throws "Cannot parse attr" before any other token has an effect.
   */
  lemma LeadingRejected(attrs: seq<string>, tr: N.Tracks)
    requires WithKey(attrs, Rank, -1) != []
    requires ParseAttr(WithKey(attrs, Rank, -1)[0]).Err?
    ensures ApplyTokens(SortAttrs(attrs), tr) == Err(BadAttribute)
  {
    var sorted := SortAttrs(attrs);
    AttrsOrdered(attrs);
    KeyOccurs(sorted, Rank, -1);
    var m :| 0 <= m < |sorted| && Rank(sorted[m]) == -1;
    assert Rank(sorted[0]) <= Rank(sorted[m]);
    assert WithKey(sorted, Rank, -1)[0] == sorted[0];
  }

  /**
   * Moving the secondary track by `d` and then by `-d` leaves both tracks as they were; the
   * tokens `"move-" + d` and `"move-" + (-d)` are such a pair.
   */
  lemma MoveUndo(first: string, second: string, tr: N.Tracks, d: int)
    requires ParseAttr(first) == Ok(Move(d)) && ParseAttr(second) == Ok(Move(0 - d))
    ensures ApplyTokens([first, second], tr) == Ok(tr)
  {
    var moved := N.Tracks(tr.primary, Resync.Resync(tr.secondary, d));
    MoveAttr(tr, d, moved);
    MoveBack(tr, d, moved);
    TwoTokens(first, second, tr, Move(d), moved, Move(0 - d), tr);
  }

  /** Two tokens that read and apply cleanly, one after the other. */
  lemma TwoTokens(first: string, second: string, tr: N.Tracks, a: Attr, mid: N.Tracks, b: Attr, last: N.Tracks)
    requires ParseAttr(first) == Ok(a) && ApplyAttr(a, tr) == Ok(mid)
    requires ParseAttr(second) == Ok(b) && ApplyAttr(b, mid) == Ok(last)
    ensures ApplyTokens([first, second], tr) == Ok(last)
  {
    ApplyFirstToken([first, second], first, tr, a, mid);
    assert [first, second][1..] == [second];
    ApplyFirstToken([second], second, mid, b, last);
    assert [second][1..] == [];
  }

  /** Moving back by `-d` restores the tracks moved by `d`. */
  lemma MoveBack(tr: N.Tracks, d: int, moved: N.Tracks)
    requires moved == N.Tracks(tr.primary, Resync.Resync(tr.secondary, d))
    ensures ApplyAttr(Move(0 - d), moved) == Ok(tr)
  {
    ResyncInverse(tr.secondary, d);
    MoveAttr(moved, 0 - d, tr);
  }

  /** `move-D` shifts the secondary track only. */
  lemma MoveAttr(tr: N.Tracks, d: int, moved: N.Tracks)
    requires moved == N.Tracks(tr.primary, Resync.Resync(tr.secondary, d))
    ensures ApplyAttr(Move(d), tr) == Ok(moved)
  {
  }

  /** A list of tokens whose first one reads and applies cleanly goes on with the rest. */
  lemma ApplyFirstToken(tokens: seq<string>, t: string, tr: N.Tracks, a: Attr, next: N.Tracks)
    requires tokens != [] && tokens[0] == t && ParseAttr(t) == Ok(a) && ApplyAttr(a, tr) == Ok(next)
    ensures ApplyTokens(tokens, tr) == ApplyTokens(tokens[1..], next)
  {
  }

  /**
   * `top-bottom` keeps every time, clears the tags of both tracks, puts the secondary cues at
   * the top, and leaves texts without an opening brace in the primary track unchanged.
   */
  lemma TopBottomEffect(tr: N.Tracks)
    ensures var r := ApplyAttr(TopBottom, tr);
      && r.Ok?
      && SameTimes(r.value.primary, tr.primary) && SameTimes(r.value.secondary, tr.secondary)
      && (forall i :: 0 <= i < |tr.primary| ==> r.value.primary[i].text == ClearText(tr.primary[i].text))
      && (forall i :: 0 <= i < |tr.secondary| ==>
            r.value.secondary[i].text == TopAlign + ClearText(tr.secondary[i].text))
      && (forall i :: 0 <= i < |tr.primary| && (forall k :: 0 <= k < |tr.primary[i].text| ==> tr.primary[i].text[k] != '{') ==>
            r.value.primary[i] == tr.primary[i])
  {
    var r := ApplyAttr(TopBottom, tr);
    forall i | 0 <= i < |tr.primary| && (forall k :: 0 <= k < |tr.primary[i].text| ==> tr.primary[i].text[k] != '{')
      ensures r.value.primary[i] == tr.primary[i]
    {
      ClearPlainText(tr.primary[i].text);
    }
  }

  /** In append mode the secondary track loses exactly the cues the primary cues take. */
  lemma AppendCount(tr: N.Tracks, threshold: int)
    requires tr.primary != []
    ensures var r := ApplyAttr(Nearest(threshold, false), tr);
      r.Ok? && |r.value.secondary| + N.MatchedCount(Starts(tr.primary), tr.secondary, threshold) == |tr.secondary|
  {
    N.AppendEffect(tr.primary, tr.secondary, threshold);
    N.UnmatchedCount(Starts(tr.primary), tr.secondary, threshold);
  }

  /**
   * The primary track keeps its times through every token, so start times that are ascending
   * to begin with are ascending for every `nearest-cue` token.
   */
  lemma {:induction false} TokensKeepPrimaryOrder(tokens: seq<string>, tr: N.Tracks)
    requires Search.Ascending(Starts(tr.primary))
    ensures ApplyTokens(tokens, tr).Ok? ==> Search.Ascending(Starts(ApplyTokens(tokens, tr).value.primary))
  {
    if ApplyTokens(tokens, tr).Ok? {
      SameTimesStarts(ApplyTokens(tokens, tr).value.primary, tr.primary);
    }
  }

  /**
   * A merge that succeeds returns at most as many cues as the two parsed tracks hold, exactly
   * as many when no token absorbs cues, ascending by start.
   */
  lemma MergeLength(primary: string, secondary: string, attrs: seq<string>)
    requires MergeCues(primary, secondary, attrs).Ok?
    ensures ParseTrack(primary).Ok? && ParseTrack(secondary).Ok?
    ensures var all := MergeCues(primary, secondary, attrs).value;
      var n := |ParseTrack(primary).value| + |ParseTrack(secondary).value|;
      && |all| <= n
      && ((forall i :: 0 <= i < |attrs| ==> !Absorbs(attrs[i])) ==> |all| == n)
      && (forall i, j :: 0 <= i < j < |all| ==> all[i].start <= all[j].start)
  {
    var p, s := ParseTrack(primary).value, ParseTrack(secondary).value;
    var sorted := SortAttrs(attrs);
    var tr := ApplyTokens(sorted, N.Tracks(p, s)).value;
    CombineOrdered(tr);
    if forall i :: 0 <= i < |attrs| ==> !Absorbs(attrs[i]) {
      forall j | 0 <= j < |sorted|
        ensures !Absorbs(sorted[j])
      {
        assert sorted[j] in multiset(attrs);
      }
    }
  }

  /** One pass of the `forEach` callback: the copies and edits each attribute makes. */
  method ApplyOne(a: Attr, tr: N.Tracks) returns (r: Result<N.Tracks, Error>)
    ensures r == ApplyAttr(a, tr)
  {
    match a {
      case TopBottom =>
        var cleared := ClearPosition(tr.secondary);
        var sec := new Cue[|cleared|](i requires 0 <= i < |cleared| => cleared[i]);
        assert sec[..] == cleared;
        AlignTopInPlace(sec);
        r := Ok(N.Tracks(ClearPosition(tr.primary), sec[..]));
      case Nearest(threshold, noAppend) =>
        r := N.RunNearestCue(tr.primary, tr.secondary, threshold, noAppend);
      case Move(delay) =>
        r := Ok(N.Tracks(tr.primary, Resync.Resync(tr.secondary, delay)));
      case NoOp =>
        r := Ok(tr);
    }
  }

  /** The `forEach` over the sorted tokens, stopping at the first exception. */
  method ApplyAll(tokens: array<string>, tr0: N.Tracks) returns (r: Result<N.Tracks, Error>)
    ensures r == ApplyTokens(tokens[..], tr0)
  {
    var tr := tr0;
    var k := 0;
    while k < tokens.Length
      invariant 0 <= k <= tokens.Length
      invariant ApplyTokens(tokens[k..], tr) == ApplyTokens(tokens[..], tr0)
    {
      assert tokens[k..][1..] == tokens[k + 1..];
      var a := ParseAttr(tokens[k]);
      if a.Err? {
        return Err(a.error);
      }
      var next := ApplyOne(a.value, tr);
      if next.Err? {
        return Err(next.error);
      }
      tr := next.value;
      k := k + 1;
    }
    assert tokens[k..] == [];
    r := Ok(tr);
  }

  /** `srt3 = srtPrimary.concat(srtSecondary)` and its in-place sort. */
  method CombineTracks(tr: N.Tracks) returns (all: seq<Cue>)
    ensures all == Combine(tr)
  {
    var joined := tr.primary + tr.secondary;
    var a := new Cue[|joined|](i requires 0 <= i < |joined| => joined[i]);
    assert a[..] == joined;
    SortInPlace(a, StartOf);
    all := a[..];
  }

  /**
   * The function as the script runs it: the tokens are sorted in the caller's array (only once
   * both tracks have been read), the attributes replace the tracks one after the other, and the
   * combined cues are sorted in an array of their own.
   */
  method Merge(primary: string, secondary: string, attrs: array<string>, noString: bool)
    returns (r: Result<Output, Error>)
    modifies attrs
    ensures r == MergeText(primary, secondary, old(attrs[..]), noString)
    ensures attrs[..] == if ParseTrack(primary).Ok? && ParseTrack(secondary).Ok?
      then SortAttrs(old(attrs[..])) else old(attrs[..])
  {
    var p: seq<Cue> := [];
    if primary != "" {
      var parsed := Parse(primary);
      if parsed.Err? {
        return Err(parsed.error);
      }
      p := parsed.value;
    }
    var s: seq<Cue> := [];
    if secondary != "" {
      var parsed := Parse(secondary);
      if parsed.Err? {
        return Err(parsed.error);
      }
      s := parsed.value;
    }
    SortInPlace(attrs, Rank);
    var applied := ApplyAll(attrs, N.Tracks(p, s));
    if applied.Err? {
      return Err(applied.error);
    }
    var all := CombineTracks(applied.value);
    r := Ok(if noString then Merged(all) else Serialized(Stringify(all, Srt)));
  }
}
