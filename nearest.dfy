/**
 * The `nearest-cue-T` and `nearest-cue-T-no-append` attributes: each secondary cue is matched,
 * through a binary search over the primary start times, to a primary cue starting within `T`
 * milliseconds of it, and is then either folded into that cue's text or re-timed to it.
 */
module Nearest {
  import opened Wrappers
  import opened Errors
  import opened Cues
  import opened Search
  import opened Resync

  /** The two tracks `merge` carries from one attribute to the next. */
  datatype Tracks = Tracks(primary: seq<Cue>, secondary: seq<Cue>)

  function Abs(x: int): nat {
    if x < 0 then 0 - x else x
  }

  /**
   * The primary cue a secondary cue starting at `v` goes to, tried in the code's order:
   * the cue the search lands on, else the first cue when the search falls off the left end,
   * else the next cue. With no primary cue at all, reading the first one fails.
   */
  function MatchIndex(starts: seq<int>, v: int, threshold: int): (r: Result<Option<nat>, Error>)
    ensures r.Err? <==> starts == []
    ensures r.Err? ==> r.error == NoPrimaryCue
    ensures r.Ok? && r.value.Some? ==> r.value.value < |starts|
  {
    var i := Search.Search(v, starts);
    if i == -1 then
      if starts == [] then Err(NoPrimaryCue)
      else if starts[0] - v <= threshold then Ok(Some(0))
      else Ok(None)
    else if v - starts[i] <= threshold then Ok(Some(i))
    else if i == |starts| - 1 then Ok(None)
    else if starts[i + 1] - v <= threshold then Ok(Some(i + 1))
    else Ok(None)
  }

  /** The `-no-append` edit: `c` takes the start of `p`, and its end when the ends are close. */
  function Snap(p: Cue, c: Cue, threshold: int): Cue {
    var moved := c.(start := p.start);
    if Abs(c.end - p.end) <= threshold then moved.(end := p.end) else moved
  }

  /** The append edit: `p` gains the text of `c` on a new line. */
  function Absorb(p: Cue, c: Cue): Cue {
    p.(text := p.text + "\n" + c.text)
  }

  /** The `map` over the secondary cues still to come, with `prim` and `out` so far. */
  function NearestFrom(starts: seq<int>, prim: seq<Cue>, out: seq<Cue>, rest: seq<Cue>,
                       threshold: int, noAppend: bool): Result<Tracks, Error>
    requires |prim| == |starts|
    decreases |rest|
  {
    if rest == [] then Ok(Tracks(prim, out))
    else
      var c := rest[0];
      match MatchIndex(starts, c.start, threshold)
      case Err(e) => Err(e)
      case Ok(None) => NearestFrom(starts, prim, out + [c], rest[1..], threshold, noAppend)
      case Ok(Some(j)) =>
        if noAppend then
          NearestFrom(starts, prim, out + [Snap(prim[j], c, threshold)], rest[1..], threshold, noAppend)
        else
          NearestFrom(starts, prim[j := Absorb(prim[j], c)], out, rest[1..], threshold, noAppend)
  }

  /** The tracks after `nearest-cue-threshold`, with `-no-append` when `noAppend`. */
  function NearestCue(primary: seq<Cue>, secondary: seq<Cue>, threshold: int, noAppend: bool)
    : Result<Tracks, Error>
  {
    NearestFrom(Starts(primary), primary, [], secondary, threshold, noAppend)
  }

  lemma StartsUpdate(ps: seq<Cue>, j: nat, c: Cue)
    requires j < |ps| && c.start == ps[j].start
    ensures Starts(ps[j := c]) == Starts(ps)
  {
  }

  /**
   * The attribute's loop: the start array is built once, the primary cues are copied into an
   * array whose entries the append edit overwrites, and the secondary cues that survive are
   * collected in order.
   */
  method RunNearestCue(primary: seq<Cue>, secondary: seq<Cue>, threshold: int, noAppend: bool)
    returns (r: Result<Tracks, Error>)
    ensures r == NearestCue(primary, secondary, threshold, noAppend)
  {
    var starts := Starts(primary);
    var prim := new Cue[|primary|](i requires 0 <= i < |primary| => primary[i]);
    assert prim[..] == primary;
    var out: seq<Cue> := [];
    var k := 0;
    while k < |secondary|
      invariant 0 <= k <= |secondary|
      invariant prim.Length == |starts|
      invariant Starts(prim[..]) == starts
      invariant NearestFrom(starts, prim[..], out, secondary[k..], threshold, noAppend)
             == NearestCue(primary, secondary, threshold, noAppend)
    {
      var c := secondary[k];
      assert secondary[k..][1..] == secondary[k + 1..];
      var index := BinarySearch(c.start, starts);
      var target := -1;
      if index == -1 {
        if prim.Length == 0 {
          return Err(NoPrimaryCue);
        }
        if prim[0].start - c.start <= threshold {
          target := 0;
        }
      } else if c.start - prim[index].start <= threshold {
        target := index;
      } else if index == prim.Length - 1 {
      } else if prim[index + 1].start - c.start <= threshold {
        target := index + 1;
      }
      assert MatchIndex(starts, c.start, threshold) == if target == -1 then Ok(None) else Ok(Some(target));
      if target == -1 {
        out := out + [c];
      } else if noAppend {
        out := out + [Snap(prim[target], c, threshold)];
      } else {
        StartsUpdate(prim[..], target, Absorb(prim[target], c));
        prim[target] := Absorb(prim[target], c);
      }
      k := k + 1;
    }
    r := Ok(Tracks(prim[..], out));
  }

  // ----- What a match means -----

  /**
   * On ascending start times a cue is matched exactly when some primary cue starts within the
   * threshold of it, and the cue it is matched to is such a cue.
   */
  lemma MatchMeaning(starts: seq<int>, v: int, threshold: int)
    requires Ascending(starts) && starts != []
    ensures var r := MatchIndex(starts, v, threshold);
      && r.Ok?
      && (r.value.Some? <==> exists k :: 0 <= k < |starts| && Abs(starts[k] - v) <= threshold)
      && (r.value.Some? ==> Abs(starts[r.value.value] - v) <= threshold)
  {
    SearchBrackets(v, starts);
    var i := Search.Search(v, starts);
    var r := MatchIndex(starts, v, threshold);
    if r.value.None? {
      forall k | 0 <= k < |starts|
        ensures Abs(starts[k] - v) > threshold
      {
        if i == -1 {
          assert starts[0] <= starts[k];
        } else if k <= i {
          assert starts[k] <= starts[i];
        } else {
          assert starts[i + 1] <= starts[k];
        }
      }
    }
  }

  /** The first candidate that is close enough wins, even when a later one is closer. */
  lemma EarlierCandidateWins()
    ensures MatchIndex([0, 10], 6, 7) == Ok(Some(0))
    ensures Abs(10 - 6) < Abs(0 - 6)
  {
  }

  // ----- What the two modes do to the tracks -----

  /** Whether the cue `c` goes to primary cue `j`. */
  predicate GoesTo(starts: seq<int>, c: Cue, threshold: int, j: nat) {
    MatchIndex(starts, c.start, threshold) == Ok(Some(j))
  }

  /** The secondary cues no primary cue takes, in order. */
  function Unmatched(starts: seq<int>, cs: seq<Cue>, threshold: int): (r: seq<Cue>)
    ensures |r| <= |cs|
  {
    if cs == [] then []
    else
      (if MatchIndex(starts, cs[0].start, threshold) == Ok(None) then [cs[0]] else [])
      + Unmatched(starts, cs[1..], threshold)
  }

  /** How many secondary cues some primary cue takes. */
  function MatchedCount(starts: seq<int>, cs: seq<Cue>, threshold: int): nat {
    if cs == [] then 0
    else
      (if MatchIndex(starts, cs[0].start, threshold) == Ok(None) then 0 else 1)
      + MatchedCount(starts, cs[1..], threshold)
  }

  /** The lines that primary cue `j` gains: `"\n" + c.text` for each cue it takes, in order. */
  function Appended(starts: seq<int>, cs: seq<Cue>, threshold: int, j: nat): string {
    if cs == [] then ""
    else
      (if GoesTo(starts, cs[0], threshold, j) then "\n" + cs[0].text else "")
      + Appended(starts, cs[1..], threshold, j)
  }

  /** Each secondary cue, re-timed to the primary cue that takes it, if any. */
  function Snapped(prim: seq<Cue>, starts: seq<int>, cs: seq<Cue>, threshold: int): (r: seq<Cue>)
    requires |prim| == |starts|
    ensures |r| == |cs|
  {
    if cs == [] then []
    else
      var head := match MatchIndex(starts, cs[0].start, threshold)
        case Ok(Some(j)) => Snap(prim[j], cs[0], threshold)
        case _ => cs[0];
      [head] + Snapped(prim, starts, cs[1..], threshold)
  }

  /** The primary cues with the lines each gains from `cs`. */
  function Grown(prim: seq<Cue>, starts: seq<int>, cs: seq<Cue>, threshold: int): (r: seq<Cue>)
    ensures |r| == |prim|
    ensures forall j :: 0 <= j < |prim| ==>
      r[j] == prim[j].(text := prim[j].text + Appended(starts, cs, threshold, j))
  {
    seq(|prim|, j requires 0 <= j < |prim| => prim[j].(text := prim[j].text + Appended(starts, cs, threshold, j)))
  }

  /** The primary track is unchanged and the secondary cues that no primary cue takes as well. */
  lemma SnappedKeepsUnmatched(prim: seq<Cue>, starts: seq<int>, cs: seq<Cue>, threshold: int, i: nat)
    requires |prim| == |starts| && i < |cs|
    requires MatchIndex(starts, cs[i].start, threshold) == Ok(None)
    ensures Snapped(prim, starts, cs, threshold)[i] == cs[i]
    decreases i
  {
    if i > 0 {
      SnappedKeepsUnmatched(prim, starts, cs[1..], threshold, i - 1);
    }
  }

  lemma {:induction false} NoAppendFrom(starts: seq<int>, prim: seq<Cue>, out: seq<Cue>, rest: seq<Cue>, threshold: int)
    requires |prim| == |starts| && starts != []
    ensures NearestFrom(starts, prim, out, rest, threshold, true)
         == Ok(Tracks(prim, out + Snapped(prim, starts, rest, threshold)))
    decreases |rest|
  {
    if rest == [] {
      assert out + [] == out;
    } else {
      var c := rest[0];
      var head := match MatchIndex(starts, c.start, threshold)
        case Ok(Some(j)) => Snap(prim[j], c, threshold)
        case _ => c;
      NoAppendFrom(starts, prim, out + [head], rest[1..], threshold);
      assert out + [head] + Snapped(prim, starts, rest[1..], threshold)
          == out + ([head] + Snapped(prim, starts, rest[1..], threshold));
    }
  }

  /**
   * With `-no-append` and a primary track, the primary track is unchanged and every secondary
   * cue stays, re-timed to the cue that takes it.
   */
  lemma NoAppendEffect(primary: seq<Cue>, secondary: seq<Cue>, threshold: int)
    requires primary != []
    ensures NearestCue(primary, secondary, threshold, true)
         == Ok(Tracks(primary, Snapped(primary, Starts(primary), secondary, threshold)))
  {
    NoAppendFrom(Starts(primary), primary, [], secondary, threshold);
    assert [] + Snapped(primary, Starts(primary), secondary, threshold)
        == Snapped(primary, Starts(primary), secondary, threshold);
  }

  /** A re-timed cue starts where its primary cue starts, and moves its end only when close. */
  lemma SnapEffect(p: Cue, c: Cue, threshold: int)
    ensures Snap(p, c, threshold).start == p.start
    ensures Snap(p, c, threshold).end == (if Abs(c.end - p.end) <= threshold then p.end else c.end)
    ensures Snap(p, c, threshold).text == c.text && Snap(p, c, threshold).settings == c.settings
  {
  }

  lemma GrowOne(prim: seq<Cue>, starts: seq<int>, c: Cue, rest: seq<Cue>, threshold: int)
    requires |prim| == |starts|
    requires MatchIndex(starts, c.start, threshold) == Ok(None)
    ensures Grown(prim, starts, [c] + rest, threshold) == Grown(prim, starts, rest, threshold)
  {
    var cs := [c] + rest;
    assert cs[0] == c && cs[1..] == rest;
    forall j: nat
      ensures Appended(starts, cs, threshold, j) == Appended(starts, rest, threshold, j)
    {
      assert !GoesTo(starts, c, threshold, j);
      assert Appended(starts, cs, threshold, j) == "" + Appended(starts, rest, threshold, j);
    }
  }

  lemma GrowAt(prim: seq<Cue>, starts: seq<int>, c: Cue, rest: seq<Cue>, threshold: int, m: nat)
    requires |prim| == |starts| && m < |prim|
    requires MatchIndex(starts, c.start, threshold) == Ok(Some(m))
    ensures Grown(prim, starts, [c] + rest, threshold)
         == Grown(prim[m := Absorb(prim[m], c)], starts, rest, threshold)
  {
    var cs := [c] + rest;
    assert cs[0] == c && cs[1..] == rest;
    var a := Grown(prim, starts, cs, threshold);
    var b := Grown(prim[m := Absorb(prim[m], c)], starts, rest, threshold);
    forall j | 0 <= j < |prim|
      ensures a[j] == b[j]
    {
      if j == m {
        assert prim[m].text + ("\n" + c.text + Appended(starts, rest, threshold, j))
            == prim[m].text + "\n" + c.text + Appended(starts, rest, threshold, j);
      } else {
        assert Appended(starts, cs, threshold, j) == "" + Appended(starts, rest, threshold, j);
      }
    }
  }

  lemma {:induction false} AppendFrom(starts: seq<int>, prim: seq<Cue>, out: seq<Cue>, rest: seq<Cue>, threshold: int)
    requires |prim| == |starts| && starts != []
    ensures NearestFrom(starts, prim, out, rest, threshold, false)
         == Ok(Tracks(Grown(prim, starts, rest, threshold), out + Unmatched(starts, rest, threshold)))
    decreases |rest|
  {
    if rest == [] {
      assert out + [] == out;
      forall j | 0 <= j < |prim|
        ensures Grown(prim, starts, rest, threshold)[j] == prim[j]
      {
        assert prim[j].text + "" == prim[j].text;
      }
      assert Grown(prim, starts, rest, threshold) == prim;
    } else {
      var c, tail := rest[0], rest[1..];
      assert rest == [c] + tail;
      var mi := MatchIndex(starts, c.start, threshold);
      if mi == Ok(None) {
        assert NearestFrom(starts, prim, out, rest, threshold, false)
            == NearestFrom(starts, prim, out + [c], tail, threshold, false);
        AppendFrom(starts, prim, out + [c], tail, threshold);
        GrowOne(prim, starts, c, tail, threshold);
        UnmatchedKeeps(starts, c, tail, threshold, out);
      } else {
        var m := mi.value.value;
        var grown := prim[m := Absorb(prim[m], c)];
        assert NearestFrom(starts, prim, out, rest, threshold, false)
            == NearestFrom(starts, grown, out, tail, threshold, false);
        AppendFrom(starts, grown, out, tail, threshold);
        GrowAt(prim, starts, c, tail, threshold, m);
        UnmatchedDrops(starts, c, tail, threshold);
      }
    }
  }

  lemma UnmatchedKeeps(starts: seq<int>, c: Cue, tail: seq<Cue>, threshold: int, out: seq<Cue>)
    requires MatchIndex(starts, c.start, threshold) == Ok(None)
    ensures out + Unmatched(starts, [c] + tail, threshold) == out + [c] + Unmatched(starts, tail, threshold)
  {
    assert ([c] + tail)[0] == c && ([c] + tail)[1..] == tail;
  }

  lemma UnmatchedDrops(starts: seq<int>, c: Cue, tail: seq<Cue>, threshold: int)
    requires MatchIndex(starts, c.start, threshold) != Ok(None)
    ensures Unmatched(starts, [c] + tail, threshold) == Unmatched(starts, tail, threshold)
  {
    assert ([c] + tail)[0] == c && ([c] + tail)[1..] == tail;
    assert Unmatched(starts, [c] + tail, threshold) == [] + Unmatched(starts, tail, threshold);
  }

  /**
   * In append mode with a primary track, each primary cue gains the lines of the secondary cues
   * it takes, in their order, and only the cues no primary cue takes remain in the secondary.
   */
  lemma AppendEffect(primary: seq<Cue>, secondary: seq<Cue>, threshold: int)
    requires primary != []
    ensures NearestCue(primary, secondary, threshold, false)
         == Ok(Tracks(Grown(primary, Starts(primary), secondary, threshold),
                      Unmatched(Starts(primary), secondary, threshold)))
  {
    AppendFrom(Starts(primary), primary, [], secondary, threshold);
    assert [] + Unmatched(Starts(primary), secondary, threshold)
        == Unmatched(Starts(primary), secondary, threshold);
  }

  /** Every secondary cue is either taken or left, so the two counts add up. */
  lemma {:induction false} UnmatchedCount(starts: seq<int>, cs: seq<Cue>, threshold: int)
    ensures |Unmatched(starts, cs, threshold)| + MatchedCount(starts, cs, threshold) == |cs|
    decreases |cs|
  {
    if cs != [] {
      UnmatchedCount(starts, cs[1..], threshold);
    }
  }

  /** Without a primary cue the step fails as soon as there is a secondary cue. */
  lemma EmptyPrimary(secondary: seq<Cue>, threshold: int, noAppend: bool)
    ensures NearestCue([], secondary, threshold, noAppend)
         == if secondary == [] then Ok(Tracks([], [])) else Err(NoPrimaryCue)
  {
  }
}
