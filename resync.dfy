/** `resync(captions, time)`: every cue moved by the same number of milliseconds. */
module Resync {
  import opened Cues
  import opened Search

  function Shift(c: Cue, d: int): Cue {
    c.(start := c.start + d, end := c.end + d)
  }

  /** Copies of the cues with start and end moved by `d`. */
  function Resync(cs: seq<Cue>, d: int): (r: seq<Cue>)
    ensures |r| == |cs|
    ensures forall i :: 0 <= i < |cs| ==>
      r[i].start - cs[i].start == d && r[i].end - cs[i].end == d
    ensures forall i :: 0 <= i < |cs| ==>
      r[i].text == cs[i].text && r[i].settings == cs[i].settings
  {
    seq(|cs|, i requires 0 <= i < |cs| => Shift(cs[i], d))
  }

  function Starts(cs: seq<Cue>): (r: seq<int>)
    ensures |r| == |cs|
    ensures forall i :: 0 <= i < |cs| ==> r[i] == cs[i].start
  {
    seq(|cs|, i requires 0 <= i < |cs| => cs[i].start)
  }

  /** Two tracks whose cues have the same start and end, position by position. */
  predicate SameTimes(a: seq<Cue>, b: seq<Cue>) {
    |a| == |b| && forall i :: 0 <= i < |a| ==> a[i].start == b[i].start && a[i].end == b[i].end
  }

  /** Tracks with the same times have the same start array, ascending or not. */
  lemma SameTimesStarts(a: seq<Cue>, b: seq<Cue>)
    requires SameTimes(a, b)
    ensures Starts(a) == Starts(b)
  {
  }

  /** Moving back by the same amount restores the cues. */
  lemma ResyncInverse(cs: seq<Cue>, d: int)
    ensures Resync(Resync(cs, d), 0 - d) == cs
  {
    var back := Resync(Resync(cs, d), 0 - d);
    forall i | 0 <= i < |cs|
      ensures back[i] == cs[i]
    {
    }
  }

  /** Two moves are one move by the sum. */
  lemma ResyncCompose(cs: seq<Cue>, d: int, e: int)
    ensures Resync(Resync(cs, d), e) == Resync(cs, d + e)
  {
    var two := Resync(Resync(cs, d), e);
    forall i | 0 <= i < |cs|
      ensures two[i] == Resync(cs, d + e)[i]
    {
    }
  }

  /** Durations are kept, and so is the order of start times. */
  lemma ResyncKeepsShape(cs: seq<Cue>, d: int)
    ensures forall i :: 0 <= i < |cs| ==>
      Resync(cs, d)[i].end - Resync(cs, d)[i].start == cs[i].end - cs[i].start
    ensures Ascending(Starts(cs)) <==> Ascending(Starts(Resync(cs, d)))
  {
  }
}
