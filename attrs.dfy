/**
 * The attribute tokens of `merge`: the order in which they are applied, by the rank of their
 * first character, and the reading of each trimmed token as the operation it names.
 */
module Attrs {
  import opened Strings
  import opened Wrappers
  import opened Errors
  import opened Sorting

  /** The first characters `["s", "t", "m", "n"]` in the order the comparator ranks them. */
  const Order: string := "stmn"

  /** `s.indexOf(c)` for one character: its first position, or -1. */
  function IndexOfChar(s: string, c: char): (r: int)
    ensures -1 <= r < |s|
    ensures r >= 0 ==> s[r] == c && forall k :: 0 <= k < r ==> s[k] != c
    ensures r == -1 ==> forall k :: 0 <= k < |s| ==> s[k] != c
  {
    if s == [] then -1
    else if s[0] == c then 0
    else
      var r := IndexOfChar(s[1..], c);
      if r == -1 then -1 else r + 1
  }

  /** `order.indexOf(attr[0])`; `attr[0]` of the empty token is `undefined`, which ranks -1. */
  function Rank(token: string): (r: int)
    ensures -1 <= r < |Order|
    ensures r >= 0 <==> token != [] && token[0] in Order
    ensures r >= 0 ==> Order[r] == token[0]
  {
    if token == [] then -1 else IndexOfChar(Order, token[0])
  }

  /** `attrs.sort(...)` with the comparator `rank(attr1) - rank(attr2)`. */
  function SortAttrs(attrs: seq<string>): seq<string> {
    SortBy(attrs, Rank)
  }

  /**
   * The tokens are applied in order of rank, each rank's tokens in their given order:
   * the sorted tokens are the given ones, ascending by rank and stable.
   */
  lemma AttrsOrdered(attrs: seq<string>)
    ensures var sorted := SortAttrs(attrs);
      && multiset(sorted) == multiset(attrs)
      && (forall i, j :: 0 <= i < j < |sorted| ==> Rank(sorted[i]) <= Rank(sorted[j]))
      && (forall r :: WithKey(sorted, Rank, r) == WithKey(attrs, Rank, r))
  {
    SortSorted(attrs, Rank);
    forall r
      ensures WithKey(SortAttrs(attrs), Rank, r) == WithKey(attrs, Rank, r)
    {
      SortStable(attrs, Rank, r);
    }
  }

  /** A token starting with `m` is applied before any token starting with `n`. */
  lemma MoveBeforeNearest(attrs: seq<string>, i: nat, j: nat)
    requires i < |SortAttrs(attrs)| && j < |SortAttrs(attrs)|
    requires SortAttrs(attrs)[i] != [] && SortAttrs(attrs)[i][0] == 'm'
    requires SortAttrs(attrs)[j] != [] && SortAttrs(attrs)[j][0] == 'n'
    ensures i < j
  {
    AttrsOrdered(attrs);
    assert Rank(SortAttrs(attrs)[i]) == 2 && Rank(SortAttrs(attrs)[j]) == 3;
  }

  // ----- The JavaScript string operations the token parsing uses -----

  predicate EndsWith(s: string, suffix: string) {
    |suffix| <= |s| && s[|s| - |suffix|..] == suffix
  }

  /** Whether `p` occurs in `s` at position `m`. */
  predicate OccursAt(s: string, p: string, m: int) {
    0 <= m && m + |p| <= |s| && s[m..m + |p|] == p
  }

  /** `s.indexOf(p, k)`: the first position from `k` on where `p` occurs, or -1. */
  function IndexFrom(s: string, p: string, k: nat): (r: int)
    requires k <= |s|
    ensures r == -1 || (k <= r && OccursAt(s, p, r))
    decreases |s| - k
  {
    if k + |p| > |s| then -1
    else if s[k..k + |p|] == p then k
    else if k == |s| then -1
    else IndexFrom(s, p, k + 1)
  }

  function IndexOf(s: string, p: string): int {
    IndexFrom(s, p, 0)
  }

  /** The last position at or below `k` where `p` occurs, or -1. */
  function LastIndexFrom(s: string, p: string, k: int): (r: int)
    requires k + |p| <= |s|
    ensures r == -1 || (r <= k && OccursAt(s, p, r))
    decreases k + 1
  {
    if k < 0 then -1
    else if s[k..k + |p|] == p then k
    else LastIndexFrom(s, p, k - 1)
  }

  /** `s.lastIndexOf(p)`. */
  function LastIndexOf(s: string, p: string): (r: int)
    ensures r == -1 || OccursAt(s, p, r)
  {
    if |p| > |s| then -1 else LastIndexFrom(s, p, |s| - |p|)
  }

  function Signed(negative: bool, n: nat): int {
    if negative then 0 - n else n
  }

  /** `parseInt(s)` for decimal text: leading whitespace, a sign, then the longest digit run. */
  function ParseInt(s: string): Option<int> {
    var u := TrimStart(s);
    var signed := u != [] && (u[0] == '-' || u[0] == '+');
    var body := if signed then u[1..] else u;
    var digits := DigitPrefix(body);
    if digits == [] then None
    else Some(Signed(signed && u[0] == '-', DigitsValue(digits)))
  }

  // ----- Tokens -----

  /** What one attribute token asks for. */
  datatype Attr =
    | TopBottom
    | Nearest(threshold: int, noAppend: bool)
    | Move(delay: int)
    | NoOp

  predicate IsDigitRun(s: string) {
    s != [] && AllDigits(s)
  }

  const NearestPrefix: string := "nearest-cue-"
  const NoAppendSuffix: string := "-no-append"

  /** `/^nearest-cue-[0-9]+(-no-append)?$/`. */
  predicate IsNearestToken(t: string) {
    && StartsWith(t, NearestPrefix)
    && var rest := t[|NearestPrefix|..];
      || IsDigitRun(rest)
      || (EndsWith(rest, NoAppendSuffix) && IsDigitRun(rest[..|rest| - |NoAppendSuffix|]))
  }

  /** `/^move-[-]?[0-9]+$/`. */
  predicate IsMoveToken(t: string) {
    && StartsWith(t, "move-")
    && var rest := t[5..];
      IsDigitRun(rest) || (rest != [] && rest[0] == '-' && IsDigitRun(rest[1..]))
  }

  /** One step of the `forEach` over the sorted tokens: trim, then match the known forms. */
  function ParseAttr(token: string): (r: Result<Attr, Error>)
    ensures r.Err? ==> r.error == BadAttribute
    ensures r.Ok? && r.value.Nearest? ==> r.value.threshold >= 0
  {
    ReadTrimmed(if token != "" then Trim(token) else token)
  }

  /** The matching of the trimmed token against the known forms. */
  function ReadTrimmed(t: string): (r: Result<Attr, Error>)
    ensures r.Err? ==> r.error == BadAttribute
    ensures r.Ok? && r.value.Nearest? ==> r.value.threshold >= 0
  {
    if t == "top-bottom" then Ok(TopBottom)
    else if IsNearestToken(t) then
      NearestFields(t);
      var threshold := ParseInt(t[LastIndexOf(t, "cue-") + 4..]).value;
      Ok(Nearest(threshold, IndexOf(t, NoAppendSuffix) > -1))
    else if IsMoveToken(t) then
      MoveFields(t);
      Ok(Move(ParseInt(t[LastIndexOf(t, "e-") + 2..]).value))
    else if t != "simple" && t != "" then Err(BadAttribute)
    else Ok(NoOp)
  }

  /** Text that starts with a digit run is read as that run. */
  lemma ParseIntBody(body: string, d: string, tail: string)
    requires body == d + tail && IsDigitRun(d) && (tail == [] || !IsDigit(tail[0]))
    ensures body != [] && IsDigit(body[0])
    ensures ParseInt(body) == Some(DigitsValue(d))
  {
    assert body[0] == d[0];
    DigitPrefixOf(d, tail);
    assert TrimStart(body) == body;
  }

  /** A minus sign in front negates what the rest reads as. */
  lemma ParseIntSigned(s: string, body: string, n: nat)
    requires s == "-" + body && body != [] && IsDigit(body[0]) && ParseInt(body) == Some(n)
    ensures ParseInt(s) == Some(0 - n)
  {
    assert TrimStart(s) == s;
    assert s[1..] == body;
    assert TrimStart(body) == body;
  }

  lemma {:induction false} LastIndexFromSkips(s: string, p: string, k: int, i: nat)
    requires p != [] && i <= k && k + |p| <= |s|
    requires s[i..i + |p|] == p
    requires forall m :: i < m <= k ==> s[m] != p[0]
    ensures LastIndexFrom(s, p, k) == i
    decreases k
  {
    if k > i {
      assert s[k..k + |p|][0] == s[k];
      LastIndexFromSkips(s, p, k - 1, i);
    }
  }

  lemma {:induction false} IndexFromFinds(s: string, p: string, k: nat, i: nat)
    requires k <= i && i + |p| <= |s| && s[i..i + |p|] == p
    ensures IndexFrom(s, p, k) != -1
    decreases i - k
  {
    if k < i && s[k..k + |p|] != p {
      IndexFromFinds(s, p, k + 1, i);
    }
  }

  lemma {:induction false} IndexFromMisses(s: string, p: string, k: nat)
    requires k <= |s|
    requires forall m :: k <= m ==> !OccursAt(s, p, m)
    ensures IndexFrom(s, p, k) == -1
    decreases |s| - k
  {
    if k + |p| <= |s| && k < |s| {
      IndexFromMisses(s, p, k + 1);
    }
  }

  /** A nearest-cue token is the prefix, a digit run and maybe the suffix. */
  lemma NearestShape(t: string)
    requires IsNearestToken(t)
    ensures var rest := t[12..];
      var noAppend := !IsDigitRun(rest);
      var d := if noAppend then rest[..|rest| - 10] else rest;
      IsDigitRun(d) && t == NearestPrefix + d + (if noAppend then NoAppendSuffix else "")
  {
    var rest := t[12..];
    assert t == NearestPrefix + rest;
    if !IsDigitRun(rest) {
      SplitSuffix(rest, NoAppendSuffix);
    } else {
      assert rest == rest + "";
    }
  }

  lemma SplitSuffix(s: string, suffix: string)
    requires EndsWith(s, suffix)
    ensures s == s[..|s| - |suffix|] + suffix
  {
  }

  /** In a nearest-cue token the last `cue-` is the one in the prefix. */
  lemma NearestCueAt(d: string, suffix: string)
    requires IsDigitRun(d) && (suffix == "" || suffix == NoAppendSuffix)
    ensures LastIndexOf(NearestPrefix + d + suffix, "cue-") == 8
  {
    var t := NearestPrefix + d + suffix;
    assert t[8..12] == "cue-";
    forall m | 8 < m < |t|
      ensures t[m] != 'c'
    {
      if m < 12 {
        assert t[m] == NearestPrefix[m];
      } else if m < 12 + |d| {
        assert t[m] == d[m - 12];
      } else {
        assert t[m] == suffix[m - 12 - |d|];
      }
    }
    LastIndexFromSkips(t, "cue-", |t| - 4, 8);
  }

  lemma NoAppendFound(d: string)
    requires IsDigitRun(d)
    ensures IndexOf(NearestPrefix + d + NoAppendSuffix, NoAppendSuffix) > -1
  {
    var t := NearestPrefix + d + NoAppendSuffix;
    assert t[12 + |d|..] == NoAppendSuffix;
    IndexFromFinds(t, NoAppendSuffix, 0, 12 + |d|);
  }

  lemma NoAppendMissing(d: string)
    requires IsDigitRun(d)
    ensures IndexOf(NearestPrefix + d, NoAppendSuffix) == -1
  {
    var t := NearestPrefix + d;
    forall m | 0 <= m
      ensures !OccursAt(t, NoAppendSuffix, m)
    {
      if m + 10 <= |t| {
        assert t[m..m + 10][0] == t[m] && t[m..m + 10][1] == t[m + 1];
        if m < 12 {
          assert t[m] == NearestPrefix[m] && t[12] == d[0];
        } else {
          assert t[m] == d[m - 12];
        }
      }
    }
    IndexFromMisses(t, NoAppendSuffix, 0);
  }

  /**
   * On a nearest-cue token the code's `lastIndexOf("cue-")` finds the one in the prefix, so
   * the threshold is the value of the digit run, and `-no-append` occurs exactly when present.
   */
  lemma NearestFields(t: string)
    requires IsNearestToken(t)
    ensures var rest := t[12..];
      var noAppend := !IsDigitRun(rest);
      var d := if noAppend then rest[..|rest| - 10] else rest;
      && LastIndexOf(t, "cue-") == 8
      && ParseInt(t[12..]) == Some(DigitsValue(d))
      && (IndexOf(t, NoAppendSuffix) > -1 <==> noAppend)
  {
    NearestShape(t);
    var rest := t[12..];
    var noAppend := !IsDigitRun(rest);
    var d := if noAppend then rest[..|rest| - 10] else rest;
    var suffix := if noAppend then NoAppendSuffix else "";
    NearestCueAt(d, suffix);
    assert rest == d + suffix;
    ParseIntBody(rest, d, suffix);
    if noAppend {
      NoAppendFound(d);
    } else {
      assert t == NearestPrefix + d;
      NoAppendMissing(d);
    }
  }

  /** A move token is `move-`, maybe a minus sign, and a digit run. */
  lemma MoveShape(t: string)
    requires IsMoveToken(t)
    ensures var rest := t[5..];
      var negative := !IsDigitRun(rest);
      var d := if negative then rest[1..] else rest;
      IsDigitRun(d) && t == "move-" + (if negative then "-" else "") + d
  {
    var rest := t[5..];
    assert t == t[..5] + rest;
    if !IsDigitRun(rest) {
      assert rest == [rest[0]] + rest[1..];
    }
  }

  /** On a move token `lastIndexOf("e-")` finds the one in `move-`, so the sign is kept. */
  lemma MoveFields(t: string)
    requires IsMoveToken(t)
    ensures var rest := t[5..];
      var negative := !IsDigitRun(rest);
      var d := if negative then rest[1..] else rest;
      && LastIndexOf(t, "e-") == 3
      && ParseInt(t[5..]) == Some(Signed(negative, DigitsValue(d)))
  {
    MoveShape(t);
    var rest := t[5..];
    var negative := !IsDigitRun(rest);
    var d := if negative then rest[1..] else rest;
    var sign := if negative then "-" else "";
    MoveDashAt(sign, d);
    MoveDigits(rest, negative, d);
  }

  /** The text after `move-` reads as the digit run, negated after a minus sign. */
  lemma MoveDigits(rest: string, negative: bool, d: string)
    requires IsDigitRun(d) && rest == (if negative then "-" else "") + d
    ensures ParseInt(rest) == Some(Signed(negative, DigitsValue(d)))
  {
    if negative {
      ParseIntBody(d, d, "");
      ParseIntSigned(rest, d, DigitsValue(d));
    } else {
      assert rest == d + "";
      ParseIntBody(rest, d, "");
    }
  }

  /** In a move token the last `e-` is the one in `move-`. */
  lemma MoveDashAt(sign: string, d: string)
    requires sign == "" || sign == "-"
    requires IsDigitRun(d)
    ensures LastIndexOf("move-" + sign + d, "e-") == 3
  {
    var t := "move-" + sign + d;
    assert t[3..5] == "e-";
    forall m | 3 < m < |t|
      ensures t[m] != 'e'
    {
      if m == 4 {
        assert t[m] == '-';
      } else if m < 5 + |sign| {
        assert t[m] == '-';
      } else {
        assert t[m] == d[m - 5 - |sign|];
      }
    }
    LastIndexFromSkips(t, "e-", |t| - 2, 3);
  }

  // ----- Printing tokens, and reading them back -----

  /** The token that asks for `a`. */
  function AttrToken(a: Attr): string
    requires a.Nearest? ==> a.threshold >= 0
  {
    match a
    case TopBottom => "top-bottom"
    case Nearest(threshold, noAppend) =>
      NearestPrefix + NatToString(threshold) + (if noAppend then NoAppendSuffix else "")
    case Move(delay) => "move-" + IntToString(delay)
    case NoOp => "simple"
  }

  lemma TrimIdle(s: string)
    requires s != [] && !IsWhitespace(s[0]) && !IsWhitespace(s[|s| - 1])
    ensures Trim(s) == s
  {
  }

  /** Any digit run, with leading zeros or not, gives the threshold it spells. */
  lemma ParseNearestToken(d: string, noAppend: bool)
    requires IsDigitRun(d)
    ensures ParseAttr(NearestPrefix + d + (if noAppend then NoAppendSuffix else ""))
         == Ok(Nearest(DigitsValue(d), noAppend))
  {
    var suffix := if noAppend then NoAppendSuffix else "";
    var t := NearestPrefix + d + suffix;
    assert t[12..] == d + suffix;
    TrimIdle(t);
    if noAppend {
      assert (d + suffix)[..|d + suffix| - 10] == d;
      assert !IsDigit((d + suffix)[|d|]);
    } else {
      assert d + suffix == d;
    }
    assert IsNearestToken(t);
    NearestFields(t);
  }

  /** Digits after `move-` or `move--` give the delay they spell, negative after `move--`. */
  lemma ParseMoveToken(d: string, negative: bool)
    requires IsDigitRun(d)
    ensures ParseAttr("move-" + (if negative then "-" else "") + d)
         == Ok(Move(Signed(negative, DigitsValue(d))))
  {
    var sign := if negative then "-" else "";
    var t := "move-" + sign + d;
    assert t[5..] == sign + d;
    TrimIdle(t);
    if negative {
      assert (sign + d)[1..] == d;
    } else {
      assert sign + d == d;
    }
    assert !StartsWith(t, NearestPrefix) by {
      assert t[0] != NearestPrefix[0];
    }
    assert IsMoveToken(t);
    MoveFields(t);
  }

  /** Reading the token of an operation gives back that operation. */
  lemma ParseAttrToken(a: Attr)
    requires a.Nearest? ==> a.threshold >= 0
    ensures ParseAttr(AttrToken(a)) == Ok(a)
  {
    match a
    case TopBottom =>
      TrimIdle("top-bottom");
    case NoOp =>
      ParseAttrNoOp("simple");
      TrimIdle("simple");
    case Nearest(threshold, noAppend) =>
      NatToStringValue(threshold);
      ParseNearestToken(NatToString(threshold), noAppend);
    case Move(delay) =>
      ParseMoveDelay(delay);
  }

  lemma ParseMoveDelay(delay: int)
    ensures ParseAttr("move-" + IntToString(delay)) == Ok(Move(delay))
  {
    var n: nat := if delay < 0 then -delay else delay;
    var d := NatToString(n);
    NatToStringValue(n);
    ParseMoveToken(d, delay < 0);
    MoveText(delay, n, d);
  }

  lemma MoveText(delay: int, n: nat, d: string)
    requires n == (if delay < 0 then -delay else delay) && d == NatToString(n)
    ensures "move-" + IntToString(delay) == "move-" + (if delay < 0 then "-" else "") + d
  {
    if delay >= 0 {
      assert "move-" + "" + d == "move-" + d;
    }
  }

  /** `simple` and tokens that trim to nothing do nothing, and no other token does. */
  lemma ParseAttrNoOp(token: string)
    ensures ParseAttr(token) == Ok(NoOp) <==> Trim(token) == "simple" || Trim(token) == ""
  {
    var t := Trim(token);
    if t == "simple" {
      assert !StartsWith(t, NearestPrefix) by {
        assert t[0] != NearestPrefix[0];
      }
      assert !StartsWith(t, "move-") by {
        assert t[0] != 'm';
      }
    }
  }

  /**
   * A token is rejected with "Cannot parse attr" exactly when, trimmed, it is none of
   * `top-bottom`, a nearest-cue token, a move token, `simple` or empty.
   */
  lemma ParseAttrRejects(token: string)
    ensures ParseAttr(token).Err? <==>
      var t := Trim(token);
      t != "top-bottom" && !IsNearestToken(t) && !IsMoveToken(t) && t != "simple" && t != ""
  {
  }

  /** Trimming forgets leading whitespace, which still decides the rank. */
  lemma PaddedToken(t: string)
    requires t != [] && !IsWhitespace(t[0]) && !IsWhitespace(t[|t| - 1])
    ensures Rank(" " + t) == -1
    ensures ParseAttr(" " + t) == ParseAttr(t)
  {
    PaddedTrim(t);
    TrimIdle(t);
    SameTrim(" " + t, t);
  }

  lemma PaddedTrim(t: string)
    requires t != [] && !IsWhitespace(t[0]) && !IsWhitespace(t[|t| - 1])
    ensures Trim(" " + t) == t
  {
    var padded := " " + t;
    assert TrimEnd(padded) == padded;
    assert padded[1..] == t;
    assert TrimStart(t) == t;
  }

  /** Tokens that trim alike read alike. */
  lemma SameTrim(a: string, b: string)
    requires a != [] && b != [] && Trim(a) == Trim(b)
    ensures ParseAttr(a) == ParseAttr(b)
  {
  }
}
