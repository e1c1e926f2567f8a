/**
 * `clearPosition` and the rest of the `top-bottom` attribute: a cue text loses its alignment
 * tags `{\aN}` / `{\anN}` and then its position tags `{\pos(x,y)}`, each removed by a global
 * `replace`, which scans the text once from left to right and never rescans what it removed.
 */
module Positions {
  import opened Strings
  import opened Wrappers
  import opened Cues

  /** The two tag patterns, `/{\\a[n]?[0-9]}/g` and `/{\\pos\([0-9]+,[0-9]+\)}/g`. */
  datatype Tag = Align | Pos

  /** The length of the `{\a[n]?[0-9]}` match at the start of `s`, or 0 when there is none. */
  function AlignAt(s: string): nat {
    if |s| >= 5 && s[0] == '{' && s[1] == '\\' && s[2] == 'a' && IsDigit(s[3]) && s[4] == '}' then 5
    else if |s| >= 6 && s[0] == '{' && s[1] == '\\' && s[2] == 'a' && s[3] == 'n' && IsDigit(s[4]) && s[5] == '}' then 6
    else 0
  }

  const PosOpen: string := "{\\pos("

  /** The length of the `{\pos(x,y)}` match at the start of `s`, or 0 when there is none. */
  function PosAt(s: string): (n: nat)
    ensures n <= |s|
  {
    if !StartsWith(s, PosOpen) then 0
    else
      var x := DigitPrefix(s[6..]);
      var comma := 6 + |x|;
      if x == [] || comma >= |s| || s[comma] != ',' then 0
      else
        var y := DigitPrefix(s[comma + 1..]);
        var close := comma + 1 + |y|;
        if y == [] || close + 2 > |s| || s[close] != ')' || s[close + 1] != '}' then 0
        else close + 2
  }

  function TagAt(tag: Tag, s: string): (n: nat)
    ensures n <= |s|
    ensures n > 0 ==> s[0] == '{'
  {
    match tag
    case Align => AlignAt(s)
    case Pos => PosAt(s)
  }

  /** `s.replace(pattern, "")`: every match found scanning left to right is dropped. */
  function Strip(tag: Tag, s: string): (r: string)
    ensures |r| <= |s|
    decreases |s|
  {
    if s == [] then []
    else
      var n := TagAt(tag, s);
      if n > 0 then Strip(tag, s[n..]) else [s[0]] + Strip(tag, s[1..])
  }

  /** The text of a cue after `clearPosition`. */
  function ClearText(text: string): (r: string)
    ensures |r| <= |text|
  {
    Strip(Pos, Strip(Align, text))
  }

  /** `clearPosition(srt)`: copies of the cues with their tags removed from the text. */
  function ClearPosition(cs: seq<Cue>): (r: seq<Cue>)
    ensures |r| == |cs|
    ensures forall i :: 0 <= i < |cs| ==> r[i].start == cs[i].start && r[i].end == cs[i].end
    ensures forall i :: 0 <= i < |cs| ==> r[i].settings == cs[i].settings
    ensures forall i :: 0 <= i < |cs| ==> r[i].text == ClearText(cs[i].text)
  {
    seq(|cs|, i requires 0 <= i < |cs| => cs[i].(text := ClearText(cs[i].text)))
  }

  const TopAlign: string := "{\\an8}"

  /** `caption.text = "{\\an8}" + caption.text` for every cue. */
  function AlignTop(cs: seq<Cue>): (r: seq<Cue>)
    ensures |r| == |cs|
    ensures forall i :: 0 <= i < |cs| ==> r[i].start == cs[i].start && r[i].end == cs[i].end
    ensures forall i :: 0 <= i < |cs| ==> r[i].settings == cs[i].settings
    ensures forall i :: 0 <= i < |cs| ==> r[i].text == TopAlign + cs[i].text
  {
    seq(|cs|, i requires 0 <= i < |cs| => cs[i].(text := TopAlign + cs[i].text))
  }

  /** The `forEach` that puts the alignment tag in front of every text of the array. */
  method AlignTopInPlace(a: array<Cue>)
    modifies a
    ensures a[..] == AlignTop(old(a[..]))
  {
    for k := 0 to a.Length
      invariant forall i :: 0 <= i < k ==> a[i] == old(a[i]).(text := TopAlign + old(a[i]).text)
      invariant forall i :: k <= i < a.Length ==> a[i] == old(a[i])
    {
      a[k] := a[k].(text := TopAlign + a[k].text);
    }
  }

  /** Text with no opening brace has nothing to remove. */
  lemma {:induction false} StripWithoutBrace(tag: Tag, s: string)
    requires forall i :: 0 <= i < |s| ==> s[i] != '{'
    ensures Strip(tag, s) == s
    decreases |s|
  {
    if s != [] {
      StripWithoutBrace(tag, s[1..]);
    }
  }

  /** A text that does not start with an opening brace keeps its first character. */
  lemma StripPlainHead(tag: Tag, s: string)
    requires s != [] && s[0] != '{'
    ensures Strip(tag, s) == [s[0]] + Strip(tag, s[1..])
  {
  }

  /** Text with no opening brace in front of the rest is kept and the rest is scanned. */
  lemma {:induction false} StripKeepsPlain(tag: Tag, a: string, b: string)
    requires forall i :: 0 <= i < |a| ==> a[i] != '{'
    ensures Strip(tag, a + b) == a + Strip(tag, b)
    decreases |a|
  {
    if a != [] {
      var t := a[1..];
      assert forall i :: 0 <= i < |t| ==> t[i] == a[i + 1];
      StripKeepsPlain(tag, t, b);
      StripKeepsFirst(tag, a[0], t, b);
      assert a == [a[0]] + t;
      ConsAssoc(a[0], t, b);
      ConsAssoc(a[0], t, Strip(tag, b));
    } else {
      assert a + b == b;
    }
  }

  /** One plain character in front: kept, and the scan goes on as it would without it. */
  lemma StripKeepsFirst(tag: Tag, c: char, t: string, b: string)
    requires c != '{' && Strip(tag, t + b) == t + Strip(tag, b)
    ensures Strip(tag, [c] + (t + b)) == [c] + (t + Strip(tag, b))
  {
    var s := [c] + (t + b);
    assert s[0] == c && s[1..] == t + b;
    StripPlainHead(tag, s);
  }

  lemma ConsAssoc(c: char, t: string, x: string)
    ensures [c] + (t + x) == ([c] + t) + x
  {
  }

  /** Text with no opening brace is left as it is by `clearPosition`. */
  lemma ClearPlainText(text: string)
    requires forall i :: 0 <= i < |text| ==> text[i] != '{'
    ensures ClearText(text) == text
  {
    StripWithoutBrace(Align, text);
    StripWithoutBrace(Pos, text);
  }

  /** An alignment tag in front of the rest is dropped, with or without the `n`. */
  lemma StripAlignTag(c: char, withN: bool, rest: string)
    requires IsDigit(c)
    ensures var tag := if withN then "{\\an" + [c] + "}" else "{\\a" + [c] + "}";
      Strip(Align, tag + rest) == Strip(Align, rest)
  {
    var tag := if withN then "{\\an" + [c] + "}" else "{\\a" + [c] + "}";
    var s := tag + rest;
    assert s[..|tag|] == tag;
    assert AlignAt(s) == |tag|;
    assert s[|tag|..] == rest;
  }

  /** A position tag in front of the rest is dropped. */
  lemma StripPosTag(x: string, y: string, rest: string)
    requires x != [] && AllDigits(x) && y != [] && AllDigits(y)
    ensures Strip(Pos, PosOpen + x + "," + y + ")}" + rest) == Strip(Pos, rest)
  {
    var tag := PosOpen + x + "," + y + ")}";
    var s := tag + rest;
    PosTagLength(x, y, rest, s, |tag|);
    StripTagHead(Pos, s, |tag|);
    assert s[|tag|..] == rest;
  }

  /** The position pattern matches exactly the tag in front of the rest. */
  lemma PosTagLength(x: string, y: string, rest: string, s: string, n: nat)
    requires x != [] && AllDigits(x) && y != [] && AllDigits(y)
    requires s == PosOpen + x + "," + y + ")}" + rest && n == 6 + |x| + 1 + |y| + 2
    ensures PosAt(s) == n
  {
    assert s[..6] == PosOpen;
    assert s[6..] == x + ("," + y + ")}" + rest);
    DigitPrefixOf(x, "," + y + ")}" + rest);
    var comma := 6 + |x|;
    assert s[comma] == ',';
    assert s[comma + 1..] == y + (")}" + rest);
    DigitPrefixOf(y, ")}" + rest);
    var close := comma + 1 + |y|;
    assert s[close] == ')' && s[close + 1] == '}';
  }

  /** A match of `n` characters in front is dropped and the scan goes on after it. */
  lemma StripTagHead(tag: Tag, s: string, n: nat)
    requires s != [] && TagAt(tag, s) == n && n > 0
    ensures Strip(tag, s) == Strip(tag, s[n..])
  {
  }

  /**
   * The pass does not rescan: a tag split by another tag survives once the inner one is
   * removed, so clearing twice can remove more than clearing once.
   */
  lemma NoRescan(c: char)
    requires IsDigit(c)
    ensures var tag := "{\\a" + [c] + "}";
      Strip(Align, "{\\a" + tag + [c] + "}") == tag
  {
    var tag, tail := "{\\a" + [c] + "}", [c] + "}";
    var inner := tag + tail;
    assert "{\\a" + tag + [c] + "}" == "{\\a" + inner;
    BrokenOpenerKept(inner);
    StripAlignTag(c, false, tail);
    StripWithoutBrace(Align, tail);
    assert "{\\a" + tail == tag;
  }

  /** An unfinished `{\a` in front of a brace is kept, and the scan goes on at the brace. */
  lemma BrokenOpenerKept(inner: string)
    requires inner != [] && inner[0] == '{'
    ensures Strip(Align, "{\\a" + inner) == "{\\a" + Strip(Align, inner)
  {
    var s := "{\\a" + inner;
    assert s[3] == '{';
    StripNoTagHead(Align, s);
    assert s[1..] == "\\a" + inner;
    StripKeepsPlain(Align, "\\a", inner);
    var cleared := Strip(Align, inner);
    assert Strip(Align, s) == ['{'] + ("\\a" + cleared);
    ConsAssoc('{', "\\a", cleared);
    assert ['{'] + "\\a" == "{\\a";
  }

  /** Where no tag starts, the first character is kept and the scan goes on after it. */
  lemma StripNoTagHead(tag: Tag, s: string)
    requires s != [] && TagAt(tag, s) == 0
    ensures Strip(tag, s) == [s[0]] + Strip(tag, s[1..])
  {
  }
}
