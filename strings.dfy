/**
 * Character classes and string helpers used by the subtitle codec: decimal digits, the
 * whitespace that `trim` removes, the line terminators that a regular-expression `.` refuses,
 * decimal printing and parsing, and splitting and joining on a separator.
 */
module Strings {

  predicate IsDigit(c: char) {
    '0' <= c <= '9'
  }

  predicate AllDigits(s: string) {
    forall i :: 0 <= i < |s| ==> IsDigit(s[i])
  }

  /** The ASCII part of the whitespace set of `String.prototype.trim`. */
  predicate IsWhitespace(c: char) {
    c == ' ' || c == '\t' || c == '\n' || c == '\r' || c == '\U{B}' || c == '\U{C}'
  }

  /** The characters that `.` in a JavaScript regular expression does not match. */
  predicate IsLineTerminator(c: char) {
    c == '\n' || c == '\r' || c == '\U{2028}' || c == '\U{2029}'
  }

  predicate NoLineTerminator(s: string) {
    forall i :: 0 <= i < |s| ==> !IsLineTerminator(s[i])
  }

  predicate StartsWith(s: string, prefix: string) {
    |prefix| <= |s| && s[..|prefix|] == prefix
  }

  /** Whether `s` contains the two characters `: ` next to each other. */
  predicate ContainsColonSpace(s: string) {
    exists i :: 0 <= i < |s| - 1 && s[i] == ':' && s[i + 1] == ' '
  }

  function DigitValue(c: char): (d: nat)
    requires IsDigit(c)
    ensures d < 10
  {
    (c - '0') as nat
  }

  function DigitChar(d: nat): (c: char)
    requires d < 10
    ensures IsDigit(c) && DigitValue(c) == d
  {
    ('0' as int + d) as char
  }

  /** `parseInt(s, 10)` on a string of decimal digits. */
  function DigitsValue(s: string): nat
    requires AllDigits(s)
  {
    if s == [] then 0 else DigitsValue(s[..|s| - 1]) * 10 + DigitValue(s[|s| - 1])
  }

  /** The longest prefix of `s` made of decimal digits. */
  function DigitPrefix(s: string): (r: string)
    ensures |r| <= |s| && r == s[..|r|] && AllDigits(r)
    ensures |r| == |s| || !IsDigit(s[|r|])
  {
    if s != [] && IsDigit(s[0]) then [s[0]] + DigitPrefix(s[1..]) else []
  }

  lemma {:induction false} DigitPrefixOf(d: string, tail: string)
    requires AllDigits(d) && (tail == [] || !IsDigit(tail[0]))
    ensures DigitPrefix(d + tail) == d
    decreases |d|
  {
    if d == [] {
      assert d + tail == tail;
    } else {
      assert (d + tail)[1..] == d[1..] + tail;
      DigitPrefixOf(d[1..], tail);
    }
  }

  /** `n.toString()`: decimal digits without leading zeros. */
  function NatToString(n: nat): (s: string)
    ensures |s| > 0 && AllDigits(s)
    ensures n < 10 ==> |s| == 1
    ensures n < 100 ==> |s| <= 2
    ensures n < 1000 ==> |s| <= 3
  {
    if n < 10 then [DigitChar(n)] else NatToString(n / 10) + [DigitChar(n % 10)]
  }

  lemma {:induction false} NatToStringValue(n: nat)
    ensures DigitsValue(NatToString(n)) == n
  {
    if n >= 10 {
      var s := NatToString(n);
      assert s[..|s| - 1] == NatToString(n / 10);
      NatToStringValue(n / 10);
    }
  }

  function Zeros(k: nat): (s: string)
    ensures |s| == k && AllDigits(s)
    ensures forall i :: 0 <= i < k ==> s[i] == '0'
  {
    if k == 0 then [] else Zeros(k - 1) + ['0']
  }

  /** `value.toString()` of an integer: a minus sign before the digits of a negative one. */
  function IntToString(i: int): (s: string)
    ensures i >= 0 ==> s == NatToString(i)
    ensures i < 0 ==> s == "-" + NatToString(-i)
  {
    if i < 0 then "-" + NatToString(-i) else NatToString(i)
  }

  /** `padLeft(value, width)`: `value.toString().padStart(width, "0")`. */
  function PadLeft(value: int, width: nat): (s: string)
    ensures |s| >= width
    ensures value >= 0 ==> AllDigits(s)
  {
    var digits := IntToString(value);
    if |digits| < width then Zeros(width - |digits|) + digits else digits
  }

  lemma {:induction false} LeadingZerosValue(k: nat, s: string)
    requires AllDigits(s)
    ensures AllDigits(Zeros(k) + s) && DigitsValue(Zeros(k) + s) == DigitsValue(s)
  {
    if s == [] {
      ZerosValue(k);
      assert Zeros(k) + s == Zeros(k);
    } else {
      var t := Zeros(k) + s;
      assert t[..|t| - 1] == Zeros(k) + s[..|s| - 1];
      LeadingZerosValue(k, s[..|s| - 1]);
    }
  }

  lemma {:induction false} ZerosValue(k: nat)
    ensures DigitsValue(Zeros(k)) == 0
  {
    if k > 0 {
      assert Zeros(k)[..k - 1] == Zeros(k - 1);
      ZerosValue(k - 1);
    }
  }

  /** A number below `10^width` pads to exactly `width` digits that read back as the number. */
  lemma PadLeftValue(n: int, width: nat)
    requires 0 <= n && (width == 2 || width == 3)
    requires width == 2 ==> n < 100
    requires width == 3 ==> n < 1000
    ensures |PadLeft(n, width)| == width
    ensures DigitsValue(PadLeft(n, width)) == n
  {
    NatToStringValue(n);
    var digits := NatToString(n);
    assert IntToString(n) == digits;
    assert |digits| <= width;
    if |digits| < width {
      LeadingZerosValue(width - |digits|, digits);
      assert PadLeft(n, width) == Zeros(width - |digits|) + digits;
    } else {
      assert PadLeft(n, width) == digits;
    }
  }

  function TrimStart(s: string): string {
    if s != [] && IsWhitespace(s[0]) then TrimStart(s[1..]) else s
  }

  function TrimEnd(s: string): string {
    if s != [] && IsWhitespace(s[|s| - 1]) then TrimEnd(s[..|s| - 1]) else s
  }

  /** Trimming the start leaves a suffix that does not start with whitespace. */
  lemma {:induction false} TrimStartSuffix(s: string)
    ensures var r := TrimStart(s); |r| <= |s| && r == s[|s| - |r|..] && (r == [] || !IsWhitespace(r[0]))
  {
    if s != [] && IsWhitespace(s[0]) {
      TrimStartSuffix(s[1..]);
      var r := TrimStart(s[1..]);
      assert s[1..][|s| - 1 - |r|..] == s[|s| - |r|..];
    }
  }

  /** Trimming the end leaves a prefix that does not end with whitespace. */
  lemma {:induction false} TrimEndPrefix(s: string)
    ensures var r := TrimEnd(s); |r| <= |s| && r == s[..|r|] && (r == [] || !IsWhitespace(r[|r| - 1]))
  {
    if s != [] && IsWhitespace(s[|s| - 1]) {
      TrimEndPrefix(s[..|s| - 1]);
      var r := TrimEnd(s[..|s| - 1]);
      assert s[..|s| - 1][..|r|] == s[..|r|];
    }
  }

  /** Trimming the end keeps every character up to the last one that is not whitespace. */
  lemma {:induction false} TrimEndKeeps(s: string, i: nat)
    requires i < |s| && !IsWhitespace(s[i])
    ensures |TrimEnd(s)| > i
  {
    if i < |s| - 1 {
      TrimEndKeeps(s[..|s| - 1], i);
    }
  }

  /** The end of `s[..j]` once trailing whitespace is dropped. */
  function TrimEndAt(s: string, j: nat): (e: nat)
    requires j <= |s|
    ensures e <= j
  {
    if j > 0 && IsWhitespace(s[j - 1]) then TrimEndAt(s, j - 1) else j
  }

  /** The start of `s[i..e]` once leading whitespace is dropped. */
  function TrimStartAt(s: string, i: nat, e: nat): (b: nat)
    requires i <= e <= |s|
    ensures i <= b <= e
    decreases e - i
  {
    if i < e && IsWhitespace(s[i]) then TrimStartAt(s, i + 1, e) else i
  }

  lemma {:induction false} TrimEndAtPrefix(s: string, j: nat)
    requires j <= |s|
    ensures TrimEnd(s[..j]) == s[..TrimEndAt(s, j)]
  {
    if j > 0 && IsWhitespace(s[j - 1]) {
      assert s[..j][..j - 1] == s[..j - 1];
      TrimEndAtPrefix(s, j - 1);
    }
  }

  lemma {:induction false} TrimStartAtSuffix(s: string, i: nat, e: nat)
    requires i <= e <= |s|
    ensures TrimStart(s[i..e]) == s[TrimStartAt(s, i, e)..e]
    decreases e - i
  {
    if i < e && IsWhitespace(s[i]) {
      assert s[i..e][1..] == s[i + 1..e];
      TrimStartAtSuffix(s, i + 1, e);
    }
  }

  /** `trim` keeps the characters of `s` between the two positions above. */
  lemma TrimBetween(s: string)
    ensures var e := TrimEndAt(s, |s|); Trim(s) == s[TrimStartAt(s, 0, e)..e]
  {
    var e := TrimEndAt(s, |s|);
    TrimEndAtPrefix(s, |s|);
    assert s[..|s|] == s;
    TrimStartAtSuffix(s, 0, e);
    assert s[..e] == s[0..e];
  }

  /** `String.prototype.trim` over the ASCII whitespace set. */
  function Trim(s: string): string {
    TrimStart(TrimEnd(s))
  }

  /** The last element of a sequence. */
  function Last<T>(xs: seq<T>): T
    requires xs != []
  {
    xs[|xs| - 1]
  }

  /** The element before the last one. */
  function BeforeLast<T>(xs: seq<T>): T
    requires |xs| >= 2
  {
    xs[|xs| - 2]
  }

  /** Dropping the last element leaves the one before it last. */
  lemma DropLast<T>(xs: seq<T>)
    requires |xs| >= 2
    ensures xs == xs[..|xs| - 1] + [Last(xs)] && Last(xs[..|xs| - 1]) == BeforeLast(xs)
  {
  }

  /** Dropping the first element keeps the last one. */
  lemma LastOfTail<T>(xs: seq<T>)
    requires |xs| >= 2
    ensures Last(xs[1..]) == Last(xs)
  {
  }

  /** The last two elements of a concatenation are those of its second part. */
  lemma EndsOfConcat<T>(xs: seq<T>, ys: seq<T>)
    requires |ys| >= 2
    ensures Last(xs + ys) == Last(ys) && BeforeLast(xs + ys) == BeforeLast(ys)
  {
  }

  /** `xs.join(sep)`. */
  function Join(xs: seq<string>, sep: string): string {
    if xs == [] then "" else if |xs| == 1 then xs[0] else xs[0] + sep + Join(xs[1..], sep)
  }

  /** `s.split("\n")`: the pieces between line feeds. */
  function SplitLines(s: string): (r: seq<string>)
    ensures |r| > 0
    ensures forall i :: 0 <= i < |r| ==> '\n' !in r[i]
  {
    if s == [] then [""]
    else
      var rest := SplitLines(s[1..]);
      if s[0] == '\n' then [""] + rest else [[s[0]] + rest[0]] + rest[1..]
  }

  lemma {:induction false} JoinAppend(xs: seq<string>, ys: seq<string>, sep: string)
    requires xs != [] && ys != []
    ensures Join(xs + ys, sep) == Join(xs, sep) + sep + Join(ys, sep)
  {
    if |xs| == 1 {
      assert xs + ys == [xs[0]] + ys;
    } else {
      assert (xs + ys)[1..] == xs[1..] + ys;
      JoinAppend(xs[1..], ys, sep);
    }
  }

  lemma {:induction false} SplitPrefix(r: string, t: string)
    requires '\n' !in r
    ensures SplitLines(r + t) == [r + SplitLines(t)[0]] + SplitLines(t)[1..]
  {
    if r != [] {
      var l := SplitLines(t);
      assert (r + t)[1..] == r[1..] + t;
      SplitPrefix(r[1..], t);
      var rest := SplitLines(r[1..] + t);
      assert rest[0] == r[1..] + l[0];
      assert [r[0]] + rest[0] == r + l[0];
      assert rest[1..] == l[1..];
    } else {
      var l := SplitLines(t);
      assert r + t == t;
      assert r + l[0] == l[0];
      assert [l[0]] + l[1..] == l;
    }
  }

  /** Splitting undoes joining with a line feed, for pieces without line feeds. */
  lemma {:induction false} SplitJoin(xs: seq<string>)
    requires xs != []
    requires forall i :: 0 <= i < |xs| ==> '\n' !in xs[i]
    ensures SplitLines(Join(xs, "\n")) == xs
  {
    if |xs| == 1 {
      SplitPrefix(xs[0], "");
      assert xs[0] + "" == xs[0];
      assert xs == [xs[0]];
    } else {
      SplitJoin(xs[1..]);
      var t := "\n" + Join(xs[1..], "\n");
      assert xs[0] + "\n" + Join(xs[1..], "\n") == xs[0] + t;
      SplitPrefix(xs[0], t);
      assert t[1..] == Join(xs[1..], "\n");
      assert SplitLines(t) == [""] + xs[1..];
      assert xs[0] + "" == xs[0];
      assert [xs[0]] + xs[1..] == xs;
    }
  }

  /** Joining undoes splitting. */
  lemma {:induction false} JoinSplit(s: string)
    ensures Join(SplitLines(s), "\n") == s
  {
    if s != [] {
      JoinSplit(s[1..]);
      var rest := SplitLines(s[1..]);
      if s[0] == '\n' {
        assert ([""] + rest)[1..] == rest;
      } else {
        var r := [[s[0]] + rest[0]] + rest[1..];
        if |rest| > 1 {
          assert r[1..] == rest[1..];
          assert Join(rest, "\n") == rest[0] + "\n" + Join(rest[1..], "\n");
        }
      }
    }
  }
}
