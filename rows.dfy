/**
 * `normalize` of the subtitle library: trim, append a line feed, turn CRLF into LF, collapse
 * runs of three or more line feeds to two, drop a leading `WEBVTT` header block and split into rows.
 */
module Rows {
  import opened Strings
  import opened Wrappers

  /** `replace(/\r\n/g, "\n")`: every CRLF pair, scanned from the left, becomes one line feed. */
  function ReplaceCrlf(s: string): (r: string)
    ensures |r| <= |s|
  {
    if |s| >= 2 && s[0] == '\r' && s[1] == '\n' then "\n" + ReplaceCrlf(s[2..])
    else if s == [] then []
    else [s[0]] + ReplaceCrlf(s[1..])
  }

  predicate StartsWithTriple(s: string) {
    |s| >= 3 && s[0] == '\n' && s[1] == '\n' && s[2] == '\n'
  }

  /** No three line feeds in a row. */
  predicate NoTripleNewline(s: string) {
    forall i :: 0 <= i < |s| - 2 ==> !StartsWithTriple(s[i..])
  }

  /**
   * `replace(/\n{3,}/g, "\n\n")`: a run of three or more line feeds loses line feeds from its
   * front until two remain.
   */
  function CollapseNewlines(s: string): (r: string)
    ensures |r| <= |s|
  {
    if StartsWithTriple(s) then CollapseNewlines(s[1..])
    else if s == [] then []
    else [s[0]] + CollapseNewlines(s[1..])
  }

  lemma {:induction false} ReplaceCrlfWithoutCr(s: string)
    requires '\r' !in s
    ensures ReplaceCrlf(s) == s
  {
    if s != [] {
      assert '\r' !in s[1..];
      ReplaceCrlfWithoutCr(s[1..]);
    }
  }

  /** The collapse keeps the first two characters of a leading run of line feeds. */
  lemma {:induction false} CollapseHead(s: string)
    ensures (CollapseNewlines(s) == []) == (s == [])
    ensures s != [] ==> CollapseNewlines(s)[0] == s[0]
    ensures (|CollapseNewlines(s)| >= 2 && CollapseNewlines(s)[0] == '\n' && CollapseNewlines(s)[1] == '\n')
        <==> (|s| >= 2 && s[0] == '\n' && s[1] == '\n')
  {
    if StartsWithTriple(s) {
      CollapseHead(s[1..]);
    } else if s != [] {
      CollapseHead(s[1..]);
    }
  }

  /** One pass leaves no run of three line feeds. */
  lemma {:induction false} CollapseLeavesNoTriple(s: string)
    ensures NoTripleNewline(CollapseNewlines(s))
  {
    if StartsWithTriple(s) {
      CollapseLeavesNoTriple(s[1..]);
    } else if s != [] {
      CollapseLeavesNoTriple(s[1..]);
      CollapseHead(s[1..]);
      var r := CollapseNewlines(s);
      var t := CollapseNewlines(s[1..]);
      assert r == [s[0]] + t;
      forall i | 0 <= i < |r| - 2 ensures !StartsWithTriple(r[i..]) {
        if i > 0 {
          assert r[i..] == t[i - 1..];
        }
      }
    }
  }

  /** Text without three line feeds in a row is left alone. */
  lemma {:induction false} CollapseWithoutTriple(s: string)
    requires NoTripleNewline(s)
    ensures CollapseNewlines(s) == s
  {
    if s != [] {
      if |s| >= 3 {
        assert s[0..] == s;
      }
      assert NoTripleNewline(s[1..]) by {
        forall i | 0 <= i < |s[1..]| - 2 ensures !StartsWithTriple(s[1..][i..]) {
          assert s[1..][i..] == s[i + 1..];
        }
      }
      CollapseWithoutTriple(s[1..]);
    }
  }

  /** `k` line feeds. */
  function LineFeeds(k: nat): (r: string)
    ensures |r| == k && forall i :: 0 <= i < k ==> r[i] == '\n'
  {
    if k == 0 then [] else "\n" + LineFeeds(k - 1)
  }

  /** A leading run of two or more line feeds becomes exactly two. */
  lemma {:induction false} CollapseRun(k: nat, rest: string)
    requires k >= 2 && (rest == [] || rest[0] != '\n')
    ensures CollapseNewlines(LineFeeds(k) + rest) == "\n\n" + CollapseNewlines(rest)
    decreases k
  {
    var s := LineFeeds(k) + rest;
    if k == 2 {
      assert !StartsWithTriple(s);
      assert s[1..] == "\n" + rest;
      assert !StartsWithTriple(s[1..]);
      assert s[1..][1..] == rest;
    } else {
      assert StartsWithTriple(s);
      assert s[1..] == LineFeeds(k - 1) + rest;
      CollapseRun(k - 1, rest);
    }
  }

  /** Text that does not end in a line feed is collapsed on its own. */
  lemma {:induction false} CollapseAppend(p: string, x: string)
    requires p == [] || p[|p| - 1] != '\n'
    ensures CollapseNewlines(p + x) == CollapseNewlines(p) + CollapseNewlines(x)
    decreases |p|
  {
    if p != [] {
      var s, t := p + x, p[1..];
      assert s[1..] == t + x;
      assert t == [] || t[|t| - 1] == p[|p| - 1];
      CollapseAppend(t, x);
      if |p| >= 3 {
        assert s[..3] == p[..3];
        assert StartsWithTriple(s) == StartsWithTriple(p);
      } else {
        assert !StartsWithTriple(s) && !StartsWithTriple(p);
      }
      if !StartsWithTriple(p) {
        assert CollapseNewlines(s) == [p[0]] + (CollapseNewlines(t) + CollapseNewlines(x));
        assert CollapseNewlines(p) == [p[0]] + CollapseNewlines(t);
        SeqAssoc([p[0]], CollapseNewlines(t), CollapseNewlines(x));
      }
    } else {
      assert p + x == x;
    }
  }

  /** Each maximal run of three or more line feeds becomes exactly `"\n\n"`, and the rest is collapsed alike. */
  lemma CollapseRunInside(p: string, k: nat, rest: string)
    requires k >= 3
    requires p == [] || p[|p| - 1] != '\n'
    requires rest == [] || rest[0] != '\n'
    ensures CollapseNewlines(p + LineFeeds(k) + rest)
         == CollapseNewlines(p) + "\n\n" + CollapseNewlines(rest)
  {
    var run := LineFeeds(k) + rest;
    CollapseAppend(p, run);
    CollapseRun(k, rest);
    SeqAssoc(p, LineFeeds(k), rest);
    SeqAssoc(CollapseNewlines(p), "\n\n", CollapseNewlines(rest));
  }

  lemma SeqAssoc(a: string, b: string, c: string)
    ensures a + b + c == a + (b + c)
  {
  }

  /** The second pattern group `(?:.*: .*\n)`: a `key: value` row. */
  predicate IsMetadataRow(row: string) {
    NoLineTerminator(row) && ContainsColonSpace(row)
  }

  /** The row index of the blank row that ends the header, looking from row `i`. */
  function HeaderEnd(rows: seq<string>, i: nat): (k: Option<nat>)
    ensures k.Some? ==> i <= k.value < |rows| - 1 && rows[k.value] == ""
    decreases |rows| - i
  {
    if i + 1 >= |rows| then None
    else if rows[i] == "" then Some(i)
    else if IsMetadataRow(rows[i]) then HeaderEnd(rows, i + 1)
    else None
  }

  /**
   * `replace(/^WEBVTT.*\n(?:.*: .*\n)*\n/, "")` on rows: a first row starting with `WEBVTT`,
   * `key: value` rows and a blank row that is followed by a line feed are dropped.
   */
  function StripHeader(rows: seq<string>): (r: seq<string>)
    ensures |r| <= |rows| && r == rows[|rows| - |r|..]
  {
    if rows != [] && StartsWith(rows[0], "WEBVTT") && NoLineTerminator(rows[0]) then
      match HeaderEnd(rows, 1)
      case Some(k) => rows[k + 1..]
      case None => rows
    else rows
  }

  /** `normalize`. */
  function Normalize(input: string): seq<string> {
    StripHeader(SplitLines(CollapseNewlines(ReplaceCrlf(Trim(input) + "\n"))))
  }

  lemma {:induction false} HeaderEndAcrossMetadata(rows: seq<string>, i: nat, m: nat)
    requires i <= m < |rows| - 1 && rows[m] == ""
    requires forall j :: i <= j < m ==> IsMetadataRow(rows[j])
    ensures HeaderEnd(rows, i) == Some(m)
    decreases m - i
  {
    if i < m {
      assert rows[i] != "";
      HeaderEndAcrossMetadata(rows, i + 1, m);
    }
  }

  /** A header block of `key: value` rows ended by a blank row is removed, and nothing after it. */
  lemma StripHeaderRemovesBlock(first: string, meta: seq<string>, rest: seq<string>)
    requires StartsWith(first, "WEBVTT") && NoLineTerminator(first)
    requires forall j :: 0 <= j < |meta| ==> IsMetadataRow(meta[j])
    requires rest != []
    ensures StripHeader([first] + meta + [""] + rest) == rest
  {
    var rows := [first] + meta + [""] + rest;
    assert forall j :: 1 <= j < 1 + |meta| ==> rows[j] == meta[j - 1];
    HeaderEndAcrossMetadata(rows, 1, 1 + |meta|);
    assert rows[|meta| + 2..] == rest;
  }

  /** The header `stringify` writes, `WEBVTT` and a blank row, is removed. */
  lemma StripBareHeader(rest: seq<string>)
    requires rest != []
    ensures StripHeader(["WEBVTT", ""] + rest) == rest
  {
    assert ["WEBVTT", ""] + rest == ["WEBVTT"] + [] + [""] + rest;
    assert StartsWith("WEBVTT", "WEBVTT") && NoLineTerminator("WEBVTT");
    StripHeaderRemovesBlock("WEBVTT", [], rest);
  }

  /** Rows that do not start with `WEBVTT` keep their header. */
  lemma StripHeaderWithoutMagic(rows: seq<string>)
    requires rows != [] && !StartsWith(rows[0], "WEBVTT")
    ensures StripHeader(rows) == rows
  {
  }

  /** Row `i` or the row after it is not blank. */
  predicate NotBothBlank(rows: seq<string>, i: int)
    requires 0 <= i < |rows| - 1
  {
    rows[i] != "" || rows[i + 1] != ""
  }

  /** No two neighbouring rows are both blank, and the first row is not blank. */
  predicate Spaced(rows: seq<string>) {
    && rows != [] && rows[0] != ""
    && forall i :: 0 <= i < |rows| - 1 ==> NotBothBlank(rows, i)
  }

  /** The rows from a row that is not blank on are spaced too. */
  lemma SpacedFrom(rows: seq<string>, k: nat)
    requires Spaced(rows) && k < |rows| && rows[k] != ""
    ensures Spaced(rows[k..])
  {
    var rest := rows[k..];
    forall i | 0 <= i < |rest| - 1
      ensures NotBothBlank(rest, i)
    {
      assert NotBothBlank(rows, i + k);
      assert rest[i] == rows[i + k] && rest[i + 1] == rows[i + k + 1];
    }
  }

  lemma {:induction false} CollapsePrefixRow(r: string, t: string)
    requires '\n' !in r
    ensures CollapseNewlines(r + t) == r + CollapseNewlines(t)
  {
    if r != [] {
      assert (r + t)[1..] == r[1..] + t;
      CollapsePrefixRow(r[1..], t);
      assert [r[0]] + (r[1..] + CollapseNewlines(t)) == r + CollapseNewlines(t);
    } else {
      assert r + t == t;
    }
  }

  /** Joining rows of which no two neighbours are blank gives no run of three line feeds to collapse. */
  lemma {:induction false} CollapseSpacedRows(rows: seq<string>)
    requires Spaced(rows)
    requires forall i :: 0 <= i < |rows| ==> '\n' !in rows[i]
    ensures CollapseNewlines(Join(rows, "\n")) == Join(rows, "\n")
  {
    var r := rows[0];
    if |rows| == 1 {
      CollapsePrefixRow(r, "");
      assert r + "" == r;
    } else {
      var rest := rows[1..];
      var j := Join(rest, "\n");
      assert Join(rows, "\n") == r + ("\n" + j);
      CollapsePrefixRow(r, "\n" + j);
      if rest[0] != "" {
        SpacedFrom(rows, 1);
        assert rows[1..] == rest;
        CollapseSpacedRows(rest);
        JoinHead(rest);
        CollapseSingleBreak(j);
      } else if |rest| == 1 {
        assert j == "";
        assert CollapseNewlines("\n") == "\n" by {
          assert "\n"[1..] == [];
        }
      } else {
        var rest2 := rest[1..];
        var j2 := Join(rest2, "\n");
        assert NotBothBlank(rows, 1);
        assert rest2[0] != "";
        SpacedFrom(rows, 2);
        assert rows[2..] == rest2;
        assert j == "" + "\n" + j2;
        CollapseSpacedRows(rest2);
        JoinHead(rest2);
        assert "\n" + j == LineFeeds(2) + j2;
        CollapseRun(2, j2);
      }
    }
  }

  lemma CollapseSingleBreak(j: string)
    requires j != [] && j[0] != '\n'
    ensures CollapseNewlines("\n" + j) == "\n" + CollapseNewlines(j)
  {
    assert ("\n" + j)[1..] == j;
  }

  lemma JoinHead(rows: seq<string>)
    requires rows != [] && rows[0] != ""
    ensures Join(rows, "\n") != [] && Join(rows, "\n")[0] == rows[0][0]
  {
  }

  lemma {:induction false} JoinLast(rows: seq<string>)
    requires rows != [] && Last(rows) != ""
    ensures Join(rows, "\n") != [] && Last(Join(rows, "\n")) == Last(Last(rows))
  {
    if |rows| > 1 {
      JoinLast(rows[1..]);
    }
  }

  lemma {:induction false} JoinWithout(rows: seq<string>, c: char)
    requires c != '\n'
    requires forall i :: 0 <= i < |rows| ==> c !in rows[i]
    ensures c !in Join(rows, "\n")
  {
    if |rows| > 1 {
      JoinWithout(rows[1..], c);
    }
  }

  lemma TrimUntouched(s: string)
    requires s != [] && !IsWhitespace(s[0]) && !IsWhitespace(Last(s))
    ensures Trim(s + "\n") == s
  {
    var t := s + "\n";
    assert t[..|t| - 1] == s;
    assert TrimEnd(t) == TrimEnd(s);
  }

  /**
   * Rows that end in a blank row and whose text neither starts nor ends with whitespace, holds
   * no carriage return and no two neighbouring blank rows come back unchanged from `normalize`
   * (before the header is stripped).
   */
  lemma NormalizeJoinedRows(rows: seq<string>)
    requires |rows| >= 2 && Last(rows) == "" && Spaced(rows)
    requires forall i :: 0 <= i < |rows| ==> '\n' !in rows[i] && '\r' !in rows[i]
    requires !IsWhitespace(rows[0][0])
    requires BeforeLast(rows) != "" && !IsWhitespace(Last(BeforeLast(rows)))
    ensures SplitLines(CollapseNewlines(ReplaceCrlf(Trim(Join(rows, "\n")) + "\n"))) == rows
  {
    var n := |rows|;
    var front := rows[..n - 1];
    DropLast(rows);
    JoinAppend(front, [""], "\n");
    var s := Join(front, "\n");
    assert Join(rows, "\n") == s + "\n";
    JoinHead(front);
    JoinLast(front);
    TrimUntouched(s);
    JoinWithout(rows, '\r');
    ReplaceCrlfWithoutCr(s + "\n");
    CollapseSpacedRows(rows);
    SplitJoin(rows);
  }
}
