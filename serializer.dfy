/**
 * `stringify` of the subtitle library: each cue as its number, its timing line and its text,
 * the cues separated by blank lines, with a `WEBVTT` header for the WebVTT format.
 */
module Serializer {
  import opened Strings
  import opened Wrappers
  import opened Timestamp
  import opened Cues

  /** The settings `stringify` writes after the times: only for WebVTT, and only when non-empty. */
  function SettingsSuffix(c: Cue, f: Format): (r: string)
    ensures r != "" <==> f == Vtt && c.settings.Some? && c.settings.value != ""
    ensures r != "" ==> r == " " + c.settings.value
  {
    if f == Vtt && c.settings.Some? && c.settings.value != "" then " " + c.settings.value else ""
  }

  /** The timing line of a cue: `start --> end`, followed by the settings. */
  function TimingLine(c: Cue, f: Format): string {
    FormatTimestamp(c.start, f) + " --> " + FormatTimestamp(c.end, f) + SettingsSuffix(c, f)
  }

  /** The text of the cue at position `i` (from 0): a leading line feed after the first cue. */
  function Block(i: nat, c: Cue, f: Format): string {
    (if i > 0 then "\n" else "") + Join([NatToString(i + 1), TimingLine(c, f), c.text], "\n")
  }

  /** `captions.map(...)`: the texts of the cues `cs`, the first of them at position `i`. */
  function Blocks(cs: seq<Cue>, i: nat, f: Format): (r: seq<string>)
    ensures |r| == |cs|
    decreases |cs|
  {
    if cs == [] then [] else [Block(i, cs[0], f)] + Blocks(cs[1..], i + 1, f)
  }

  function Header(f: Format): string {
    if f == Vtt then "WEBVTT\n\n" else ""
  }

  /** `stringify(captions, { format })`. */
  function Stringify(cs: seq<Cue>, f: Format): string {
    Header(f) + Join(Blocks(cs, 0, f), "\n") + "\n"
  }

  /** The rows a cue numbered `n` is written as: number, timing line, text lines and a blank row. */
  function BlockRows(n: nat, c: Cue, f: Format): seq<string> {
    [NatToString(n), TimingLine(c, f)] + SplitLines(c.text) + [""]
  }

  /** The rows of the cues `cs`, the first of them numbered `n`. */
  function CueRows(cs: seq<Cue>, n: nat, f: Format): seq<string>
    decreases |cs|
  {
    if cs == [] then [] else BlockRows(n, cs[0], f) + CueRows(cs[1..], n + 1, f)
  }

  function HeaderRows(f: Format): seq<string> {
    if f == Vtt then ["WEBVTT", ""] else []
  }

  /** The three lines of a cue and the line feed after it, as rows joined by line feeds. */
  lemma ThreeLines(a: string, b: string, text: string)
    ensures Join([a, b, text], "\n") + "\n" == Join([a, b] + SplitLines(text) + [""], "\n")
  {
    var lines := SplitLines(text);
    JoinSplit(text);
    assert Join([b, text], "\n") == b + "\n" + text by {
      assert [b, text][1..] == [text];
    }
    assert Join([a, b, text], "\n") == a + "\n" + (b + "\n" + text) by {
      assert [a, b, text][1..] == [b, text];
    }
    assert Join([a, b], "\n") == a + "\n" + b by {
      assert [a, b][1..] == [b];
    }
    JoinAppend([a, b], lines, "\n");
    JoinAppend([a, b] + lines, [""], "\n");
  }

  /** The texts of the cues from position `i` on, and the final line feed, are their rows. */
  lemma {:induction false} BlocksText(cs: seq<Cue>, i: nat, f: Format)
    requires cs != []
    ensures Join(Blocks(cs, i, f), "\n") + "\n" == (if i > 0 then "\n" else "") + Join(CueRows(cs, i + 1, f), "\n")
    decreases |cs|
  {
    var pre := if i > 0 then "\n" else "";
    var body := Join([NatToString(i + 1), TimingLine(cs[0], f), cs[0].text], "\n");
    var rows := BlockRows(i + 1, cs[0], f);
    var rest := cs[1..];
    ThreeLines(NatToString(i + 1), TimingLine(cs[0], f), cs[0].text);
    assert Blocks(cs, i, f) == [Block(i, cs[0], f)] + Blocks(rest, i + 1, f);
    assert CueRows(cs, i + 1, f) == rows + CueRows(rest, i + 2, f);
    if rest == [] {
      assert CueRows(cs, i + 1, f) == rows;
      JoinBlocksLast(Block(i, cs[0], f), pre, body, rows);
    } else {
      BlocksText(rest, i + 1, f);
      var restRows := CueRows(rest, i + 2, f);
      assert restRows == BlockRows(i + 2, rest[0], f) + CueRows(rest[1..], i + 3, f);
      JoinBlocksStep(Block(i, cs[0], f), Blocks(rest, i + 1, f), pre, body, rows, restRows);
    }
  }

  /** The last cue's text and the final line feed are its rows. */
  lemma JoinBlocksLast(block: string, pre: string, body: string, rows: seq<string>)
    requires block == pre + body && body + "\n" == Join(rows, "\n")
    ensures Join([block] + [], "\n") + "\n" == pre + Join(rows + [], "\n")
  {
    assert [block] + [] == [block];
    assert rows + [] == rows;
  }

  /** One more cue's text in front of the rest: its rows in front of the rest's rows. */
  lemma JoinBlocksStep(block: string, blocks: seq<string>, pre: string, body: string,
                       rows: seq<string>, restRows: seq<string>)
    requires blocks != [] && rows != [] && restRows != []
    requires block == pre + body && body + "\n" == Join(rows, "\n")
    requires Join(blocks, "\n") + "\n" == "\n" + Join(restRows, "\n")
    ensures Join([block] + blocks, "\n") + "\n" == pre + Join(rows + restRows, "\n")
  {
    assert ([block] + blocks)[1..] == blocks;
    JoinAppend(rows, restRows, "\n");
    Regroup(pre, body, block, Join(blocks, "\n"), Join(restRows, "\n"), Join(rows, "\n"), Join(rows + restRows, "\n"));
  }

  lemma Regroup(pre: string, body: string, block: string, tail: string, rest: string, rows: string, all: string)
    requires block == pre + body && tail + "\n" == "\n" + rest
    requires rows == body + "\n" && all == rows + "\n" + rest
    ensures block + "\n" + tail + "\n" == pre + all
  {
    calc {
      block + "\n" + tail + "\n";
      pre + body + "\n" + (tail + "\n");
      pre + body + "\n" + ("\n" + rest);
      pre + (body + "\n" + "\n" + rest);
    }
  }

  /** What `stringify` writes is the header rows and the rows of every cue, joined by line feeds. */
  lemma StringifyRows(cs: seq<Cue>, f: Format)
    requires cs != []
    ensures Stringify(cs, f) == Join(HeaderRows(f) + CueRows(cs, 1, f), "\n")
  {
    StringifyBody(cs, f);
    CueRowsNonEmpty(cs, 1, f);
    HeaderJoin(f, CueRows(cs, 1, f));
  }

  lemma StringifyBody(cs: seq<Cue>, f: Format)
    requires cs != []
    ensures Stringify(cs, f) == Header(f) + Join(CueRows(cs, 1, f), "\n")
  {
    BlocksText(cs, 0, f);
    AppendLineFeed(Header(f), Join(Blocks(cs, 0, f), "\n"), Join(CueRows(cs, 1, f), "\n"));
  }

  lemma AppendLineFeed(header: string, blocks: string, rows: string)
    requires blocks + "\n" == "" + rows
    ensures header + blocks + "\n" == header + rows
  {
    assert "" + rows == rows;
  }

  lemma CueRowsNonEmpty(cs: seq<Cue>, n: nat, f: Format)
    requires cs != []
    ensures CueRows(cs, n, f) != []
  {
    assert CueRows(cs, n, f) == BlockRows(n, cs[0], f) + CueRows(cs[1..], n + 1, f);
  }

  /** The header is its rows joined by line feeds, with the line feed before the first cue. */
  lemma HeaderJoin(f: Format, body: seq<string>)
    requires body != []
    ensures Header(f) + Join(body, "\n") == Join(HeaderRows(f) + body, "\n")
  {
    if f == Vtt {
      JoinAppend(["WEBVTT", ""], body, "\n");
      assert Join(["WEBVTT", ""], "\n") == "WEBVTT\n" by {
        assert ["WEBVTT", ""][1..] == [""];
      }
    } else {
      assert HeaderRows(f) + body == body;
    }
  }

  /** Without cues `stringify` writes the header and one line feed. */
  lemma StringifyEmpty(f: Format)
    ensures Stringify([], f) == Header(f) + "\n"
  {
  }
}
