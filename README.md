# srt-merge, the core in Dafny

A model of the subtitle core of `srt-merge`, with proofs about it. The core is the subtitle
library bundled into `build/srt-merge.js` together with the merge function of the script. It has
four parts:

- a timestamp codec (`HH:MM:SS,mmm` / `HH:MM:SS.mmm`);
- a line-oriented parser: a three-state machine over the normalized rows;
- a serializer for SRT and WebVTT;
- the merge engine, which applies attribute tokens (`top-bottom`, `nearest-cue-T[-no-append]`,
  `move-D`, `simple`) to a secondary track and then interleaves it with the primary track by
  start time.

The model follows the code's form:

- Pure expressions of the script become functions. These are the timestamp codec, `normalize`,
  `stringify`, `resync`, `clearPosition` and token reading.
- Loops and in-place updates become methods proved equal to those functions.
  - `parse`'s `forEach` over a mutable `state` record is the class `Parser.ParserState`, driven
    by `Parser.ParseRows`.
  - `binarySearch` is a `while` loop.
  - The attribute sort and the final sort are a stable in-place insertion sort on an array
    (`Sorting.SortInPlace`). JavaScript's `Array.prototype.sort` is stable, and this sort has
    the same output.
  - The nearest-cue pass writes into an array of copied primary cues.
  - The `{\an8}` `forEach` writes into an array.

Errors are values of `Errors.Error`. A thrown exception becomes `Err(...)`.

The modules, in dependency order:

1. `Wrappers`, `Strings` and `Errors` hold helpers and error kinds.
2. `Timestamp` is the codec.
3. `Cues` is the cue record and the `RE_TIMESTAMP` matcher.
4. `Rows` is `normalize`.
5. `Parser` is `parse`.
6. `Serializer` is `stringify`.
7. `RoundTrip` and `StringifyParse` hold the serialize-then-parse proof.
8. `Search` is `binarySearch`.
9. `Sorting` is the stable sort.
10. `Attrs` covers token order and token reading.
11. `Positions` is `clearPosition` and `{\an8}`.
12. `Resync` is `move-D`.
13. `Nearest` is `nearest-cue`.
14. `Merge` is `merge`.

### Behaviour of the code worth knowing

- **Attribute order.**
  - The comparator ranks by the first character of the *untrimmed* token: `s` 0, `t` 1, `m` 2,
    `n` 3. Every other first character, and the empty token, ranks -1.
  - So `simple` ranks 0 and is applied before the other classes. A token with leading blanks
    ranks -1 and is applied before all the classes (`Attrs.PaddedToken`).
- **Rejected tokens.** The thrown message is `Cannot parse attr`; the token itself is not part of
  it.
- **Binary search.**
  - An exact hit returns the index of the probe that found it (`Search.HitNotRightmost` shows a
    case where that is not the last equal element).
  - With duplicates, `A[i + 1] > v` therefore need not hold. `Search.SearchBrackets` states what
    does hold.
- **Nearest cue.**
  - The code takes the first candidate that is close enough, which need not be the nearest one
    (`Nearest.EarlierCandidateWins`).
  - It neither sorts nor checks the primary track is ascending. Ascending start times are only
    assumed by the lemmas about what a match means.
- **Empty primary track.** A nearest-cue token with no primary cues and at least one secondary cue
  reads `srtPrimary[0].start` of an empty array. The model returns `Err(NoPrimaryCue)` there.

## Model

| member | source | states |
|---|---|---|
| Timestamp.ParseTimestamp | build/srt-merge.js:41-51 | succeeds exactly on text of the shape `[H+:]MM:SS[,.]mmm`; otherwise the error carries the text; results are non-negative |
| Timestamp.FormatShape | build/srt-merge.js:14-26 | any formatted time begins with two-digit hours, minutes and seconds of its day, `:`-separated, then `,` (srt) or `.` (vtt) |
| Timestamp.FormatWithinDay | build/srt-merge.js:14-26 | inside one day the text is exactly `HH:MM:SS` + separator + three-digit milliseconds |
| Timestamp.ClockFields | build/srt-merge.js:20-24 | inside one day the `Date` fields are the quotient-and-remainder hours, minutes, seconds and milliseconds |
| Timestamp.FormatParseRoundTrip | build/srt-merge.js:14-26 | parsing a formatted time inside one day gives the time back, in both formats |
| Strings.PadLeft | build/srt-merge.js:8-13 | the padded text is at least as wide as asked, and all digits for a non-negative value |
| Strings.PadLeftValue | build/srt-merge.js:8-13 | a number below 100 (width 2) or 1000 (width 3) pads to exactly that many digits, which read back as the number |
| Cues.MatchSound | build/srt-merge.js:52 | a matched timestamp line is exactly its groups put back together with ` --> ` and one space |
| Cues.MatchComplete | build/srt-merge.js:52 | two timestamp texts and a line-free rest always match, with exactly those groups |
| Cues.ParseTimestampsShape | build/srt-merge.js:53-66 | `parseTimestamps` succeeds exactly on timestamp lines, with non-negative times and settings only when non-empty |
| Cues.SettingsWhenTextFollows | build/srt-merge.js:62-64 | text after the single space becomes the settings; an empty one does not |
| Cues.NoSettingsWithoutSpace | build/srt-merge.js:62-64 | a line ending at the end time has no settings |
| Cues.IsIndexTrim | build/srt-merge.js:70-72 | a row is an index exactly when its trimmed text is a non-empty digit run |
| Rows.CollapseLeavesNoTriple | build/srt-merge.js:68 | after collapsing, no three line feeds follow one another |
| Rows.CollapseWithoutTriple | build/srt-merge.js:68 | text without three line feeds in a row is left unchanged |
| Rows.CollapseRun | build/srt-merge.js:68 | a leading run of two or more line feeds becomes exactly two |
| Rows.CollapseAppend | build/srt-merge.js:68 | text not ending in a line feed is collapsed independently of what follows it |
| Rows.CollapseRunInside | build/srt-merge.js:68 | a maximal run of three or more line feeds anywhere becomes exactly `"\n\n"`, the text around it collapsed alike |
| Rows.ReplaceCrlfWithoutCr | build/srt-merge.js:68 | text without carriage returns is left unchanged by the CRLF rewrite |
| Rows.StripHeaderRemovesBlock | build/srt-merge.js:68 | a `WEBVTT` line, `key: value` rows and a blank row are removed, leaving the rest |
| Rows.StripBareHeader | build/srt-merge.js:68 | a bare `WEBVTT` line and blank row are removed |
| Rows.StripHeaderWithoutMagic | build/srt-merge.js:68 | rows not starting with `WEBVTT` are kept |
| Rows.NormalizeJoinedRows | build/srt-merge.js:67-69 | well-spaced rows joined by line feeds normalize back to the same rows |
| Parser.ParserState.HandleRow | build/srt-merge.js:90-130 | one callback call moves the state record as the transition function says, or reports the thrown error |
| Parser.ParseRows | build/srt-merge.js:80-131 | the row loop returns the captions of the state machine run over all rows, or its first error |
| Parser.Parse | build/srt-merge.js:79-131 | `parse` is the machine run on the normalized rows |
| Parser.RunErrorNamesRow | build/srt-merge.js:97-100 | every failure is "expected timestamp" naming a 1-based row within the rows read, with that row's content, which is not a timestamp line |
| Parser.ParseErrorNamesRow | build/srt-merge.js:76-78 | a failed parse names a row of the normalized input by its 1-based number, and that row's text |
| Parser.MissingTimestampThrows | build/srt-merge.js:91-100 | where a timestamp is due and the row is not one (nor a skippable index), the error names that row |
| Parser.IndexRowOptional | build/srt-merge.js:91-96 | an index row before a timestamp line is skipped, as if absent |
| Parser.TimestampLineIsNoIndex | build/srt-merge.js:70-75 | no timestamp line is also an index row |
| Serializer.SettingsSuffix | build/srt-merge.js:150 | settings are written only for WebVTT and only when present and non-empty, after one space |
| Serializer.StringifyRows | build/srt-merge.js:141-155 | the text is the header rows and, per cue, its number, timing line, text lines and a blank row, joined by line feeds |
| Serializer.StringifyEmpty | build/srt-merge.js:141-155 | no cues give the header followed by one line feed |
| StringifyParse.StringifyParseRoundTrip | build/srt-merge.js:67-155 | for writable non-empty cue lists, `parse(stringify(cs, f))` gives back the cues, settings kept only for WebVTT |
| RoundTrip.RunCueRows | build/srt-merge.js:90-130 | the rows of writable cues, fed to the machine, add exactly those cues (settings decoded) to the captions read so far |
| Errors.Message | build/srt-merge.js:76-78 | the unexpected-row message is "expected <kind> at row " and the row number, then ", but received ", and ends with the received row |
| Errors.MessageNamesRow | build/srt-merge.js:76-78 | for one expected kind, two messages are equal exactly when the errors are: the message determines the row number and the received row |
| Search.BinarySearch | build/srt-merge.js:253-273 | the loop returns a value in `[-1, \|a\|)` equal to the search specification |
| Search.SearchBrackets | build/srt-merge.js:253-273 | on ascending input: `a[i] <= v <= a[i+1]`, the right side strict unless a hit; -1 exactly when empty or `v < a[0]`; a hit exactly when `v` occurs |
| Search.HitNotRightmost | build/srt-merge.js:262-264 | with duplicates the returned hit need not be the rightmost |
| Sorting.SortSorted | build/srt-merge.js:174-182 | the sort's output is ascending by key |
| Sorting.SortStable | build/srt-merge.js:174-182 | the elements of each key keep their relative order |
| Sorting.StableSortUnique | build/srt-merge.js:174-182 | any sorted, per-key order-preserving rearrangement is the sort's output |
| Sorting.InsertInPlace | build/srt-merge.js:174 | the in-place step inserts the element after the sorted prefix's last element of key at most its own, leaving the rest |
| Sorting.SortInPlace | build/srt-merge.js:174 | the array ends as the stable sort of its old contents |
| Attrs.Rank | build/srt-merge.js:175-181 | rank in `[-1, 4)`, non-negative exactly when the first character is one of `s t m n`, and then that character |
| Attrs.AttrsOrdered | build/srt-merge.js:174-182 | the sorted tokens are a permutation of the given ones, ascending by rank, each rank's tokens in given order |
| Attrs.MoveBeforeNearest | build/srt-merge.js:174-182 | a token starting with `m` is applied before any starting with `n` |
| Attrs.ParseAttr | build/srt-merge.js:184-233 | reading a token fails only with "Cannot parse attr", and a read threshold is never negative |
| Attrs.ParseAttrRejects | build/srt-merge.js:184-233 | a token is rejected exactly when, trimmed, it is none of `top-bottom`, a nearest-cue token, a move token, `simple` or empty |
| Attrs.NearestFields | build/srt-merge.js:193-196 | on a nearest-cue token, `lastIndexOf("cue-")` finds the prefix's, so the threshold is the digit run and `-no-append` is found exactly when present |
| Attrs.MoveFields | build/srt-merge.js:228-229 | on a move token, `lastIndexOf("e-")` finds the one in `move-`, so the sign is kept |
| Attrs.ParseNearestToken | build/srt-merge.js:193-196 | `nearest-cue-<digits>[-no-append]` reads as that threshold and mode, leading zeros or not |
| Attrs.ParseMoveToken | build/srt-merge.js:228-229 | `move-<digits>` and `move--<digits>` read as that delay, negative for `move--` |
| Attrs.ParseAttrToken | build/srt-merge.js:184-233 | reading the token that asks for an operation gives back that operation |
| Attrs.ParseMoveDelay | build/srt-merge.js:228-229 | `"move-" + d` reads as `Move(d)` for every integer `d` |
| Attrs.ParseAttrNoOp | build/srt-merge.js:184-233 | a token does nothing exactly when it trims to `simple` or to nothing |
| Attrs.PaddedToken | build/srt-merge.js:174-186 | a leading blank ranks the token -1 but does not change what it reads as |
| Positions.Strip | build/srt-merge.js:245-246 | a global replace never lengthens the text |
| Positions.StripWithoutBrace | build/srt-merge.js:245-246 | text without `{` has nothing removed |
| Positions.StripKeepsPlain | build/srt-merge.js:245-246 | a brace-free front is kept and the replace goes on with the rest |
| Positions.StripAlignTag | build/srt-merge.js:245 | a `{\aN}` or `{\anN}` tag at the front is dropped |
| Positions.StripPosTag | build/srt-merge.js:246 | a `{\pos(x,y)}` tag at the front is dropped |
| Positions.NoRescan | build/srt-merge.js:245 | the pass does not rescan: for every digit `c`, `{\a{\ac}c}` becomes the tag `{\ac}`, which survives |
| Positions.ClearPosition | build/srt-merge.js:242-249 | same number of cues, with times and settings unchanged and each text the cleared text of the same cue |
| Positions.ClearPlainText | build/srt-merge.js:242-249 | a text without `{` survives `clearPosition` unchanged |
| Positions.AlignTop | build/srt-merge.js:190-192 | same number of cues, with times and settings unchanged and each text prefixed with `{\an8}` |
| Positions.AlignTopInPlace | build/srt-merge.js:190-192 | the `forEach` leaves the array equal to the cues with `{\an8}` prefixed |
| Resync.Resync | build/srt-merge.js:133-140 | every start and end moves by exactly `d`; texts, settings and count are kept |
| Resync.ResyncInverse | build/srt-merge.js:133-140 | moving by `d` and then `-d` restores the cues |
| Resync.ResyncCompose | build/srt-merge.js:133-140 | two moves are one move by the sum |
| Resync.ResyncKeepsShape | build/srt-merge.js:133-140 | durations are kept, and start times are ascending after exactly when before |
| Nearest.MatchIndex | build/srt-merge.js:211-226 | fails exactly when there is no primary cue (reading `srtPrimary[0]`); a match is a valid index |
| Nearest.MatchMeaning | build/srt-merge.js:211-226 | on ascending starts, a cue matches exactly when some primary cue starts within the threshold, and its match does |
| Nearest.EarlierCandidateWins | build/srt-merge.js:218-223 | the first close-enough candidate is taken even when a later one is nearer |
| Nearest.RunNearestCue | build/srt-merge.js:193-227 | the loop over copied primary cues gives the same tracks or error as the specification fold |
| Nearest.AppendEffect | build/srt-merge.js:204-227 | append mode: each primary cue gains `"\n" + text` of every cue matched to it, in order; only unmatched cues remain secondary |
| Nearest.NoAppendEffect | build/srt-merge.js:198-203 | no-append mode: the primary is unchanged and every secondary cue stays, re-timed to its match |
| Nearest.SnapEffect | build/srt-merge.js:198-203 | a re-timed cue takes its match's start, takes its end only within the threshold, and keeps text and settings |
| Nearest.SnappedKeepsUnmatched | build/srt-merge.js:216-225 | an unmatched secondary cue is passed on unchanged |
| Nearest.UnmatchedCount | build/srt-merge.js:227 | kept and absorbed secondary cues add up to all of them |
| Nearest.EmptyPrimary | build/srt-merge.js:211-213 | with no primary cue the step fails as soon as there is a secondary cue |
| Nearest.Grown | build/srt-merge.js:205 | every primary cue keeps its times and settings and gains the appended lines |
| Merge.ParseTrack | build/srt-merge.js:159-164 | the empty text is the empty track; any other text is parsed |
| Merge.ApplyAttr | build/srt-merge.js:187-233 | one attribute fails only for nearest-cue with no primary and some secondary cue; the primary keeps its times; only append mode drops secondary cues |
| Merge.ApplyTokens | build/srt-merge.js:183-234 | after all tokens the primary keeps its times, and the secondary keeps its length unless some token absorbs cues |
| Merge.CombineOrdered | build/srt-merge.js:236-239 | the result is a permutation of primary ++ secondary, ascending by start, each start's cues primary-first in their order |
| Merge.RejectedFails | build/srt-merge.js:231-233 | a rejected token anywhere makes the application fail |
| Merge.RejectedTokenFails | build/srt-merge.js:174-233 | a rejected token in the caller's list makes the merge fail, whatever the order |
| Merge.BadAttributeFromToken | build/srt-merge.js:183-234 | the application fails with "Cannot parse attr" only when some token is rejected |
| Merge.BadAttributeNamesToken | build/srt-merge.js:174-234 | the merge fails with "Cannot parse attr" only when one of the caller's tokens is rejected |
| Merge.LeadingRejected | build/srt-merge.js:174-233 | when the first token ranked -1 is rejected, the merge throws "Cannot parse attr" before anything else applies |
| Merge.MoveUndo | build/srt-merge.js:228-230 | a move by `d` followed by a move by `-d` leaves both tracks unchanged |
| Merge.TopBottomEffect | build/srt-merge.js:187-192 | `top-bottom` keeps all times, clears tags in both tracks, prefixes `{\an8}` to the secondary, and leaves brace-free primary cues as they are |
| Merge.AppendCount | build/srt-merge.js:193-227 | in append mode the secondary loses exactly the matched cues |
| Merge.TokensKeepPrimaryOrder | build/srt-merge.js:183-234 | ascending primary starts stay ascending through every token, so each nearest-cue search sees sorted starts |
| Merge.MergeLength | build/srt-merge.js:158-240 | a successful merge returns at most the parsed cue count, exactly that without absorbing tokens, ascending by start |
| Merge.ApplyOne | build/srt-merge.js:187-233 | the callback's copies and edits give one attribute's effect |
| Merge.ApplyAll | build/srt-merge.js:183-234 | the `forEach` over the tokens gives the token fold, stopping at the first exception |
| Merge.CombineTracks | build/srt-merge.js:236-239 | concatenating and sorting in place gives the stable sort by start |
| Merge.Merge | build/srt-merge.js:158-241 | returns the merge specification (cues, or their SRT text); the caller's token array ends sorted once both tracks parse |

## Left out

- The command-line tail of the script (argument handling, file reads and writes, the overwrite
  prompt, console output and exit codes) is I/O glue and is not modelled.
- `formatTimestamp` reads JavaScript `Date` local-time getters. The model uses integer arithmetic
  that agrees with them for a clock without time-zone transitions. Times outside one day are
  formatted as those getters would format them, but the round trip is proved only inside a day.
- The dynamic `typeof` checks of `merge` and the "cannot parse srt file" error are vacuous with
  typed inputs. Only the `""` gives `[]` case is kept.
- Already-parsed cue arrays as `merge` inputs are left out: the tracks are always given as text.
  A `string` (rather than array) `attrs`, or an absent one, correspond to a one-element or empty
  token list.
- Tokens that are not strings (`undefined` in the array) are left out. All tokens are strings.
- The `comp` callback of `binarySearch` is never passed, so its branch is not modelled.
- Object identity and aliasing are not modelled. Copies by `_extends`/`Object.assign`, and the
  in-place edits of caller cue objects in no-append mode, are values.
- `String.prototype.trim` is modelled with an ASCII whitespace set, not the Unicode one.
- `parseInt` is modelled on decimal digit runs with unbounded integers. Huge values that lose
  precision as doubles are not modelled.
- Positions.Strip: the two tag regexes are fixed matchers, not a general regex engine.
- Merge.MoveUndo: stated for any two tokens that read as `Move(d)` and `Move(-d)`. The tokens
  `"move-" + d` are such a pair by Attrs.ParseMoveDelay. The composed statement on the literal
  tokens is not stated in one lemma.
