/** The exceptions the subtitle library and the merge script throw, with their messages. */
module Errors {
  import opened Strings

  datatype Error =
    | TimeFormat(text: string)
    | TimestampLine
    | UnexpectedRow(expected: string, row: nat, received: string)
    | BadAttribute
    | NoPrimaryCue

  /** The message of the thrown `Error` (for `NoPrimaryCue`, the `TypeError` of reading a field of `undefined`). */
  function Message(e: Error): (m: string)
    ensures e.UnexpectedRow? ==>
      && StartsWith(m, "expected " + e.expected + " at row " + NatToString(e.row) + ", but received ")
      && |e.received| <= |m| && m[|m| - |e.received|..] == e.received
  {
    match e
    case TimeFormat(text) => "Invalid SRT or VTT time format: \"" + text + "\""
    case TimestampLine => "Invalid timestamp format"
    case UnexpectedRow(expected, row, received) =>
      var head := "expected " + expected + " at row " + NatToString(row) + ", but received ";
      var m := head + received;
      assert m[..|head|] == head;
      m
    case BadAttribute => "Cannot parse attr"
    case NoPrimaryCue => "Cannot read properties of undefined (reading 'start')"
  }

  /**
   * For one expected kind, the message names the row and the received text: two such errors
   * have the same message exactly when they are the same error.
   */
  lemma MessageNamesRow(a: Error, b: Error)
    requires a.UnexpectedRow? && b.UnexpectedRow? && a.expected == b.expected
    ensures Message(a) == Message(b) <==> a == b
  {
    if Message(a) == Message(b) {
      var head := "expected " + a.expected + " at row ";
      var ta := ", but received " + a.received;
      var tb := ", but received " + b.received;
      var ra, rb := NatToString(a.row), NatToString(b.row);
      MessageParts(a, head, ra, ta);
      MessageParts(b, head, rb, tb);
      CancelPrefix(head, ra + ta, rb + tb);
      DigitsThenComma(ra, ta, rb, tb);
      NatToStringValue(a.row);
      NatToStringValue(b.row);
      assert a.received == ta[15..];
      assert b.received == tb[15..];
    }
  }

  lemma MessageParts(e: Error, head: string, r: string, t: string)
    requires e.UnexpectedRow? && head == "expected " + e.expected + " at row "
    requires r == NatToString(e.row) && t == ", but received " + e.received
    ensures Message(e) == head + (r + t)
  {
  }

  lemma CancelPrefix(head: string, x: string, y: string)
    requires head + x == head + y
    ensures x == y
  {
    assert x == (head + x)[|head|..];
    assert y == (head + y)[|head|..];
  }

  /** A digit run followed by a comma ends at the comma. */
  lemma DigitsThenComma(ra: string, ta: string, rb: string, tb: string)
    requires AllDigits(ra) && AllDigits(rb)
    requires ta != [] && ta[0] == ',' && tb != [] && tb[0] == ','
    requires ra + ta == rb + tb
    ensures ra == rb && ta == tb
  {
    DigitPrefixOf(ra, ta);
    DigitPrefixOf(rb, tb);
    assert ta == (ra + ta)[|ra|..];
    assert tb == (rb + tb)[|rb|..];
  }
}
