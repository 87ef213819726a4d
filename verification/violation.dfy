/**
 * The contract-violation record and its one-line rendering. The three headers
 * that declare `ContractViolation` (`operators.hpp`, `contract_types.hpp` and
 * `contract_violation.hpp`) agree on its six fields, on the order the
 * constructor takes them, and on the rendering; `string()` returns exactly
 * what the stream operator writes, so one function models both.
 */
module Violation {
  import opened Text
  import opened Wrappers

  /** `uint_least32_t` */
  type Uint32 = x: nat | x < 0x1_0000_0000

  /** Built once when a check fails; every field is fixed at construction. */
  datatype ContractViolation = ContractViolation(
    lineNumber: Uint32,
    comment: string,
    assertionLevel: string,
    continuationMode: string,
    fileName: string,
    functionName: string)

  // The literal pieces of the rendering, each running from the closing quote
  // of one value to the opening quote of the next.
  const Open: string := "{comment: \""
  const BeforeFunctionName: string := "\", function_name: \""
  const BeforeFileName: string := "\", file_name: \""
  const BeforeLineNumber: string := "\", line_number: \""
  const BeforeAssertionLevel: string := "\", assertion_level: \""
  const BeforeContinuationMode: string := "\", violation_continuation_mode: \""
  const Close: string := "\"}"

  /** `operator<<` and `string()` */
  function Render(cv: ContractViolation): (s: string)
    ensures |s| == 118 + |cv.comment| + |cv.functionName| + |cv.fileName|
                   + |NatToString(cv.lineNumber)| + |cv.assertionLevel| + |cv.continuationMode|
    ensures s[0] == '{' && s[|s| - 1] == '}'
  {
    Open + cv.comment
    + BeforeFunctionName + cv.functionName
    + BeforeFileName + cv.fileName
    + BeforeLineNumber + NatToString(cv.lineNumber)
    + BeforeAssertionLevel + cv.assertionLevel
    + BeforeContinuationMode + cv.continuationMode
    + Close
  }

  /** The six keys and values, in the order they are rendered. */
  function Fields(cv: ContractViolation): seq<(string, string)> {
    [ ("comment", cv.comment),
      ("function_name", cv.functionName),
      ("file_name", cv.fileName),
      ("line_number", NatToString(cv.lineNumber)),
      ("assertion_level", cv.assertionLevel),
      ("violation_continuation_mode", cv.continuationMode) ]
  }

  /** `key: "value"` */
  function Entry(field: (string, string)): string {
    field.0 + ": \"" + field.1 + "\""
  }

  /** Entries separated by ", ". */
  function JoinEntries(fields: seq<(string, string)>): string {
    if |fields| == 0 then ""
    else if |fields| == 1 then Entry(fields[0])
    else Entry(fields[0]) + ", " + JoinEntries(fields[1..])
  }

  /** A generic single-line record: braces around the comma-separated entries. */
  function RenderRecord(fields: seq<(string, string)>): string {
    "{" + JoinEntries(fields) + "}"
  }

  /**
   * The rendering is the generic record of the six fields in the order comment,
   * function_name, file_name, line_number, assertion_level,
   * violation_continuation_mode.
   */
  lemma RenderIsRecordOfFields(cv: ContractViolation)
    ensures Render(cv) == RenderRecord(Fields(cv))
  {
    PiecesAreEntryBoundaries();
    SixEntries(Fields(cv), Open, BeforeFunctionName, BeforeFileName, BeforeLineNumber,
               BeforeAssertionLevel, BeforeContinuationMode, Close);
    RenderIsNested(cv);
  }

  /**
   * Six entries in braces, regrouped so that each boundary piece (a closing
   * quote, the separator and the next key) sits between two values.
   */
  lemma SixEntries(f: seq<(string, string)>, open: string, b1: string, b2: string, b3: string,
                   b4: string, b5: string, close: string)
    requires |f| == 6
    requires open == "{" + f[0].0 + ": \""
    requires b1 == "\"" + ", " + f[1].0 + ": \""
    requires b2 == "\"" + ", " + f[2].0 + ": \""
    requires b3 == "\"" + ", " + f[3].0 + ": \""
    requires b4 == "\"" + ", " + f[4].0 + ": \""
    requires b5 == "\"" + ", " + f[5].0 + ": \""
    requires close == "\"" + "}"
    ensures RenderRecord(f) == open + (f[0].1 + (b1 + (f[1].1 + (b2 + (f[2].1 + (b3 + (f[3].1
                            + (b4 + (f[4].1 + (b5 + (f[5].1 + close)))))))))))
  {
    var sep := ", ";
    var y5 := Entry(f[5]);
    var y4 := Entry(f[4]) + (sep + y5);
    var y3 := Entry(f[3]) + (sep + y4);
    var y2 := Entry(f[2]) + (sep + y3);
    var y1 := Entry(f[1]) + (sep + y2);
    var y0 := Entry(f[0]) + (sep + y1);
    var n5 := f[5].1 + close;
    var n4 := f[4].1 + (b5 + n5);
    var n3 := f[3].1 + (b4 + n4);
    var n2 := f[2].1 + (b3 + n3);
    var n1 := f[1].1 + (b2 + n2);
    var n0 := f[0].1 + (b1 + n1);
    LastEntry(f[5].0, f[5].1, close);
    EntryStep(f[4].0, f[4].1, f[5].0, b5, n5, y5);
    EntryStep(f[3].0, f[3].1, f[4].0, b4, n4, y4);
    EntryStep(f[2].0, f[2].1, f[3].0, b3, n3, y3);
    EntryStep(f[1].0, f[1].1, f[2].0, b2, n2, y2);
    EntryStep(f[0].0, f[0].1, f[1].0, b1, n1, y1);
    assert y0 + "}" == f[0].0 + ": \"" + n0;
    JoinSix(f);
    assert RenderRecord(f) == "{" + (y0 + "}");
  }

  /** The last entry and the closing brace. */
  lemma LastEntry(key: string, value: string, close: string)
    requires close == "\"" + "}"
    ensures Entry((key, value)) + "}" == key + ": \"" + (value + close)
  {
  }

  /** One entry and its separator, regrouped to run up to the next value. */
  lemma EntryStep(key: string, value: string, nextKey: string, before: string, next: string, entries: string)
    requires before == "\"" + ", " + nextKey + ": \""
    requires entries + "}" == nextKey + ": \"" + next
    ensures (Entry((key, value)) + (", " + entries)) + "}"
         == key + ": \"" + (value + (before + next))
  {
    calc {
      (Entry((key, value)) + (", " + entries)) + "}";
      key + ": \"" + value + "\"" + ", " + (entries + "}");
      key + ": \"" + value + "\"" + ", " + (nextKey + ": \"" + next);
      key + ": \"" + (value + (before + next));
    }
  }

  /** Six entries joined by ", ". */
  lemma {:induction false} JoinSix(f: seq<(string, string)>)
    requires |f| == 6
    ensures JoinEntries(f) == Entry(f[0]) + (", " + (Entry(f[1]) + (", " + (Entry(f[2])
      + (", " + (Entry(f[3]) + (", " + (Entry(f[4]) + (", " + Entry(f[5]))))))))))
  {
    assert JoinEntries(f[5..]) == Entry(f[5]);
    assert JoinEntries(f[4..]) == Entry(f[4]) + ", " + JoinEntries(f[5..]) by { assert f[4..][1..] == f[5..]; }
    assert JoinEntries(f[3..]) == Entry(f[3]) + ", " + JoinEntries(f[4..]) by { assert f[3..][1..] == f[4..]; }
    assert JoinEntries(f[2..]) == Entry(f[2]) + ", " + JoinEntries(f[3..]) by { assert f[2..][1..] == f[3..]; }
    assert JoinEntries(f[1..]) == Entry(f[1]) + ", " + JoinEntries(f[2..]) by { assert f[1..][1..] == f[2..]; }
    assert JoinEntries(f) == Entry(f[0]) + ", " + JoinEntries(f[1..]);
  }

  /** The opening and closing pieces, and the piece before the function name. */
  lemma OuterPieces()
    ensures Open == "{" + "comment" + ": \""
    ensures BeforeFunctionName == "\"" + ", " + "function_name" + ": \""
    ensures Close == "\"" + "}"
  {
  }

  /** The pieces before the file name and the line number. */
  lemma MiddlePieces()
    ensures BeforeFileName == "\"" + ", " + "file_name" + ": \""
    ensures BeforeLineNumber == "\"" + ", " + "line_number" + ": \""
  {
  }

  /** The piece before the assertion level. */
  lemma LevelPiece()
    ensures BeforeAssertionLevel == "\"" + ", " + "assertion_level" + ": \""
  {
  }

  /** The piece before the continuation mode. */
  lemma ModePiece()
    ensures BeforeContinuationMode == "\"" + ", " + "violation_continuation_mode" + ": \""
  {
  }

  /** Each literal piece is a closing quote, the ", " separator and the next key. */
  lemma PiecesAreEntryBoundaries()
    ensures Open == "{" + "comment" + ": \""
    ensures BeforeFunctionName == "\"" + ", " + "function_name" + ": \""
    ensures BeforeFileName == "\"" + ", " + "file_name" + ": \""
    ensures BeforeLineNumber == "\"" + ", " + "line_number" + ": \""
    ensures BeforeAssertionLevel == "\"" + ", " + "assertion_level" + ": \""
    ensures BeforeContinuationMode == "\"" + ", " + "violation_continuation_mode" + ": \""
    ensures Close == "\"" + "}"
  {
    OuterPieces();
    MiddlePieces();
    LevelPiece();
    ModePiece();
  }

  /** The rendering opens with `{comment: "` and the comment and closes with `"}`. */
  lemma RenderFrame(cv: ContractViolation)
    ensures Render(cv)[..|Open + cv.comment|] == "{comment: \"" + cv.comment
    ensures Render(cv)[|Render(cv)| - 2..] == "\"}"
  {
    var rest := BeforeFunctionName + cv.functionName
      + BeforeFileName + cv.fileName
      + BeforeLineNumber + NatToString(cv.lineNumber)
      + BeforeAssertionLevel + cv.assertionLevel
      + BeforeContinuationMode + cv.continuationMode;
    assert Render(cv) == (Open + cv.comment) + rest + Close;
  }

  /** No double quote inside any text field, so the rendering can be read back. */
  predicate Quoteless(cv: ContractViolation) {
    && '"' !in cv.comment
    && '"' !in cv.functionName
    && '"' !in cv.fileName
    && '"' !in cv.assertionLevel
    && '"' !in cv.continuationMode
  }

  /** Consumes `lit`, then splits off the text up to the next double quote. */
  function ReadEntry(lit: string, s: string): Option<(string, string)> {
    var rest :- Expect(lit, s);
    Some(SplitAt('"', rest))
  }

  /** Reads a rendered violation back; the inverse of `Render` on quoteless records. */
  function Parse(s: string): Option<ContractViolation> {
    var comment :- ReadEntry(Open, s);
    var functionName :- ReadEntry(BeforeFunctionName, comment.1);
    var fileName :- ReadEntry(BeforeFileName, functionName.1);
    var line :- ReadEntry(BeforeLineNumber, fileName.1);
    var assertionLevel :- ReadEntry(BeforeAssertionLevel, line.1);
    var continuationMode :- ReadEntry(BeforeContinuationMode, assertionLevel.1);
    var tail :- Expect(Close, continuationMode.1);
    if tail != [] || line.0 == [] || !AllDigits(line.0) || ParseNat(line.0) >= 0x1_0000_0000 then None
    else Some(ContractViolation(
      ParseNat(line.0), comment.0, assertionLevel.0, continuationMode.0, fileName.0, functionName.0))
  }

  /** Reading a field followed by its closing quote and the rest of the line. */
  lemma ReadField(lit: string, v: string, rest: string)
    requires '"' !in v
    requires rest != [] && rest[0] == '"'
    ensures ReadEntry(lit, lit + (v + rest)) == Some((v, rest))
  {
    ExpectPrefix(lit, v + rest);
    SplitAtStops('"', v, rest);
  }

  /** The rendering, regrouped so that every piece is followed by the rest of the line. */
  function Nested(cv: ContractViolation): string {
    Open + (cv.comment
    + (BeforeFunctionName + (cv.functionName
    + (BeforeFileName + (cv.fileName
    + (BeforeLineNumber + (NatToString(cv.lineNumber)
    + (BeforeAssertionLevel + (cv.assertionLevel
    + (BeforeContinuationMode + (cv.continuationMode + Close)))))))))))
  }

  /** Thirteen strings concatenated left to right equal the same strings nested to the right. */
  lemma NestThirteen(
    p0: string, v0: string, p1: string, v1: string, p2: string, v2: string, p3: string,
    v3: string, p4: string, v4: string, p5: string, v5: string, p6: string)
    ensures p0 + v0 + p1 + v1 + p2 + v2 + p3 + v3 + p4 + v4 + p5 + v5 + p6
         == p0 + (v0 + (p1 + (v1 + (p2 + (v2 + (p3 + (v3 + (p4 + (v4 + (p5 + (v5 + p6)))))))))))
  {
    var t := v5 + p6;
    assert p0 + v0 + p1 + v1 + p2 + v2 + p3 + v3 + p4 + v4 + p5 + v5 + p6
        == p0 + v0 + p1 + v1 + p2 + v2 + p3 + v3 + p4 + v4 + p5 + t;
    t := p5 + t;
    assert p0 + v0 + p1 + v1 + p2 + v2 + p3 + v3 + p4 + v4 + p5 + v5 + p6
        == p0 + v0 + p1 + v1 + p2 + v2 + p3 + v3 + p4 + v4 + t;
    t := v4 + t;
    assert p0 + v0 + p1 + v1 + p2 + v2 + p3 + v3 + p4 + v4 + p5 + v5 + p6
        == p0 + v0 + p1 + v1 + p2 + v2 + p3 + v3 + p4 + t;
    t := p4 + t;
    assert p0 + v0 + p1 + v1 + p2 + v2 + p3 + v3 + p4 + v4 + p5 + v5 + p6
        == p0 + v0 + p1 + v1 + p2 + v2 + p3 + v3 + t;
  }

  /** The rendering, regrouped to the right. */
  lemma RenderIsNested(cv: ContractViolation)
    ensures Render(cv) == Nested(cv)
  {
    NestThirteen(Open, cv.comment, BeforeFunctionName, cv.functionName, BeforeFileName, cv.fileName,
                 BeforeLineNumber, NatToString(cv.lineNumber), BeforeAssertionLevel, cv.assertionLevel,
                 BeforeContinuationMode, cv.continuationMode, Close);
  }

  /** Every quoteless violation record is recovered from its rendering. */
  lemma RenderRoundTrip(cv: ContractViolation)
    requires Quoteless(cv)
    ensures Parse(Render(cv)) == Some(cv)
  {
    var line := NatToString(cv.lineNumber);
    assert forall i :: 0 <= i < |line| ==> IsDigit(line[i]);
    var t6 := BeforeContinuationMode + (cv.continuationMode + Close);
    var t5 := BeforeAssertionLevel + (cv.assertionLevel + t6);
    var t4 := BeforeLineNumber + (line + t5);
    var t3 := BeforeFileName + (cv.fileName + t4);
    var t2 := BeforeFunctionName + (cv.functionName + t3);
    RenderIsNested(cv);
    ReadField(Open, cv.comment, t2);
    ReadField(BeforeFunctionName, cv.functionName, t3);
    ReadField(BeforeFileName, cv.fileName, t4);
    ReadField(BeforeLineNumber, line, t5);
    ReadField(BeforeAssertionLevel, cv.assertionLevel, t6);
    ReadField(BeforeContinuationMode, cv.continuationMode, Close);
    ExpectPrefix(Close, []);
    assert Close + [] == Close;
    ParseNatToString(cv.lineNumber);
  }
}
