/** The transcript text reads back as the transcript. */
module GatewayLog {
  import opened Text
  import opened Json
  import opened JsonRead
  import opened JsonRoundTrip
  import opened JsonLines
  import opened GatewayMessages
  import opened GatewayCollector
  import opened GatewayChecker
  import Lines

  /** Lines whose messages are JSON objects. */
  predicate AllObjects(lines: seq<Line>) {
    forall i | 0 <= i < |lines| :: lines[i].message.Obj? && Valid(lines[i].message)
  }

  /** The text of a line: no line break, nothing to trim, and the line when it is parsed. */
  predicate PrintedLine(row: string, line: Line) {
    OneLine(row) && row != "" && Trim(row) == row && RowLine(row) == Some(line)
  }

  lemma {:induction false} LineJsonIsValid(line: Line)
    requires line.message.Obj? && Valid(line.message)
    ensures Valid(LineJson(line))
  {
    var members := LineJson(line).members;
    assert Valid(members[0].value) && Valid(members[1].value);
  }

  lemma {:induction false} ObjectText(members: seq<Member>)
    requires members != []
    ensures var s := Stringify(Obj(members)); s != "" && s[0] == '{' && s[|s| - 1] == '}'
  {
    hide PrintMembers;
  }

  lemma {:induction false} PrintsLine(line: Line)
    requires line.message.Obj? && Valid(line.message)
    ensures PrintedLine(Stringify(LineJson(line)), line)
  {
    hide Parse, Print, Valid, LineOf;
    var v := LineJson(line);
    LineJsonIsValid(line);
    StringifyIsOneLine(v);
    ObjectText(v.members);
    TrimOfTrimmed(Stringify(v));
    ParsePrinted(v, "", "");
    assert Stringify(v) + "" == Stringify(v);
    LineOfJson(line);
  }

  predicate AllPrinted(rows: seq<string>, lines: seq<Line>) {
    |rows| == |lines| && forall i | 0 <= i < |rows| :: PrintedLine(rows[i], lines[i])
  }

  lemma {:induction false} PrintsLines(lines: seq<Line>)
    requires AllObjects(lines)
    ensures AllPrinted(Printed(lines), lines)
  {
    hide PrintedLine, LineJson, Stringify;
    if lines != [] {
      PrintsLine(lines[0]);
      PrintsLines(lines[1..]);
    }
  }

  lemma {:induction false} TrimPrinted(rows: seq<string>, lines: seq<Line>)
    requires AllPrinted(rows, lines)
    ensures TrimmedRows(rows + [""]) == rows
  {
    hide Trim, RowLine, OneLine;
    if rows == [] {
      assert rows + [""] == [""] && [""][1..] == [];
      assert Trim("") == "" by { TrimOfTrimmed(""); }
    } else {
      assert (rows + [""])[1..] == rows[1..] + [""];
      TrimPrinted(rows[1..], lines[1..]);
      assert [rows[0]] + rows[1..] == rows;
    }
  }

  lemma {:induction false} ReadPrinted(rows: seq<string>, lines: seq<Line>)
    requires AllPrinted(rows, lines)
    ensures ReadableLines(rows) == lines
  {
    hide Trim, RowLine, OneLine;
    if rows != [] {
      ReadPrinted(rows[..|rows| - 1], lines[..|lines| - 1]);
      assert lines == lines[..|lines| - 1] + [lines[|lines| - 1]];
    }
  }

  /** Printing a transcript as one JSON value a line, then splitting, trimming, parsing and filtering it,
      gives the transcript back; no row is reported. */
  lemma {:induction false} TranscriptReadsBack(lines: seq<Line>)
    requires lines != [] && AllObjects(lines)
    ensures var rows := Rows(TranscriptText(lines));
            && ReadableLines(rows) == lines
            && rows != [] && forall i | 0 <= i < |rows| :: RowLine(rows[i]).Some?
  {
    hide Trim, RowLine, Lines.Split, Lines.Join, TrimmedRows, ReadableLines;
    PrintsLines(lines);
    var rows := Printed(lines);
    assert Lines.AllLines(rows) && forall i | 0 <= i < |rows| :: '\r' !in rows[i];
    Lines.SplitEnded(rows);
    TrimPrinted(rows, lines);
    ReadPrinted(rows, lines);
  }
}
