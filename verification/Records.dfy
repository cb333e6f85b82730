/** The `key: value` record text: its readers and its in-place rewriter. */
module Records {
  import opened Text
  import opened Lines

  datatype Entry = Entry(field: string, value: string)

  predicate IsNameStart(c: char) {
    'a' <= c <= 'z'
  }

  predicate IsNameChar(c: char) {
    'a' <= c <= 'z' || IsDigit(c) || c == '_'
  }

  predicate IsFieldName(s: string) {
    s != "" && IsNameStart(s[0]) && forall i | 0 <= i < |s| :: IsNameChar(s[i])
  }

  function NameRun(s: string): (k: nat)
    ensures k <= |s| && forall i | 0 <= i < k :: IsNameChar(s[i])
    ensures k == |s| || !IsNameChar(s[k])
  {
    if s == "" || !IsNameChar(s[0]) then 0 else 1 + NameRun(s[1..])
  }

  /** The match of `^([a-z][a-z0-9_]*):\s*(.*)$` on a line, with its value trimmed. */
  function EntryOf(line: string): (e: Option<Entry>)
    ensures e.Some? ==> IsFieldName(e.value.field)
  {
    var k := NameRun(line);
    if k == 0 || !IsNameStart(line[0]) || k == |line| || line[k] != ':' then None
    else
      var value := TrimStart(line[k + 1..]);
      if NoTerminator(value) then Some(Entry(line[..k], Trim(value))) else None
  }

  function Entries(lines: seq<string>): seq<Entry> {
    if lines == [] then []
    else (match EntryOf(lines[0]) case None => [] case Some(e) => [e]) + Entries(lines[1..])
  }

  /** `parseRecordFields`. */
  function ParseRecordFields(text: string): seq<Entry> {
    Entries(Split(text))
  }

  /** `readRecordField`: the first entry wins. */
  function FirstValue(entries: seq<Entry>, field: string): Option<string> {
    if entries == [] then None
    else if entries[0].field == field then Some(entries[0].value)
    else FirstValue(entries[1..], field)
  }

  function LastWins(entries: seq<Entry>): map<string, string> {
    if entries == [] then map[]
    else
      var e := entries[|entries| - 1];
      LastWins(entries[..|entries| - 1])[e.field := e.value]
  }

  lemma {:induction false} EntriesConcat(a: seq<string>, b: seq<string>)
    ensures Entries(a + b) == Entries(a) + Entries(b)
  {
    hide EntryOf;
    if a == [] {
      assert a + b == b;
    } else {
      assert (a + b)[1..] == a[1..] + b;
      EntriesConcat(a[1..], b);
    }
  }

  /** A name: a lower-case letter, then lower-case letters, digits and underscores. */
  ghost predicate NameText(field: string) {
    && field != "" && 'a' <= field[0] <= 'z'
    && forall i | 0 <= i < |field| :: 'a' <= field[i] <= 'z' || '0' <= field[i] <= '9' || field[i] == '_'
  }

  /** The line gives the field this text behind its colon. */
  ghost predicate SaysBy(line: string, field: string, rest: string) {
    NameText(field) && NoTerminator(TrimStart(rest)) && line == field + ":" + rest
  }

  ghost predicate Says(line: string, field: string) {
    exists rest :: SaysBy(line, field, rest)
  }

  lemma {:induction false} NameTextIff(field: string)
    ensures NameText(field) <==> IsFieldName(field)
  {
  }

  /** The regular expression reads exactly the field that the line gives, and its text without the white space
      around it. */
  lemma {:induction false} EntryOfIff(line: string, field: string, rest: string)
    ensures SaysBy(line, field, rest) ==> EntryOf(line) == Some(Entry(field, Trim(rest)))
    ensures EntryOf(line).Some? && EntryOf(line).value.field == field && line == field + ":" + rest ==> SaysBy(line, field, rest)
    ensures EntryOf(line).Some? && EntryOf(line).value.field == field ==> line == field + ":" + line[|field| + 1..]
  {
    hide NoTerminator, Trim, TrimStart;
    if SaysBy(line, field, rest) {
      NameRunOf(field, ":" + rest);
      assert line == field + (":" + rest);
      assert line[|field| + 1..] == rest;
      TrimAfterSpace(rest);
    }
    if EntryOf(line).Some? && EntryOf(line).value.field == field {
      assert line == field + ":" + line[|field| + 1..];
      if line == field + ":" + rest {
        assert line[|field| + 1..] == rest;
      }
    }
  }

  lemma {:induction false} SaysIff(line: string, field: string)
    ensures Says(line, field) <==> EntryOf(line).Some? && EntryOf(line).value.field == field
  {
    hide EntryOf, SaysBy;
    if Says(line, field) {
      var rest :| SaysBy(line, field, rest);
      EntryOfIff(line, field, rest);
    }
    if EntryOf(line).Some? && EntryOf(line).value.field == field {
      EntryOfIff(line, field, "");
      EntryOfIff(line, field, line[|field| + 1..]);
    }
  }

  /** Line i is the last one to give the field, this text. */
  ghost predicate SaysLast(lines: seq<string>, i: int, field: string, rest: string) {
    0 <= i < |lines| && SaysBy(lines[i], field, rest) && forall j | i < j < |lines| :: !Says(lines[j], field)
  }

  ghost predicate SomeSays(lines: seq<string>, field: string) {
    exists i | 0 <= i < |lines| :: Says(lines[i], field)
  }

  /** The map has the fields that lines give, each with the text of its last line, trimmed. */
  ghost predicate FieldsFollow(lines: seq<string>, fields: map<string, string>) {
    && (forall field :: field in fields <==> SomeSays(lines, field))
    && (forall i, field, rest | SaysLast(lines, i, field, rest) :: field in fields && fields[field] == Trim(rest))
  }

  lemma {:induction false} SaysInit(lines: seq<string>, field: string)
    requires lines != []
    ensures SomeSays(lines, field) <==> SomeSays(lines[..|lines| - 1], field) || Says(lines[|lines| - 1], field)
  {
    hide Says;
    var init := lines[..|lines| - 1];
    if SomeSays(lines, field) {
      var i :| 0 <= i < |lines| && Says(lines[i], field);
      assert i < |init| ==> init[i] == lines[i];
    }
    if SomeSays(init, field) {
      var i :| 0 <= i < |init| && Says(init[i], field);
      assert lines[i] == init[i];
    }
  }

  lemma {:induction false} EntriesFollow(lines: seq<string>)
    ensures FieldsFollow(lines, LastWins(Entries(lines)))
  {
    hide EntryOf, SaysBy, Says, SomeSays, Trim;
    if lines == [] {
      NoEntries(lines);
    } else {
      var init, last := lines[..|lines| - 1], lines[|lines| - 1];
      EntriesFollow(init);
      var before, after := LastWins(Entries(init)), LastWins(Entries(lines));
      LastWinsMore(init, last);
      assert lines == init + [last];
      forall field ensures field in after <==> SomeSays(lines, field) {
        SaysInit(lines, field);
        SaysIff(last, field);
      }
      forall i, field, rest | SaysLast(lines, i, field, rest) ensures field in after && after[field] == Trim(rest) {
        SaysIff(last, field);
        if i == |init| {
          EntryOfIff(last, field, rest);
        } else {
          assert !Says(lines[|init|], field);
          SaysLastInit(lines, i, field, rest);
        }
      }
    }
  }

  lemma {:induction false} SaysLastInit(lines: seq<string>, i: int, field: string, rest: string)
    requires lines != [] && SaysLast(lines, i, field, rest) && i < |lines| - 1
    ensures SaysLast(lines[..|lines| - 1], i, field, rest)
  {
    hide SaysBy, Says;
    var init := lines[..|lines| - 1];
    assert forall j | 0 <= j < |init| :: init[j] == lines[j];
  }

  lemma NoEntries(lines: seq<string>)
    requires lines == []
    ensures FieldsFollow(lines, LastWins(Entries(lines)))
  {
  }

  lemma {:induction false} LastWinsMore(init: seq<string>, last: string)
    ensures LastWins(Entries(init + [last])) ==
            match EntryOf(last)
            case None => LastWins(Entries(init))
            case Some(e) => LastWins(Entries(init))[e.field := e.value]
  {
    hide EntryOf;
    EntriesConcat(init, [last]);
    assert [last][1..] == [];
    var more := match EntryOf(last) case None => [] case Some(e) => [e];
    assert Entries([last]) == more;
    if more != [] {
      assert (Entries(init) + more)[..|Entries(init)|] == Entries(init);
    } else {
      assert Entries(init) + more == Entries(init);
    }
  }

  /** `parsePhase7ProofRecord` and its copies: the last entry wins. */
  method ParseProofRecord(text: string) returns (fields: map<string, string>)
    ensures fields == LastWins(ParseRecordFields(text))
    ensures FieldsFollow(Split(text), fields)
  {
    hide EntryOf, Split, FieldsFollow, Trim;
    fields := map[];
    var lines := Split(text);
    for i := 0 to |lines|
      invariant fields == LastWins(Entries(lines[..i]))
    {
      assert lines[..i + 1] == lines[..i] + [lines[i]];
      EntriesConcat(lines[..i], [lines[i]]);
      var match' := EntryOf(lines[i]);
      assert Entries([lines[i]]) == match match' case None => [] case Some(e) => [e];
      if match'.Some? {
        var entry := match'.value;
        var all := Entries(lines[..i]) + [entry];
        assert all[..|all| - 1] == Entries(lines[..i]);
        fields := fields[entry.field := entry.value];
      } else {
        assert Entries(lines[..i]) + [] == Entries(lines[..i]);
      }
    }
    assert lines[..|lines|] == lines;
    EntriesFollow(lines);
  }

  // --- replacing a field -----------------------------------------------------------------------

  function Assignment(field: string, value: string): string {
    field + ": " + value
  }

  predicate Names(line: string, field: string) {
    EntryOf(line).Some? && EntryOf(line).value.field == field
  }

  predicate SomeLineNames(lines: seq<string>, field: string) {
    exists i | 0 <= i < |lines| :: Names(lines[i], field)
  }

  function MapLines(lines: seq<string>, field: string, value: string): (r: seq<string>)
    ensures |r| == |lines|
    ensures forall i | 0 <= i < |r| :: r[i] == if Names(lines[i], field) then Assignment(field, value) else lines[i]
  {
    if lines == [] then []
    else [if Names(lines[0], field) then Assignment(field, value) else lines[0]] + MapLines(lines[1..], field, value)
  }

  function ReplacedLines(lines: seq<string>, field: string, value: string): seq<string> {
    MapLines(lines, field, value) + if SomeLineNames(lines, field) then [] else [Assignment(field, value)]
  }

  function Replaced(text: string, field: string, value: string): string {
    Join(ReplacedLines(Split(text), field, value))
  }

  lemma {:induction false} OneMoreLine(lines: seq<string>, i: nat, field: string)
    requires i < |lines|
    ensures SomeLineNames(lines[..i + 1], field) <==> SomeLineNames(lines[..i], field) || Names(lines[i], field)
  {
    hide EntryOf;
    var more := lines[..i + 1];
    assert more[i] == lines[i];
    if SomeLineNames(lines[..i], field) {
      var j :| 0 <= j < i && Names(lines[..i][j], field);
      assert Names(more[j], field);
    }
    if j :| 0 <= j < |more| && Names(more[j], field) {
      assert j < i ==> Names(lines[..i][j], field);
    }
  }

  lemma {:induction false} NoLineNames(field: string)
    ensures !SomeLineNames([], field)
  {
  }

  /** Every line that gives the field becomes its assignment, and the others are kept; if no line gives it, the
      assignment is appended. */
  ghost predicate ReplacementFollows(lines: seq<string>, field: string, value: string, next: seq<string>) {
    && |lines| <= |next|
    && (forall i | 0 <= i < |lines| :: next[i] == if Says(lines[i], field) then field + ": " + value else lines[i])
    && (SomeSays(lines, field) ==> |next| == |lines|)
    && (!SomeSays(lines, field) ==> |next| == |lines| + 1 && next[|lines|] == field + ": " + value)
  }

  lemma {:induction false} ReplacedFollow(lines: seq<string>, field: string, value: string)
    ensures ReplacementFollows(lines, field, value, ReplacedLines(lines, field, value))
  {
    hide EntryOf, Says;
    forall i | 0 <= i < |lines| ensures Says(lines[i], field) <==> Names(lines[i], field) { SaysIff(lines[i], field); }
  }

  /** `replaceRecordField`. */
  method ReplaceRecordField(text: string, field: string, value: string) returns (r: string)
    ensures r == Replaced(text, field, value)
    ensures exists next :: ReplacementFollows(Split(text), field, value, next) && r == Join(next)
  {
    hide ReplacementFollows, EntryOf, Names, SomeLineNames, Split, Join, MapLines;
    var lines := Split(text);
    NoLineNames(field);
    assert lines[..0] == [];
    var replaced := false;
    var nextLines: seq<string> := [];
    for i := 0 to |lines|
      invariant |nextLines| == i
      invariant forall j | 0 <= j < i :: nextLines[j] == MapLines(lines, field, value)[j]
      invariant replaced <==> SomeLineNames(lines[..i], field)
    {
      OneMoreLine(lines, i, field);
      if Names(lines[i], field) {
        replaced := true;
        nextLines := nextLines + [Assignment(field, value)];
      } else {
        nextLines := nextLines + [lines[i]];
      }
    }
    assert lines[..|lines|] == lines;
    assert nextLines == MapLines(lines, field, value) == nextLines + [];
    if !replaced {
      nextLines := nextLines + [Assignment(field, value)];
    }
    ReplacedFollow(lines, field, value);
    r := Join(nextLines);
  }

  // --- what replacing does to the entries --------------------------------------------------------

  /** Every entry of the field takes the value; one is appended when there is none. */
  function Updated(entries: seq<Entry>, field: string, value: string): seq<Entry> {
    UpdatedInPlace(entries, field, value) +
    if FirstValue(entries, field).None? then [Entry(field, value)] else []
  }

  function UpdatedInPlace(entries: seq<Entry>, field: string, value: string): (r: seq<Entry>)
    ensures |r| == |entries|
    ensures forall i | 0 <= i < |r| :: r[i] == if entries[i].field == field then Entry(field, value) else entries[i]
  {
    if entries == [] then []
    else [if entries[0].field == field then Entry(field, value) else entries[0]]
         + UpdatedInPlace(entries[1..], field, value)
  }

  lemma {:induction false} NameRunOf(name: string, rest: string)
    requires forall i | 0 <= i < |name| :: IsNameChar(name[i])
    requires rest == "" || !IsNameChar(rest[0])
    ensures NameRun(name + rest) == |name|
  {
    if name == "" {
      assert name + rest == rest;
    } else {
      assert (name + rest)[1..] == name[1..] + rest;
      NameRunOf(name[1..], rest);
    }
  }

  lemma {:induction false} TrimAfterSpace(s: string)
    ensures TrimStart(" " + s) == TrimStart(s)
    ensures Trim(TrimStart(s)) == Trim(s)
  {
    assert (" " + s)[1..] == s;
    TrimStartIs(s);
  }

  lemma {:induction false} AssignmentEntry(field: string, value: string)
    requires IsFieldName(field) && NoTerminator(value)
    ensures EntryOf(Assignment(field, value)) == Some(Entry(field, Trim(value)))
  {
    hide Trim, TrimStart;
    var line := Assignment(field, value);
    assert line == field + (": " + value);
    NameRunOf(field, ": " + value);
    assert line[|field| + 1..] == " " + value;
    TrimAfterSpace(value);
    TrimStartIs(value);
    var v := TrimStart(value);
    assert forall i | 0 <= i < |v| :: v[i] == value[|value| - |v| + i];
  }

  lemma {:induction false} FirstValueNamed(lines: seq<string>, field: string)
    ensures FirstValue(Entries(lines), field).Some? <==> SomeLineNames(lines, field)
  {
    hide EntryOf;
    if lines != [] {
      FirstValueNamed(lines[1..], field);
      var head := match EntryOf(lines[0]) case None => [] case Some(e) => [e];
      assert Entries(lines)[|head|..] == Entries(lines[1..]);
      if SomeLineNames(lines, field) && !Names(lines[0], field) {
        var i :| 0 <= i < |lines| && Names(lines[i], field);
        assert lines[1..][i - 1] == lines[i];
      }
    }
  }

  lemma {:induction false} MappedEntries(lines: seq<string>, field: string, value: string)
    requires IsFieldName(field) && NoTerminator(value)
    ensures Entries(MapLines(lines, field, value)) == UpdatedInPlace(Entries(lines), field, Trim(value))
  {
    hide EntryOf;
    if lines != [] {
      MappedEntries(lines[1..], field, value);
      AssignmentEntry(field, value);
      var head := match EntryOf(lines[0]) case None => [] case Some(e) => [e];
      assert Entries(lines)[|head|..] == Entries(lines[1..]);
      assert MapLines(lines, field, value)[1..] == MapLines(lines[1..], field, value);
    }
  }

  /** The lines that replacing writes hold exactly the updated entries. */
  lemma {:induction false} ReplacedEntries(lines: seq<string>, field: string, value: string)
    requires IsFieldName(field) && NoTerminator(value)
    ensures Entries(ReplacedLines(lines, field, value)) == Updated(Entries(lines), field, Trim(value))
  {
    hide EntryOf;
    var assignment := Assignment(field, value);
    MappedEntries(lines, field, value);
    FirstValueNamed(lines, field);
    AssignmentEntry(field, value);
    if !SomeLineNames(lines, field) {
      EntriesConcat(MapLines(lines, field, value), [assignment]);
      assert Entries([assignment]) == [Entry(field, Trim(value))];
    } else {
      assert MapLines(lines, field, value) + [] == MapLines(lines, field, value);
    }
  }

  // --- reading the rewritten text back -----------------------------------------------------------

  /** Joining these lines shows an entry that a stray carriage return hid. */
  predicate RevealsEntry(lines: seq<string>) {
    exists i | 0 <= i < |lines| - 1 :: EntryOf(lines[i]).None? && EntryOf(DropCr(lines[i])).Some?
  }

  lemma {:induction false} DropCrKeepsEntry(line: string)
    requires EntryOf(line).Some?
    ensures EntryOf(DropCr(line)) == EntryOf(line)
  {
    hide TrimStart;
    if EndsWithCr(line) {
      var k := NameRun(line);
      assert line[|line| - 1] == '\r' && line[k] == ':';
      CrOnlyInBlankValue(line[k + 1..]);
      DropLast(line, k);
      var short := DropCr(line);
      NameRunOf(line[..k], short[k..]);
      TrimStartOfSpace(short[k + 1..]);
    }
  }

  lemma {:induction false} DropLast(s: string, k: nat)
    requires k + 1 < |s|
    ensures var short := s[..|s| - 1];
            && short[..k] == s[..k] && short[k] == s[k]
            && short[k + 1..] == s[k + 1..][..|s| - k - 2]
            && short == s[..k] + short[k..]
  {
  }

  /** A value that ends with a carriage return matches only when it is white space throughout. */
  lemma {:induction false} CrOnlyInBlankValue(rest: string)
    requires rest != "" && rest[|rest| - 1] == '\r' && NoTerminator(TrimStart(rest))
    ensures AllSpace(rest) && TrimStart(rest) == ""
  {
    TrimStartIs(rest);
    var v := TrimStart(rest);
    assert rest[..|rest|] == rest;
  }

  lemma {:induction false} TrimStartOfSpace(s: string)
    requires AllSpace(s)
    ensures TrimStart(s) == ""
  {
    if s != "" { TrimStartOfSpace(s[1..]); }
  }

  lemma {:induction false} ResplitEntries(lines: seq<string>)
    requires lines != []
    ensures |Entries(Resplit(lines))| >= |Entries(lines)|
    ensures RevealsEntry(lines) ==> |Entries(Resplit(lines))| > |Entries(lines)|
    ensures !RevealsEntry(lines) ==> Entries(Resplit(lines)) == Entries(lines)
  {
    hide EntryOf;
    if |lines| > 1 {
      var tail := lines[1..];
      ResplitEntries(tail);
      assert forall i | 0 <= i < |tail| :: tail[i] == lines[i + 1];
      if RevealsEntry(lines) && !(EntryOf(lines[0]).None? && EntryOf(DropCr(lines[0])).Some?) {
        var i :| 0 <= i < |lines| - 1 && EntryOf(lines[i]).None? && EntryOf(DropCr(lines[i])).Some?;
        assert tail[i - 1] == lines[i];
        assert RevealsEntry(tail);
      }
      if EntryOf(lines[0]).Some? { DropCrKeepsEntry(lines[0]); }
    }
  }

  lemma {:induction false} ReplacedAreLines(text: string, field: string, value: string)
    requires IsFieldName(field) && NoTerminator(value)
    ensures var lines := ReplacedLines(Split(text), field, value); lines != [] && AllLines(lines)
    ensures IsLine(Assignment(field, value)) && !EndsWithCr(Assignment(field, value))
  {
    hide EntryOf;
    SplitIsLines(text);
    var a := Assignment(field, value);
    assert forall i | 0 <= i < |a| :: a[i] == (if i < |field| then field[i] else if i < |field| + 2 then ": "[i - |field|] else value[i - |field| - 2]);
  }

  /** Line i is not the last line of the rewritten text. */
  predicate Followed(lines: seq<string>, field: string, i: nat) {
    i < |lines| - 1 || !SomeLineNames(lines, field)
  }

  /** Some line holds no entry as it stands, but does without its final carriage return. */
  predicate HidesEntry(lines: seq<string>, field: string) {
    exists i | 0 <= i < |lines| :: Followed(lines, field, i) && EntryOf(lines[i]).None? && EntryOf(DropCr(lines[i])).Some?
  }

  /** Some line that does not name the field ends with a carriage return. */
  predicate EndsInStrayCr(lines: seq<string>, field: string) {
    exists i | 0 <= i < |lines| :: Followed(lines, field, i) && !Names(lines[i], field) && EndsWithCr(lines[i])
  }

  lemma {:induction false} RevealsIffHides(text: string, field: string, value: string)
    requires IsFieldName(field) && NoTerminator(value)
    ensures RevealsEntry(ReplacedLines(Split(text), field, value)) <==> HidesEntry(Split(text), field)
  {
    hide EntryOf, Split;
    var lines, replaced := Split(text), ReplacedLines(Split(text), field, value);
    AssignmentEntry(field, value);
    forall i | 0 <= i < |lines| && Names(lines[i], field) ensures EntryOf(replaced[i]).Some? {}
    if RevealsEntry(replaced) {
      var i :| 0 <= i < |replaced| - 1 && EntryOf(replaced[i]).None? && EntryOf(DropCr(replaced[i])).Some?;
      assert Followed(lines, field, i) && lines[i] == replaced[i];
    }
    if HidesEntry(lines, field) {
      var i :| 0 <= i < |lines| && Followed(lines, field, i) && EntryOf(lines[i]).None? && EntryOf(DropCr(lines[i])).Some?;
      assert i < |replaced| - 1 && replaced[i] == lines[i];
    }
  }

  lemma {:induction false} StableIffNoStrayCr(text: string, field: string, value: string)
    requires IsFieldName(field) && NoTerminator(value)
    ensures Stable(ReplacedLines(Split(text), field, value)) <==> !EndsInStrayCr(Split(text), field)
  {
    hide EntryOf, Split, EndsWithCr, Names;
    var lines, replaced := Split(text), ReplacedLines(Split(text), field, value);
    ReplacedAreLines(text, field, value);
    if !Stable(replaced) {
      var i :| 0 <= i < |replaced| - 1 && EndsWithCr(replaced[i]);
      assert Followed(lines, field, i) && lines[i] == replaced[i] && !Names(lines[i], field);
    }
    if EndsInStrayCr(lines, field) {
      var i :| 0 <= i < |lines| && Followed(lines, field, i) && !Names(lines[i], field) && EndsWithCr(lines[i]);
      assert i < |replaced| - 1 && replaced[i] == lines[i];
    }
  }

  /** Reading the rewritten text gives the original entries with the field updated if and only if no line
      that the rewriting keeps ahead of another hides an entry behind a stray carriage return. */
  lemma {:induction false} ReparseIff(text: string, field: string, value: string)
    requires IsFieldName(field) && NoTerminator(value)
    ensures ParseRecordFields(Replaced(text, field, value)) ==
            Updated(ParseRecordFields(text), field, Trim(value))
       <==> !HidesEntry(Split(text), field)
  {
    hide EntryOf, Split, Names, HidesEntry, RevealsEntry, ReplacedLines, Updated;
    RevealsIffHides(text, field, value);
    var lines := ReplacedLines(Split(text), field, value);
    ReplacedAreLines(text, field, value);
    ReplacedEntries(Split(text), field, value);
    SplitJoin(lines);
    ResplitEntries(lines);
  }

  /** What the second rewriting makes of the lines of the first. */
  lemma {:induction false} TwiceLines(text: string, field: string, value: string)
    requires IsFieldName(field) && NoTerminator(value)
    ensures var lines := ReplacedLines(Split(text), field, value);
            && lines != []
            && var twice := ReplacedLines(Resplit(lines), field, value);
            && |twice| == |lines|
            && forall i | 0 <= i < |lines| :: twice[i] == lines[i] <==> i == |lines| - 1 || !EndsWithCr(lines[i])
  {
    hide EntryOf, Split, Names, SomeLineNames, Resplit, AllLines, Assignment, NoTerminator, IsFieldName;
    var before := Split(text);
    var lines := ReplacedLines(before, field, value);
    var assignment := Assignment(field, value);
    ReplacedAreLines(text, field, value);
    ResplitAt(lines);
    AssignmentNames(field, value);
    AssignmentSurvives(text, field, value);
    var twice := ReplacedLines(Resplit(lines), field, value);
    assert twice == MapLines(Resplit(lines), field, value);
    forall i | 0 <= i < |lines|
      ensures twice[i] == lines[i] <==> i == |lines| - 1 || !EndsWithCr(lines[i])
    {
      assert Names(lines[i], field) ==> lines[i] == assignment;
      if i < |lines| - 1 && EndsWithCr(lines[i]) {
        assert twice[i] == assignment || |twice[i]| < |lines[i]|;
      } else {
        assert Resplit(lines)[i] == lines[i];
      }
    }
  }

  lemma {:induction false} AssignmentNames(field: string, value: string)
    requires IsFieldName(field) && NoTerminator(value)
    ensures Names(Assignment(field, value), field)
  {
    hide EntryOf;
    AssignmentEntry(field, value);
  }

  /** Rewriting twice is rewriting once if and only if no line that the rewriting keeps ahead of another
      ends with a carriage return. */
  lemma {:induction false} IdempotentIff(text: string, field: string, value: string)
    requires IsFieldName(field) && NoTerminator(value)
    ensures Replaced(Replaced(text, field, value), field, value) == Replaced(text, field, value)
       <==> !EndsInStrayCr(Split(text), field)
  {
    hide EntryOf, Names, Split, ReplacedLines, EndsInStrayCr;
    StableIffNoStrayCr(text, field, value);
    var lines := ReplacedLines(Split(text), field, value);
    ReplacedAreLines(text, field, value);
    SplitJoin(lines);
    TwiceLines(text, field, value);
    var twice := ReplacedLines(Resplit(lines), field, value);
    if Join(twice) == Join(lines) {
      ReplacedAreLines(Join(lines), field, value);
      JoinInjective(twice, lines);
    }
    if Stable(lines) {
      assert twice == lines;
    }
  }

  lemma {:induction false} AssignmentSurvives(text: string, field: string, value: string)
    requires IsFieldName(field) && NoTerminator(value)
    ensures var lines := ReplacedLines(Split(text), field, value);
            lines != [] && SomeLineNames(Resplit(lines), field)
  {
    hide EntryOf, Split;
    var before := Split(text);
    var lines := ReplacedLines(before, field, value);
    ReplacedAreLines(text, field, value);
    AssignmentEntry(field, value);
    ResplitAt(lines);
    if SomeLineNames(before, field) {
      var i :| 0 <= i < |before| && Names(before[i], field);
      assert lines[i] == Assignment(field, value);
      assert Names(Resplit(lines)[i], field);
    } else {
      assert lines[|lines| - 1] == Assignment(field, value);
      assert Names(Resplit(lines)[|lines| - 1], field);
    }
  }

  /** A text whose carriage returns all belong to single CRLFs meets both conditions. */
  lemma {:induction false} WithoutStrayCr(text: string, field: string, value: string)
    requires IsFieldName(field) && NoTerminator(value) && !StrayCr(text)
    ensures !EndsInStrayCr(Split(text), field) && !HidesEntry(Split(text), field)
  {
    hide EntryOf, Names;
    SplitWithoutStrayCr(text);
  }

  /** Both conditions fail on `\r\r\n`: the first rewriting turns a line that held no entry into one,
      and the second rewrites it. */
  lemma {:induction false} DoubleCrBreaksRewriting()
    ensures var once := Replaced("ab: 1\r\r\nz: 2", "ab", "3");
            && Replaced(once, "ab", "3") != once
            && ParseRecordFields(once) != Updated(ParseRecordFields("ab: 1\r\r\nz: 2"), "ab", "3")
  {
    hide EntryOf, Split, Replaced, ParseRecordFields, Updated, IsFieldName, Trim, EndsWithCr, DropCr;
    FieldNameAb();
    var text := "ab: 1\r\r\nz: 2";
    SplitDoubleCr();
    CrValueIsNoEntry();
    AssignmentEntry("ab", "1");
    var lines := Split(text);
    assert Followed(lines, "ab", 0) && lines[0] == "ab: 1\r";
    IdempotentIff(text, "ab", "3");
    ReparseIff(text, "ab", "3");
    TrimOfTrimmed("3");
  }

  lemma {:induction false} FieldNameAb()
    ensures IsFieldName("ab") && NoTerminator("3") && NoTerminator("1")
    ensures EndsWithCr("ab: 1\r") && DropCr("ab: 1\r") == Assignment("ab", "1")
  {
  }

  lemma {:induction false} SplitDoubleCr()
    ensures Split("ab: 1\r\r\nz: 2") == ["ab: 1\r", "z: 2"]
  {
    hide Split;
    SplitAtFeed("ab: 1\r\r", "z: 2");
    SplitLine("z: 2");
    assert "ab: 1\r\r" + "\n" + "z: 2" == "ab: 1\r\r\nz: 2";
    assert DropCr("ab: 1\r\r") == "ab: 1\r";
  }

  lemma {:induction false} CrValueIsNoEntry()
    ensures EntryOf("ab: 1\r").None?
  {
    var line := "ab: 1\r";
    NameRunOf("ab", ": 1\r");
    assert line == "ab" + ": 1\r";
    assert line[3..] == " " + "1\r";
    TrimAfterSpace("1\r");
    assert TrimStart("1\r")[1] == '\r';
  }

  // --- first-wins and last-wins readers ------------------------------------------------------------

  lemma {:induction false} LastWinsIs(entries: seq<Entry>, field: string, value: string)
    requires forall i | 0 <= i < |entries| && entries[i].field == field :: entries[i].value == value
    ensures FirstValue(entries, field).Some? <==> field in LastWins(entries)
    ensures field in LastWins(entries) ==> LastWins(entries)[field] == value
    ensures FirstValue(entries, field).Some? ==> FirstValue(entries, field).value == value
  {
    if entries != [] {
      var init := entries[..|entries| - 1];
      LastWinsIs(init, field, value);
      FirstValueAppend(init, entries[|entries| - 1], field);
      assert init + [entries[|entries| - 1]] == entries;
    }
  }

  lemma {:induction false} FirstValueAppend(entries: seq<Entry>, e: Entry, field: string)
    ensures FirstValue(entries + [e], field) ==
            if FirstValue(entries, field).Some? then FirstValue(entries, field)
            else if e.field == field then Some(e.value) else None
  {
    if entries != [] {
      assert (entries + [e])[1..] == entries[1..] + [e];
      FirstValueAppend(entries[1..], e, field);
    }
  }

  lemma {:induction false} FirstValueUpdated(entries: seq<Entry>, field: string, value: string)
    ensures FirstValue(UpdatedInPlace(entries, field, value), field).Some? <==> FirstValue(entries, field).Some?
  {
    if entries != [] {
      assert UpdatedInPlace(entries, field, value)[1..] == UpdatedInPlace(entries[1..], field, value);
      FirstValueUpdated(entries[1..], field, value);
    }
  }

  /** After an update, the readers that take the first and the last entry of the field agree. */
  lemma {:induction false} ReadersAgree(entries: seq<Entry>, field: string, value: string)
    ensures FirstValue(Updated(entries, field, value), field) == Some(value)
    ensures field in LastWins(Updated(entries, field, value))
    ensures LastWins(Updated(entries, field, value))[field] == value
  {
    FirstValueUpdated(entries, field, value);
    if FirstValue(entries, field).None? {
      FirstValueAppend(UpdatedInPlace(entries, field, value), Entry(field, value), field);
    } else {
      assert UpdatedInPlace(entries, field, value) + [] == UpdatedInPlace(entries, field, value);
    }
    LastWinsIs(Updated(entries, field, value), field, value);
  }
}
