/** Command transcripts: the text the recorder prints and the blocks the checker cuts out of it. */
module Transcript {
  import opened Text
  import opened Lines
  import Json

  // --- recognising a command line --------------------------------------------------------------------

  /** `command.replace(/\s+/gu, " ")`: of each run of white space, its last character gives a blank. */
  function Collapse(s: string): string {
    if s == "" then "" else Kept(s) + Collapse(s[1..])
  }

  function Kept(s: string): string
    requires s != ""
  {
    if !IsSpace(s[0]) then [s[0]] else if |s| > 1 && IsSpace(s[1]) then "" else " "
  }

  /** `normalizeCommandText`. */
  function Normalize(command: string): string {
    Trim(Collapse(command))
  }

  function FirstIndex(s: string, c: char): (k: nat)
    ensures k <= |s| && forall i | 0 <= i < k :: s[i] != c
    ensures k == |s| || s[k] == c
  {
    if s == "" || s[0] == c then 0 else 1 + FirstIndex(s[1..], c)
  }

  /** `stripCommandPrompt` on a trimmed line: a `$ ` prompt, or `PS`, white space, a path, `>`. */
  function StripPrompt(line: string): string {
    if "$ " <= line then line[2..]
    else if |line| > 2 && line[..2] == "PS" && IsSpace(line[2]) then
      var g := FirstIndex(line, '>');
      if g < 4 || g == |line| then line
      else
        var command := TrimStart(line[g + 1..]);
        if command != "" && NoTerminator(command) then command else line
    else line
  }

  /** `isCommandEvidenceLine`. */
  predicate IsCommandEvidence(line: string) {
    || "corepack " <= line || "git " <= line || "pnpm " <= line || "npm " <= line || "node " <= line
    || "SPLIT402_" <= line || "$env:SPLIT402_" <= line
  }

  /** The normalised command of a line that shows one. */
  function CommandOf(line: string): Option<string> {
    var command := Normalize(StripPrompt(Trim(line)));
    if command != "" && IsCommandEvidence(command) then Some(command) else None
  }

  datatype Block = Block(command: string, outputLines: seq<string>)

  function AddLine(blocks: seq<Block>, line: string): seq<Block> {
    match CommandOf(line)
    case Some(command) => blocks + [Block(command, [])]
    case None =>
      if blocks == [] || Trim(line) == "" then blocks
      else
        var last := blocks[|blocks| - 1];
        blocks[..|blocks| - 1] + [Block(last.command, last.outputLines + [line])]
  }

  function AddLines(blocks: seq<Block>, lines: seq<string>): seq<Block>
    decreases |lines|
  {
    if lines == [] then blocks else AddLines(AddLine(blocks, lines[0]), lines[1..])
  }

  /** Which lines show a command. */
  function CommandLines(lines: seq<string>): (r: seq<bool>)
    ensures |r| == |lines| && forall i | 0 <= i < |r| :: r[i] == CommandOf(lines[i]).Some?
  {
    seq(|lines|, i requires 0 <= i < |lines| => CommandOf(lines[i]).Some?)
  }

  /** Which lines are not all white space. */
  function Inked(lines: seq<string>): (r: seq<bool>)
    ensures |r| == |lines| && forall i | 0 <= i < |r| :: r[i] == !AllSpace(lines[i])
  {
    seq(|lines|, i requires 0 <= i < |lines| => !AllSpace(lines[i]))
  }

  ghost predicate OutputFollowsBy(lines: seq<string>, output: seq<string>, at: seq<nat>) {
    Picks(at, Inked(lines)) && |at| == |output| && forall k | 0 <= k < |at| :: output[k] == lines[at[k]]
  }

  /** The output is the lines that are not all white space, in order. */
  ghost predicate OutputFollows(lines: seq<string>, output: seq<string>) {
    exists at :: OutputFollowsBy(lines, output, at)
  }

  /** The block of the command that line `from` shows, over the lines up to `to`. */
  ghost predicate BlockFollows(lines: seq<string>, from: int, to: int, block: Block) {
    && 0 <= from < to <= |lines|
    && CommandOf(lines[from]) == Some(block.command)
    && OutputFollows(lines[from + 1..to], block.outputLines)
  }

  ghost predicate BlocksFollowBy(lines: seq<string>, blocks: seq<Block>, at: seq<nat>) {
    && Picks(at, CommandLines(lines)) && |at| == |blocks|
    && forall k | 0 <= k < |at| :: BlockFollows(lines, at[k], Next(at, |lines|, k), blocks[k])
  }

  /** Where the block that starts at at[k] ends. */
  function Next(at: seq<nat>, end: nat, k: nat): nat {
    if k + 1 < |at| then at[k + 1] else end
  }

  /** One block for each line that shows a command, in order, each over the lines up to the next one. */
  ghost predicate BlocksFollow(lines: seq<string>, blocks: seq<Block>) {
    exists at :: BlocksFollowBy(lines, blocks, at)
  }

  lemma {:induction false} OutputMore(lines: seq<string>, output: seq<string>, line: string)
    requires OutputFollows(lines, output)
    ensures OutputFollows(lines + [line], if AllSpace(line) then output else output + [line])
  {
    hide OutputFollowsBy, AllSpace;
    var at :| OutputFollowsBy(lines, output, at);
    OutputMoreBy(lines, output, line, at);
  }

  lemma {:induction false} OutputMoreBy(lines: seq<string>, output: seq<string>, line: string, at: seq<nat>)
    requires OutputFollowsBy(lines, output, at)
    ensures OutputFollowsBy(lines + [line], if AllSpace(line) then output else output + [line],
                            if AllSpace(line) then at else at + [|lines|])
  {
    hide Picks, AllSpace;
    PicksAre(at, Inked(lines));
    PicksAppend(at, Inked(lines), !AllSpace(line));
    assert Inked(lines + [line]) == Inked(lines) + [!AllSpace(line)];
  }

  lemma NoOutput()
    ensures OutputFollows([], [])
  {
    NothingPicked(Inked([]));
    assert OutputFollowsBy([], [], []);
  }

  lemma {:induction false} BlockBelow(lines: seq<string>, line: string, from: int, to: int, block: Block)
    requires BlockFollows(lines, from, to, block)
    ensures BlockFollows(lines + [line], from, to, block)
  {
    hide CommandOf, OutputFollows;
    assert (lines + [line])[from + 1..to] == lines[from + 1..to];
  }

  lemma {:induction false} BlockMore(lines: seq<string>, line: string, from: int, block: Block)
    requires BlockFollows(lines, from, |lines|, block)
    ensures BlockFollows(lines + [line], from, |lines| + 1,
                         if AllSpace(line) then block else Block(block.command, block.outputLines + [line]))
  {
    hide CommandOf, OutputFollows;
    assert lines[from + 1..|lines|] == lines[from + 1..];
    OutputMore(lines[from + 1..], block.outputLines, line);
    assert (lines + [line])[from + 1..|lines| + 1] == lines[from + 1..] + [line];
  }

  lemma {:induction false} CommandMore(lines: seq<string>, blocks: seq<Block>, at: seq<nat>, line: string)
    requires BlocksFollowBy(lines, blocks, at) && CommandOf(line).Some?
    ensures BlocksFollowBy(lines + [line], blocks + [Block(CommandOf(line).value, [])], at + [|lines|])
  {
    hide CommandOf, BlockFollows, Picks;
    PicksAppend(at, CommandLines(lines), true);
    assert CommandLines(lines + [line]) == CommandLines(lines) + [true];
    var more, all := at + [|lines|], blocks + [Block(CommandOf(line).value, [])];
    forall k | 0 <= k < |more|
      ensures BlockFollows(lines + [line], more[k], Next(more, |lines| + 1, k), all[k])
    {
      if k < |at| {
        BlockBelow(lines, line, at[k], Next(at, |lines|, k), blocks[k]);
        assert Next(more, |lines| + 1, k) == Next(at, |lines|, k);
      } else {
        NewBlock(lines, line);
      }
    }
  }

  lemma {:induction false} NewBlock(lines: seq<string>, line: string)
    requires CommandOf(line).Some?
    ensures BlockFollows(lines + [line], |lines|, |lines| + 1, Block(CommandOf(line).value, []))
  {
    hide CommandOf, OutputFollows;
    NoOutput();
    assert (lines + [line])[|lines| + 1..|lines| + 1] == [];
  }

  lemma {:induction false} QuietMore(lines: seq<string>, blocks: seq<Block>, at: seq<nat>, line: string)
    requires BlocksFollowBy(lines, blocks, at) && CommandOf(line).None?
    ensures BlocksFollowBy(lines + [line], AddLine(blocks, line), at)
  {
    hide CommandOf, BlockFollows, Picks, AllSpace, Trim;
    PicksAppend(at, CommandLines(lines), false);
    assert CommandLines(lines + [line]) == CommandLines(lines) + [false];
    TrimIsTrimmed(line);
    forall k | 0 <= k < |at|
      ensures BlockFollows(lines + [line], at[k], Next(at, |lines| + 1, k), AddLine(blocks, line)[k])
    {
      if k + 1 < |at| {
        BlockBelow(lines, line, at[k], at[k + 1], blocks[k]);
      } else {
        BlockMore(lines, line, at[k], blocks[k]);
      }
    }
  }

  lemma {:induction false} ExtractedFollow(lines: seq<string>)
    ensures BlocksFollow(lines, AddLines([], lines))
    decreases |lines|
  {
    hide CommandOf, AddLines, BlocksFollowBy, AddLine;
    if lines == [] {
      NothingToAdd([]);
      NoBlocks();
    } else {
      var init, last := lines[..|lines| - 1], lines[|lines| - 1];
      assert lines == init + [last];
      ExtractedFollow(init);
      var blocks := AddLines([], init);
      var at :| BlocksFollowBy(init, blocks, at);
      AddLinesConcat([], init, [last]);
      OneLineAdded(blocks, last);
      if CommandOf(last).Some? { CommandMore(init, blocks, at, last); } else { QuietMore(init, blocks, at, last); }
    }
  }

  lemma OneLineAdded(blocks: seq<Block>, line: string)
    ensures AddLines(blocks, [line]) == AddLine(blocks, line)
    ensures CommandOf(line).Some? ==> AddLine(blocks, line) == blocks + [Block(CommandOf(line).value, [])]
  {
    hide CommandOf;
    assert [line][1..] == [];
  }

  lemma NoBlocks()
    ensures BlocksFollowBy([], [], [])
  {
    NothingPicked(CommandLines([]));
  }

  /** `extractCommandEvidenceBlocks`. */
  method ExtractBlocks(text: string) returns (blocks: seq<Block>)
    ensures blocks == AddLines([], Split(text))
    ensures BlocksFollow(Split(text), blocks)
  {
    hide CommandOf, Split, BlocksFollow;
    blocks := [];
    var lines := Split(text);
    ExtractedFollow(lines);
    for i := 0 to |lines|
      invariant AddLines(blocks, lines[i..]) == AddLines([], lines)
    {
      assert lines[i..][0] == lines[i] && lines[i..][1..] == lines[i + 1..];
      var rawLine := lines[i];
      var command := CommandOf(rawLine);
      if command.Some? {
        blocks := blocks + [Block(command.value, [])];
        continue;
      }
      if blocks != [] && Trim(rawLine) != "" {
        var current := blocks[|blocks| - 1];
        blocks := blocks[..|blocks| - 1] + [Block(current.command, current.outputLines + [rawLine])];
      }
    }
  }

  function Commands(lines: seq<string>): (r: seq<string>)
    ensures forall i | 0 <= i < |lines| :: CommandOf(lines[i]).Some? ==> CommandOf(lines[i]).value in r
  {
    if lines == [] then []
    else (match CommandOf(lines[0]) case None => [] case Some(c) => [c]) + Commands(lines[1..])
  }

  // --- printing a command and its output ---------------------------------------------------------------

  datatype RunResult = RunResult(exitCode: int, stdout: string, stderr: string)

  /** In pieces, because the verifier does not look up the characters far into a long literal. */
  const ACCEPTED: string := " (accepted: " + "expected " + "Phase 7 " + "no-go status)"

  function ExitLine(exitCode: int, acceptable: bool): string {
    if exitCode == 0 then "" else "# exit_code: " + Json.IntText(exitCode) + if acceptable then ACCEPTED else ""
  }

  function NonEmpty(parts: seq<string>): seq<string> {
    if parts == [] then [] else (if parts[0] == "" then [] else [parts[0]]) + NonEmpty(parts[1..])
  }

  /** What `formatCommandBlock` prints after the command line, with `redact` for the redaction. */
  function Outputs(result: RunResult, acceptable: bool, redact: string -> string): seq<string> {
    NonEmpty([TrimEnd(redact(result.stdout)), TrimEnd(redact(result.stderr)), ExitLine(result.exitCode, acceptable), ""])
  }

  /** `formatCommandBlock`. */
  function FormatBlock(command: string, result: RunResult, acceptable: bool, redact: string -> string): string {
    Join(["$ " + command] + Outputs(result, acceptable, redact))
  }

  // --- splitting what was joined -----------------------------------------------------------------------

  function SplitAll(parts: seq<string>): seq<string> {
    if parts == [] then [] else Split(parts[0]) + SplitAll(parts[1..])
  }

  predicate NoFinalCr(parts: seq<string>) {
    forall i | 0 <= i < |parts| :: !EndsWithCr(parts[i])
  }

  /** Splitting joined parts splits each of them, when none ends with a carriage return. */
  lemma {:induction false} SplitJoinedParts(parts: seq<string>)
    requires parts != [] && NoFinalCr(parts)
    ensures Split(Join(parts)) == SplitAll(parts)
    ensures !EndsWithCr(Join(parts))
  {
    hide Split;
    if |parts| == 1 {
      assert SplitAll(parts[1..]) == [];
      assert Split(parts[0]) + [] == Split(parts[0]);
    } else {
      SplitJoinedParts(parts[1..]);
      SplitAtFeed(parts[0], Join(parts[1..]));
    }
  }

  // --- quiet lines and blank lines -----------------------------------------------------------------------

  predicate Quiet(lines: seq<string>) {
    forall i | 0 <= i < |lines| :: CommandOf(lines[i]).None?
  }

  function NonBlank(lines: seq<string>): seq<string> {
    if lines == [] then [] else (if Trim(lines[0]) == "" then [] else [lines[0]]) + NonBlank(lines[1..])
  }

  lemma {:induction false} NonBlankConcat(a: seq<string>, b: seq<string>)
    ensures NonBlank(a + b) == NonBlank(a) + NonBlank(b)
  {
    if a == [] {
      assert a + b == b;
    } else {
      assert (a + b)[1..] == a[1..] + b;
      NonBlankConcat(a[1..], b);
    }
  }

  lemma {:induction false} AddLinesConcat(blocks: seq<Block>, a: seq<string>, b: seq<string>)
    ensures AddLines(blocks, a + b) == AddLines(AddLines(blocks, a), b)
    decreases |a|
  {
    hide CommandOf;
    if a == [] {
      assert a + b == b;
    } else {
      assert (a + b)[1..] == a[1..] + b;
      AddLinesConcat(AddLine(blocks, a[0]), a[1..], b);
    }
  }

  /** Quiet lines before the first command are dropped. */
  lemma {:induction false} QuietBefore(lines: seq<string>)
    requires Quiet(lines)
    ensures AddLines([], lines) == []
  {
    hide CommandOf;
    if lines != [] {
      QuietBefore(lines[1..]);
    }
  }

  lemma {:induction false} AddQuiet(blocks: seq<Block>, command: string, seen: seq<string>, line: string)
    requires CommandOf(line).None?
    ensures AddLine(blocks + [Block(command, seen)], line) == blocks + [Block(command, seen + NonBlank([line]))]
  {
    hide CommandOf, Trim;
    var all := blocks + [Block(command, seen)];
    assert all[..|all| - 1] == blocks && all[|all| - 1] == Block(command, seen);
    assert [line][1..] == [] && NonBlank([]) == [];
    assert NonBlank([line]) == if Trim(line) == "" then [] else [line];
    assert seen + [] == seen;
  }

  /** Quiet lines after a command are its output, without the blank ones. */
  lemma {:induction false} QuietAfter(blocks: seq<Block>, command: string, seen: seq<string>, lines: seq<string>)
    requires Quiet(lines)
    ensures AddLines(blocks + [Block(command, seen)], lines) == blocks + [Block(command, seen + NonBlank(lines))]
    decreases |lines|
  {
    hide CommandOf, Trim, AddLine;
    if lines == [] {
      assert seen + [] == seen;
    } else {
      var next := seen + NonBlank([lines[0]]);
      AddQuiet(blocks, command, seen, lines[0]);
      QuietAfter(blocks, command, next, lines[1..]);
      NonBlankConcat([lines[0]], lines[1..]);
      assert [lines[0]] + lines[1..] == lines;
      assert next + NonBlank(lines[1..]) == seen + NonBlank(lines);
    }
  }

  /** A line that starts with `#` shows no command. */
  lemma {:induction false} CommentIsQuiet(line: string)
    requires line != "" && line[0] == '#'
    ensures CommandOf(line).None?
  {
    hide Collapse, Trim, StripPrompt, IsCommandEvidence;
    var t := Trim(line);
    TrimKeepsFirst(line);
    HashIsNoCommand(t);
    CollapseFirst(t);
    TrimKeepsFirst(Collapse(t));
    HashIsNoCommand(Normalize(t));
  }

  lemma {:induction false} HashIsNoCommand(t: string)
    requires t != "" && t[0] == '#'
    ensures StripPrompt(t) == t && !IsCommandEvidence(t)
  {
    assert |t| >= 2 ==> t[..2][0] == '#';
  }

  lemma {:induction false} TrimKeepsFirst(s: string)
    requires s != "" && !IsSpace(s[0])
    ensures Trim(s) != "" && Trim(s)[0] == s[0]
  {
    assert TrimStart(s) == s;
    TrimEndIs(s);
    assert s[0..] == s;
  }

  lemma {:induction false} CollapseFirst(s: string)
    requires s != "" && !IsSpace(s[0])
    ensures Collapse(s) != "" && Collapse(s)[0] == s[0]
  {
  }

  lemma {:induction false} BlankIsQuiet()
    ensures CommandOf("").None?
  {
  }

  // --- reading a printed transcript back -----------------------------------------------------------------

  /** One command of a recording: its text and what was printed below it. */
  datatype Printed = Printed(command: string, outputs: seq<string>)

  function BlockText(p: Printed): string {
    Join(["$ " + p.command] + p.outputs)
  }

  function BlockTexts(recorded: seq<Printed>): seq<string> {
    if recorded == [] then [] else [BlockText(recorded[0])] + BlockTexts(recorded[1..])
  }

  /** The recorder's text: header lines and blocks, joined and closed by a line feed. */
  function TranscriptText(header: seq<string>, recorded: seq<Printed>): string {
    Join(header + BlockTexts(recorded)) + "\n"
  }

  /** The blocks that the recording stands for. */
  function Expected(recorded: seq<Printed>): seq<Block> {
    if recorded == [] then []
    else [Block(Normalize(recorded[0].command), NonBlank(SplitAll(recorded[0].outputs)))] + Expected(recorded[1..])
  }

  /** A single-line command. */
  predicate IsSplittable(p: Printed) {
    IsLine(p.command) && !EndsWithCr(p.command) && NoFinalCr(p.outputs)
  }

  /** A single-line command that the checker recognises, over output none of whose lines is one. */
  predicate Readable(p: Printed) {
    && IsSplittable(p)
    && CommandOf("$ " + p.command) == Some(Normalize(p.command))
    && Quiet(SplitAll(p.outputs))
  }

  lemma {:induction false} SplitBlock(p: Printed)
    requires IsSplittable(p)
    ensures Split(BlockText(p)) == ["$ " + p.command] + SplitAll(p.outputs)
    ensures !EndsWithCr(BlockText(p))
  {
    hide Split;
    var line := "$ " + p.command;
    var parts := [line] + p.outputs;
    assert parts[1..] == p.outputs;
    SplitJoinedParts(parts);
    SplitLine(line);
  }

  lemma {:induction false} BlocksHaveNoFinalCr(recorded: seq<Printed>)
    requires forall p <- recorded :: IsSplittable(p)
    ensures NoFinalCr(BlockTexts(recorded))
  {
    hide CommandOf, Normalize, BlockText, Quiet;
    if recorded != [] {
      assert recorded[0] in recorded && forall q <- recorded[1..] :: q in recorded;
      SplitBlock(recorded[0]);
      BlocksHaveNoFinalCr(recorded[1..]);
    }
  }

  lemma {:induction false} BlockLines(blocks: seq<Block>, recorded: seq<Printed>)
    requires forall p <- recorded :: Readable(p)
    ensures AddLines(blocks, SplitAll(BlockTexts(recorded))) == blocks + Expected(recorded)
    decreases |recorded|
  {
    hide Split, CommandOf, Normalize, BlockText, SplitAll, AddLines, AddLine, Quiet, NonBlank;
    if recorded == [] {
      NothingToSplit();
      NothingToAdd(blocks);
      assert blocks + [] == blocks;
    } else {
      var p, more := recorded[0], recorded[1..];
      assert p in recorded && forall q <- more :: q in recorded;
      SplitBlock(p);
      SplitAllCons(BlockText(p), BlockTexts(more));
      OneBlock(blocks, p);
      var block := Block(Normalize(p.command), NonBlank(SplitAll(p.outputs)));
      AddLinesConcat(blocks, Split(BlockText(p)), SplitAll(BlockTexts(more)));
      BlockLines(blocks + [block], more);
      assert blocks + [block] + Expected(more) == blocks + ([block] + Expected(more));
    }
  }

  lemma {:induction false} NothingToAdd(blocks: seq<Block>)
    ensures AddLines(blocks, []) == blocks
  {
  }

  lemma {:induction false} NothingToSplit()
    ensures SplitAll([]) == []
  {
  }

  lemma {:induction false} SplitAllCons(part: string, parts: seq<string>)
    ensures SplitAll([part] + parts) == Split(part) + SplitAll(parts)
  {
    assert ([part] + parts)[1..] == parts;
  }

  lemma {:induction false} OneBlock(blocks: seq<Block>, p: Printed)
    requires Readable(p) && Split(BlockText(p)) == ["$ " + p.command] + SplitAll(p.outputs)
    ensures AddLines(blocks, Split(BlockText(p))) ==
            blocks + [Block(Normalize(p.command), NonBlank(SplitAll(p.outputs)))]
  {
    hide Split, CommandOf, Normalize, BlockText, SplitAll, NonBlank;
    var line := "$ " + p.command;
    var lines := Split(BlockText(p));
    assert lines[0] == line && lines[1..] == SplitAll(p.outputs);
    assert AddLine(blocks, line) == blocks + [Block(Normalize(p.command), [])];
    QuietAfter(blocks, Normalize(p.command), [], lines[1..]);
    assert [] + NonBlank(lines[1..]) == NonBlank(lines[1..]);
  }

  /** Cutting a recording into blocks gives back exactly the recorded commands, normalised and in
      order, each with exactly the non-blank lines printed below it. */
  lemma {:induction false} TranscriptRoundTrip(header: seq<string>, recorded: seq<Printed>)
    requires header != [] && NoFinalCr(header) && Quiet(SplitAll(header))
    requires forall p <- recorded :: Readable(p)
    ensures AddLines([], Split(TranscriptText(header, recorded))) == Expected(recorded)
  {
    hide Split, Join, CommandOf, BlockTexts, SplitAll, Expected;
    var lines := SplitTranscript(header, recorded);
    BlockLines([], recorded);
    assert [] + Expected(recorded) == Expected(recorded);
    var headerLines, blockLines := SplitAll(header), SplitAll(BlockTexts(recorded));
    AddLinesConcat([], headerLines + blockLines, [""]);
    AddLinesConcat([], headerLines, blockLines);
    QuietBefore(headerLines);
    BlankLast(Expected(recorded));
  }

  lemma {:induction false} BlankLast(blocks: seq<Block>)
    ensures AddLines(blocks, [""]) == blocks
  {
    hide CommandOf;
    BlankIsQuiet();
    assert [""][1..] == [];
  }

  lemma {:induction false} SplitTranscript(header: seq<string>, recorded: seq<Printed>) returns (lines: seq<string>)
    requires header != [] && NoFinalCr(header)
    requires forall p <- recorded :: IsSplittable(p)
    ensures lines == SplitAll(header) + SplitAll(BlockTexts(recorded)) + [""]
    ensures Split(TranscriptText(header, recorded)) == lines
  {
    hide Split, Join, CommandOf, BlockTexts, SplitAll;
    BlocksHaveNoFinalCr(recorded);
    var parts := header + BlockTexts(recorded);
    lines := SplitAll(header) + SplitAll(BlockTexts(recorded)) + [""];
    SplitAllConcat(header, BlockTexts(recorded));
    SplitJoinedParts(parts);
    SplitAtFeed(Join(parts), "");
    assert Join(parts) + "\n" + "" == Join(parts) + "\n";
    SplitLine("");
  }

  lemma {:induction false} SplitAllConcat(a: seq<string>, b: seq<string>)
    ensures SplitAll(a + b) == SplitAll(a) + SplitAll(b)
    decreases |a|
  {
    hide Split;
    if a == [] {
      assert a + b == b;
    } else {
      assert (a + b)[1..] == a[1..] + b;
      SplitAllConcat(a[1..], b);
    }
  }
}
