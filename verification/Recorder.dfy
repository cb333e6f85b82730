/** The command recorder: what it runs, when it runs it again, and what its transcript always shows. */
module Recorder {
  import opened Text
  import opened Lines
  import opened Transcript
  import Json

  // --- running one command -----------------------------------------------------------------------------

  /** The attempt at which the retry loop stops, from this attempt on. */
  function LastAttempt(run: nat -> RunResult, attempt: nat, attempts: nat): (r: nat)
    requires attempt <= attempts
    ensures attempt <= r <= attempts
    ensures r < attempts ==> run(r).exitCode == 0
    ensures forall k | attempt <= k < r :: run(k).exitCode != 0
    decreases attempts - attempt
  {
    if run(attempt).exitCode == 0 || attempt == attempts then attempt
    else LastAttempt(run, attempt + 1, attempts)
  }

  /** The result of a command that may be tried again; `run(k)` is what its k-th attempt gives. */
  function FinalResult(run: nat -> RunResult, attempts: nat): RunResult {
    if attempts == 0 then RunResult(1, "", "") else run(LastAttempt(run, 1, attempts))
  }

  /** The result is that of the k-th attempt: the first success, or the last one. */
  ghost predicate SettlesAt(run: nat -> RunResult, attempts: nat, result: RunResult, k: nat) {
    if attempts == 0 then k == 0 && result == RunResult(1, "", "")
    else
      && 1 <= k <= attempts && result == run(k)
      && (forall j | 1 <= j < k :: run(j).exitCode != 0)
      && (k < attempts ==> result.exitCode == 0)
  }

  /** `runCommandWithRetry`: the first success or the last attempt, and how many attempts were made. */
  method RunCommandWithRetry(run: nat -> RunResult, attempts: nat) returns (result: RunResult, runs: nat)
    ensures result == FinalResult(run, attempts)
    ensures runs == if attempts == 0 then 0 else LastAttempt(run, 1, attempts)
    ensures SettlesAt(run, attempts, result, runs)
  {
    runs := 0;
    var attempt := 1;
    while attempt <= attempts
      invariant 1 <= attempt <= attempts + 1 && runs == attempt - 1
      invariant attempts > 0 ==> attempt <= attempts && LastAttempt(run, 1, attempts) == LastAttempt(run, attempt, attempts)
    {
      result := run(attempt);
      runs := runs + 1;
      if result.exitCode == 0 || attempt == attempts {
        return;
      }
      attempt := attempt + 1;
    }
    result := RunResult(1, "", "");
  }

  // --- the commands --------------------------------------------------------------------------------------

  /** A command as the words of its text; a file path is one word, whatever it holds. */
  datatype CommandSpec = CommandSpec(
    words: seq<string>,
    outputPath: Option<string>,
    attempts: nat,
    acceptableNonZeroMarkers: Option<seq<string>>)

  function JoinWords(words: seq<string>): string {
    if words == [] then ""
    else if |words| == 1 then words[0]
    else words[0] + " " + JoinWords(words[1..])
  }

  function Plain(words: seq<string>): CommandSpec {
    CommandSpec(words, None, 1, None)
  }

  function Pnpm(script: string, args: seq<string>): seq<string> {
    ["corepack", "pnpm", script] + args
  }

  const STAGING := "phase7:staging"
  const DOCKER := "phase7:docker"
  const DEMO := "demo"
  const PRODUCT := "product"
  const PROFILES: seq<string> := ["--profile", "demo"] + ["--profile", "workers"]
  const WORKSPACE := "split402-launch-evidence"

  const GIT_HEAD: seq<string> := ["git", "rev-parse", "HEAD"]
  const GIT_STATUS: seq<string> := ["git", "status", "--short", "--branch"]
  const GATEWAY_SMOKE: seq<string> := Pnpm(DEMO + ":mcp-gateway:smoke", [])
  const LINT: seq<string> := Pnpm("lint", [])
  const PUBLIC_SURFACE: seq<string> := Pnpm(PRODUCT + ":public-surface-check", ["--brief"])
  const TYPECHECK: seq<string> := Pnpm("typecheck", [])
  const TEST: seq<string> := Pnpm("test", [])
  const BUILD: seq<string> := Pnpm("build", [])
  const VECTORS: seq<string> := Pnpm("vectors:check", [])
  const AUDIT: seq<string> := Pnpm("audit", ["--audit-level", "high"])
  const PREFLIGHT: seq<string> := Pnpm(PRODUCT + ":launch-preflight", ["--brief", "--workspace", WORKSPACE])
  const PRODUCT_INIT: seq<string> := Pnpm(PRODUCT + ":evidence:init", [])
  const STAGING_INIT: seq<string> := Pnpm(STAGING + ":init", [])
  const DOCTOR: seq<string> := Pnpm(DOCKER + ":doctor", ["--brief"])
  const COMPOSE: seq<string> := Pnpm(DOCKER + ":compose", ["up", "--brief"] + PROFILES)
  const HEALTH: seq<string> := Pnpm(DOCKER + ":health", ["--brief"] + PROFILES)
  const SEED: seq<string> := Pnpm(STAGING + ":seed", [])
  const APPLY_SEED: seq<string> := Pnpm(STAGING + ":apply-seed-env", [])
  const STAGING_PROOF: seq<string> := Pnpm(STAGING + "-proof", [])
  const HOSTED_PREFLIGHT: seq<string> := Pnpm("phase7:hosted:preflight", [])
  const COLLECT_READS: seq<string> := Pnpm(STAGING + ":collect-reads", [])
  const COLLECT_GATEWAY: seq<string> := Pnpm(STAGING + ":collect-mcp-gateway", [])
  const MCP_BUNDLE: seq<string> := Pnpm(DEMO + ":mcp-bundle", [])
  const PAID_SUITE: seq<string> := Pnpm(DEMO + ":paid-suite", [])
  const DERIVE_RECEIPT: seq<string> := Pnpm(STAGING + ":derive-receipt-verification", [])
  const MANIFEST: seq<string> := Pnpm(STAGING + ":manifest", [])
  const ASSEMBLE: seq<string> := Pnpm(STAGING + ":assemble", [])
  const STATUS: seq<string> := Pnpm(STAGING + ":status", [])

  /** `safeLocalCommands`. */
  function LocalCommands(): seq<CommandSpec> {
    [Plain(GIT_HEAD), Plain(GIT_STATUS), Plain(GATEWAY_SMOKE), Plain(LINT), Plain(PUBLIC_SURFACE)]
    + [Plain(TYPECHECK), Plain(TEST), Plain(BUILD), Plain(VECTORS), Plain(AUDIT)]
  }

  datatype Paths = Paths(evidenceDirectory: string, evidenceEnvFile: string, proofPath: string, seedOutputPath: string) {
    function Artifact(fileName: string): string {
      evidenceDirectory + "/" + fileName
    }

    function EnvArgs(): seq<string> {
      ["--evidence-env-file", evidenceEnvFile]
    }
  }

  /** `createHostedStagingCommands`. */
  function HostedCommands(p: Paths): seq<CommandSpec> {
    [ Plain(PRODUCT_INIT + ["--missing"]),
      Plain(DOCTOR),
      Plain(DOCTOR + PROFILES),
      Plain(COMPOSE),
      CommandSpec(HEALTH, None, 12, None) ]
    + [ CommandSpec(SEED, Some(p.seedOutputPath), 1, None),
        Plain(APPLY_SEED + ["--seed-output", p.seedOutputPath]),
        Plain(STAGING_PROOF + p.EnvArgs() + [p.proofPath]),
        Plain(HOSTED_PREFLIGHT + p.EnvArgs()),
        Plain(MCP_BUNDLE + [p.Artifact("mcp-bundle.json")]) ]
    + [ Plain(PAID_SUITE + [p.Artifact("paid-suite.log")]),
        Plain(DERIVE_RECEIPT + p.EnvArgs() + [p.Artifact("paid-suite.log"), p.Artifact("receipt-verification.json")]),
        Plain(COLLECT_GATEWAY + p.EnvArgs()),
        Plain(COLLECT_READS + p.EnvArgs()),
        Plain(MANIFEST + [p.proofPath, p.Artifact("artifact-manifest.json")]) ]
    + [ Plain(ASSEMBLE + p.EnvArgs() + [p.proofPath]),
        CommandSpec(STATUS + ["--brief", p.proofPath], None, 1, Some([
          "public-alpha approval remains no-go",
          "Reassemble with corepack pnpm phase7:staging:assemble"])) ]
  }

  function CommandsFor(includeHosted: bool, includePreflight: bool, p: Paths): seq<CommandSpec> {
    (if includePreflight || includeHosted then [Plain(PREFLIGHT)] else [])
    + (if includeHosted then HostedCommands(p) else [])
    + LocalCommands()
  }

  // --- recording -----------------------------------------------------------------------------------------

  predicate Includes(s: string, part: string) {
    exists i: nat | i <= |s| :: OccursAt(s, part, i)
  }

  /** `isAcceptableNonZeroResult`. */
  predicate IsAcceptable(command: CommandSpec, result: RunResult) {
    && result.exitCode != 0
    && command.acceptableNonZeroMarkers.Some?
    && forall m <- command.acceptableNonZeroMarkers.value :: Includes(result.stdout + "\n" + result.stderr, m)
  }

  /** `banner` holds the comment lines that open the transcript. */
  datatype Input = Input(
    outputPath: string,
    force: bool,
    includeHosted: bool,
    includePreflight: bool,
    paths: Paths,
    banner: seq<string>,
    generatedAt: string)

  /** The comment lines, the time stamp and an empty line. */
  function Header(input: Input): seq<string> {
    input.banner + ["# generated_at: " + input.generatedAt, ""]
  }

  /** What running every command gives: `run(i)(k)` is the k-th attempt of the i-th command. */
  function Results(commands: seq<CommandSpec>, run: nat -> nat -> RunResult): (r: seq<RunResult>)
    ensures |r| == |commands|
    ensures forall i | 0 <= i < |r| :: r[i] == FinalResult(run(i), commands[i].attempts)
  {
    seq(|commands|, i requires 0 <= i < |commands| => FinalResult(run(i), commands[i].attempts))
  }

  function Recorded(commands: seq<CommandSpec>, results: seq<RunResult>, redact: string -> string): (r: seq<Printed>)
    requires |commands| == |results|
    ensures |r| == |commands|
    ensures forall i | 0 <= i < |r| :: r[i] == Printed(JoinWords(commands[i].words),
                                                       Outputs(results[i], IsAcceptable(commands[i], results[i]), redact))
  {
    if commands == [] then []
    else
      var n := |commands| - 1;
      Recorded(commands[..n], results[..n], redact)
      + [Printed(JoinWords(commands[n].words), Outputs(results[n], IsAcceptable(commands[n], results[n]), redact))]
  }

  /** The command, if its result counts as a failure. */
  function FailedOne(command: CommandSpec, result: RunResult): seq<string> {
    if result.exitCode != 0 && !IsAcceptable(command, result) then [JoinWords(command.words)] else []
  }

  function Failed(commands: seq<CommandSpec>, results: seq<RunResult>): seq<string>
    requires |commands| == |results|
  {
    if commands == [] then []
    else
      var n := |commands| - 1;
      Failed(commands[..n], results[..n]) + FailedOne(commands[n], results[n])
  }

  /** The files after the output of a successful command was saved. */
  function SavedOne(files: map<string, string>, command: CommandSpec, result: RunResult): map<string, string> {
    if command.outputPath.Some? && result.exitCode == 0 && result.stdout != ""
    then files[command.outputPath.value := result.stdout]
    else files
  }

  /** The files after the commands' own outputs were saved. */
  function Saved(files: map<string, string>, commands: seq<CommandSpec>, results: seq<RunResult>): map<string, string>
    requires |commands| == |results|
  {
    if commands == [] then files
    else
      var n := |commands| - 1;
      SavedOne(Saved(files, commands[..n], results[..n]), commands[n], results[n])
  }

  datatype Report = Report(ok: bool, commandCount: nat, failedCommands: seq<string>, written: bool)

  /** The files the recorder can see and write. */
  class FileSystem {
    var files: map<string, string>

    constructor (files: map<string, string>)
      ensures this.files == files
    {
      this.files := files;
    }

    method WriteText(path: string, text: string)
      modifies this
      ensures files == old(files)[path := text]
    {
      files := files[path := text];
    }
  }

  /** What recording these commands leaves: the files and the report. */
  function Recording(files: map<string, string>, input: Input, commands: seq<CommandSpec>, results: seq<RunResult>,
                     redact: string -> string): (map<string, string>, Report)
    requires |commands| == |results|
  {
    var text := TranscriptText(Header(input), Recorded(commands, results, redact));
    var failed := Failed(commands, results);
    (Saved(files, commands, results)[input.outputPath := text], Report(failed == [], |commands|, failed, true))
  }

  // --- what a recording leaves, command by command -----------------------------------------------------------

  /** The command did not succeed, but its output has all the markers that excuse it. */
  ghost predicate Excused(command: CommandSpec, result: RunResult) {
    && result.exitCode != 0 && command.acceptableNonZeroMarkers.Some?
    && forall m <- command.acceptableNonZeroMarkers.value :: Holds(result.stdout + "\n" + result.stderr, m)
  }

  ghost predicate Holds(text: string, part: string) {
    exists a, b :: text == a + part + b
  }

  ghost predicate Fails(command: CommandSpec, result: RunResult) {
    result.exitCode != 0 && !Excused(command, result)
  }

  ghost function Failing(commands: seq<CommandSpec>, results: seq<RunResult>): (r: seq<bool>)
    requires |commands| == |results|
    ensures |r| == |commands| && forall i | 0 <= i < |r| :: r[i] == Fails(commands[i], results[i])
  {
    seq(|commands|, i requires 0 <= i < |commands| => Fails(commands[i], results[i]))
  }

  /** The failed commands' texts, in order. */
  ghost predicate FailedFollow(commands: seq<CommandSpec>, results: seq<RunResult>, failed: seq<string>, at: seq<nat>)
    requires |commands| == |results|
  {
    && Picks(at, Failing(commands, results)) && |at| == |failed|
    && forall k | 0 <= k < |at| :: failed[k] == JoinWords(commands[at[k]].words)
  }

  function Below(text: string): string {
    if text == "" then "" else "\n" + text
  }

  /** What is printed for a command: its line, its output and errors without white space at the end, and the exit
      code if it is not 0. */
  ghost predicate BlockShows(command: CommandSpec, result: RunResult, redact: string -> string, block: string) {
    block == "$ " + JoinWords(command.words) + Below(TrimEnd(redact(result.stdout))) + Below(TrimEnd(redact(result.stderr)))
             + if result.exitCode == 0 then ""
               else "\n" + ("# exit_code: " + Json.IntText(result.exitCode) + if Excused(command, result)
                    then " (accepted: " + "expected " + "Phase 7 " + "no-go status)" else "")
  }

  /** The text: the banner, the time stamp, an empty line, and the block of each command. */
  ghost predicate TextShows(input: Input, commands: seq<CommandSpec>, results: seq<RunResult>, redact: string -> string, text: string,
                            blocks: seq<string>)
    requires |commands| == |results|
  {
    && |blocks| == |commands| && (forall i | 0 <= i < |blocks| :: BlockShows(commands[i], results[i], redact, blocks[i]))
    && text == Join(input.banner + ["# generated_at: " + input.generatedAt, ""] + blocks) + "\n"
  }

  /** The command succeeded, printed something, and saves it here. */
  predicate Saves(command: CommandSpec, result: RunResult, path: string) {
    command.outputPath == Some(path) && result.exitCode == 0 && result.stdout != ""
  }

  /** Command i is the last one that saves here. */
  ghost predicate SavesLast(commands: seq<CommandSpec>, results: seq<RunResult>, i: int, path: string)
    requires |commands| == |results|
  {
    && 0 <= i < |commands| && Saves(commands[i], results[i], path)
    && forall j | i < j < |commands| :: !Saves(commands[j], results[j], path)
  }

  /** What is at a path after the commands: the output of the last command that saves there, or what was there. */
  ghost predicate PathFollows(was: map<string, string>, now: map<string, string>, commands: seq<CommandSpec>, results: seq<RunResult>,
                              path: string)
    requires |commands| == |results|
  {
    && (forall i | SavesLast(commands, results, i, path) :: path in now && now[path] == results[i].stdout)
    && ((forall i | 0 <= i < |commands| :: !Saves(commands[i], results[i], path)) ==>
          (path in now <==> path in was) && (path in was ==> now[path] == was[path]))
  }

  ghost predicate RecordingFollows(was: map<string, string>, now: map<string, string>, input: Input, commands: seq<CommandSpec>,
                                   results: seq<RunResult>, redact: string -> string, report: Report)
  {
    && |results| == |commands|
    && report.written && report.commandCount == |commands|
    && (report.ok <==> forall i | 0 <= i < |commands| :: !Fails(commands[i], results[i]))
    && (exists at :: FailedFollow(commands, results, report.failedCommands, at))
    && input.outputPath in now && (exists blocks :: TextShows(input, commands, results, redact, now[input.outputPath], blocks))
    && (forall path | path != input.outputPath :: PathFollows(was, now, commands, results, path))
  }

  ghost predicate Settles(run: nat -> RunResult, attempts: nat, result: RunResult) {
    exists k :: SettlesAt(run, attempts, result, k)
  }

  /** Every result is the first success of its command, or its last attempt. */
  ghost predicate AllSettle(commands: seq<CommandSpec>, run: nat -> nat -> RunResult, results: seq<RunResult>) {
    |results| == |commands| && forall i | 0 <= i < |commands| :: Settles(run(i), commands[i].attempts, results[i])
  }

  lemma {:induction false} ResultsSettle(commands: seq<CommandSpec>, run: nat -> nat -> RunResult)
    ensures AllSettle(commands, run, Results(commands, run))
  {
    hide FinalResult, Settles;
    forall i | 0 <= i < |commands| ensures Settles(run(i), commands[i].attempts, Results(commands, run)[i]) {
      FinalSettles(run(i), commands[i].attempts);
    }
  }

  lemma {:induction false} FinalSettles(run: nat -> RunResult, attempts: nat)
    ensures Settles(run, attempts, FinalResult(run, attempts))
  {
    hide LastAttempt;
    assert SettlesAt(run, attempts, FinalResult(run, attempts), if attempts == 0 then 0 else LastAttempt(run, 1, attempts));
  }

  lemma {:induction false} IncludesIff(s: string, part: string)
    ensures Includes(s, part) <==> Holds(s, part)
  {
    if Includes(s, part) {
      var i: nat :| i <= |s| && OccursAt(s, part, i);
      assert s == s[..i] + part + s[i + |part|..];
    }
    if Holds(s, part) {
      var a, b :| s == a + part + b;
      assert OccursAt(s, part, |a|);
    }
  }

  lemma {:induction false} ExcusedIff(command: CommandSpec, result: RunResult)
    ensures IsAcceptable(command, result) <==> Excused(command, result)
  {
    hide Includes, Holds;
    if command.acceptableNonZeroMarkers.Some? {
      forall m <- command.acceptableNonZeroMarkers.value
        ensures Includes(result.stdout + "\n" + result.stderr, m) <==> Holds(result.stdout + "\n" + result.stderr, m)
      {
        IncludesIff(result.stdout + "\n" + result.stderr, m);
      }
    }
  }

  lemma {:induction false} FailedIs(commands: seq<CommandSpec>, results: seq<RunResult>) returns (at: seq<nat>)
    requires |commands| == |results|
    ensures FailedFollow(commands, results, Failed(commands, results), at)
  {
    hide Picks, Fails, IsAcceptable, JoinWords;
    if commands == [] {
      at := [];
      NothingPicked(Failing(commands, results));
    } else {
      var n := |commands| - 1;
      at := FailedIs(commands[..n], results[..n]);
      FailsIff(commands[n], results[n]);
      var b := Fails(commands[n], results[n]);
      PicksAre(at, Failing(commands[..n], results[..n]));
      PicksAppend(at, Failing(commands[..n], results[..n]), b);
      assert Failing(commands, results) == Failing(commands[..n], results[..n]) + [b];
      at := if b then at + [n] else at;
    }
  }

  lemma {:induction false} FailsIff(command: CommandSpec, result: RunResult)
    ensures FailedOne(command, result) == if Fails(command, result) then [JoinWords(command.words)] else []
  {
    hide IsAcceptable, Excused, JoinWords;
    ExcusedIff(command, result);
  }

  lemma {:induction false} NoneFails(commands: seq<CommandSpec>, results: seq<RunResult>)
    requires |commands| == |results|
    ensures Failed(commands, results) == [] <==> forall i | 0 <= i < |commands| :: !Fails(commands[i], results[i])
  {
    hide FailedOne, Fails, JoinWords;
    if commands != [] {
      var n := |commands| - 1;
      NoneFails(commands[..n], results[..n]);
      FailsIff(commands[n], results[n]);
    }
  }

  lemma {:induction false} SavesOnce(before: map<string, string>, command: CommandSpec, result: RunResult, path: string)
    ensures var after := SavedOne(before, command, result);
            && (Saves(command, result, path) ==> path in after && after[path] == result.stdout)
            && (!Saves(command, result, path) ==> (path in after <==> path in before) && (path in before ==> after[path] == before[path]))
  {
  }

  lemma {:induction false} SavesLastBelow(commands: seq<CommandSpec>, results: seq<RunResult>, n: nat, i: int, path: string)
    requires |commands| == |results| == n + 1 && !Saves(commands[n], results[n], path)
    ensures SavesLast(commands, results, i, path) <==> SavesLast(commands[..n], results[..n], i, path)
    ensures SavesLast(commands, results, i, path) ==> 0 <= i < n
  {
    hide Saves;
    assert forall j | 0 <= j < n :: commands[..n][j] == commands[j] && results[..n][j] == results[j];
  }

  lemma {:induction false} SavesLastHere(commands: seq<CommandSpec>, results: seq<RunResult>, n: nat, i: int, path: string)
    requires |commands| == |results| == n + 1 && Saves(commands[n], results[n], path)
    ensures SavesLast(commands, results, i, path) <==> i == n
  {
    hide Saves;
  }

  lemma {:induction false} PathIs(files: map<string, string>, commands: seq<CommandSpec>, results: seq<RunResult>, path: string)
    requires |commands| == |results|
    ensures PathFollows(files, Saved(files, commands, results), commands, results, path)
  {
    hide Saves, SavedOne, SavesLast;
    if commands == [] {
      NothingSaved(commands, results, path);
    } else {
      var n := |commands| - 1;
      PathIs(files, commands[..n], results[..n], path);
      var before := Saved(files, commands[..n], results[..n]);
      SavesOnce(before, commands[n], results[n], path);
      if Saves(commands[n], results[n], path) {
        forall i ensures SavesLast(commands, results, i, path) <==> i == n { SavesLastHere(commands, results, n, i, path); }
      } else {
        forall i
          ensures SavesLast(commands, results, i, path) <==> SavesLast(commands[..n], results[..n], i, path)
          ensures SavesLast(commands, results, i, path) ==> 0 <= i < n
        {
          SavesLastBelow(commands, results, n, i, path);
        }
        assert forall j | 0 <= j < n :: commands[..n][j] == commands[j] && results[..n][j] == results[j];
      }
    }
  }

  lemma NothingSaved(commands: seq<CommandSpec>, results: seq<RunResult>, path: string)
    requires commands == [] && results == []
    ensures forall i :: !SavesLast(commands, results, i, path)
  {
  }

  lemma {:induction false} NonEmptyCons(a: string, rest: seq<string>)
    ensures NonEmpty([a] + rest) == (if a == "" then [] else [a]) + NonEmpty(rest)
  {
    assert ([a] + rest)[1..] == rest;
  }

  lemma {:induction false} NonEmptyFour(a: string, b: string, c: string)
    ensures NonEmpty([a, b, c, ""]) ==
            (if a == "" then [] else [a]) + ((if b == "" then [] else [b]) + (if c == "" then [] else [c]))
  {
    hide NonEmpty;
    NonEmptyCons(a, [b, c, ""]);
    NonEmptyCons(b, [c, ""]);
    NonEmptyCons(c, [""]);
    NonEmptyCons("", []);
    assert [a] + [b, c, ""] == [a, b, c, ""] && [b] + [c, ""] == [b, c, ""] && [c] + [""] == [c, ""] && [""] + [] == [""];
    NothingNonEmpty();
  }

  lemma NothingNonEmpty()
    ensures NonEmpty([]) == []
  {
  }

  lemma {:induction false} JoinBelow(head: string, part: string, rest: seq<string>)
    ensures Join([head] + ((if part == "" then [] else [part]) + rest)) == Join([head + Below(part)] + rest)
  {
    var parts := (if part == "" then [] else [part]) + rest;
    assert ([head] + parts)[1..] == parts && ([head + Below(part)] + rest)[1..] == rest;
    if part == "" {
      assert parts == rest && head + "" == head;
    } else {
      assert parts[1..] == rest;
    }
  }

  lemma {:induction false} JoinParts(head: string, a: string, b: string, c: string)
    ensures Join([head] + NonEmpty([a, b, c, ""])) == head + Below(a) + Below(b) + Below(c)
  {
    hide Join, Below, NonEmpty;
    NonEmptyFour(a, b, c);
    var lasts := if c == "" then [] else [c];
    JoinBelow(head, a, (if b == "" then [] else [b]) + lasts);
    JoinBelow(head + Below(a), b, lasts);
    JoinBelow(head + Below(a) + Below(b), c, []);
    assert lasts + [] == lasts;
    JoinOne(head + Below(a) + Below(b) + Below(c));
  }

  lemma JoinOne(head: string)
    ensures Join([head] + []) == head
  {
  }

  lemma {:induction false} BlockIs(command: CommandSpec, result: RunResult, redact: string -> string)
    ensures BlockShows(command, result, redact, BlockText(Printed(JoinWords(command.words), Outputs(result, IsAcceptable(command, result), redact))))
  {
    hide Join, JoinWords, IsAcceptable, Excused, NonEmpty, TrimEnd, Json.IntText;
    ExcusedIff(command, result);
    JoinParts("$ " + JoinWords(command.words), TrimEnd(redact(result.stdout)), TrimEnd(redact(result.stderr)),
              ExitLine(result.exitCode, IsAcceptable(command, result)));
  }

  lemma {:induction false} BlockTextsAre(recorded: seq<Printed>)
    ensures |BlockTexts(recorded)| == |recorded|
    ensures forall i | 0 <= i < |recorded| :: BlockTexts(recorded)[i] == BlockText(recorded[i])
  {
    hide BlockText;
    if recorded != [] { BlockTextsAre(recorded[1..]); }
  }

  lemma {:induction false} RecordingIs(files: map<string, string>, input: Input, commands: seq<CommandSpec>, results: seq<RunResult>,
                                       redact: string -> string)
    requires |commands| == |results|
    ensures var (now, report) := Recording(files, input, commands, results, redact);
            RecordingFollows(files, now, input, commands, results, redact, report)
  {
    hide Failed, Saved, Recorded, BlockTexts, Join, BlockShows, Fails, FailedFollow, PathFollows;
    var at := FailedIs(commands, results);
    NoneFails(commands, results);
    var recorded := Recorded(commands, results, redact);
    var blocks := BlockTexts(recorded);
    BlockTextsAre(recorded);
    forall i | 0 <= i < |commands| ensures BlockShows(commands[i], results[i], redact, blocks[i]) {
      BlockIs(commands[i], results[i], redact);
    }
    var text := TranscriptText(Header(input), recorded);
    assert TextShows(input, commands, results, redact, text, blocks);
    var saved := Saved(files, commands, results);
    var now := saved[input.outputPath := text];
    forall path | path != input.outputPath ensures PathFollows(files, now, commands, results, path) {
      PathIs(files, commands, results, path);
      OtherPath(files, saved, commands, results, path, input.outputPath, text);
    }
    var report := Recording(files, input, commands, results, redact).1;
    assert Recording(files, input, commands, results, redact).0 == now;
    assert FailedFollow(commands, results, report.failedCommands, at);
    assert TextShows(input, commands, results, redact, now[input.outputPath], blocks);
  }

  lemma {:induction false} OtherPath(was: map<string, string>, now: map<string, string>, commands: seq<CommandSpec>, results: seq<RunResult>,
                                     path: string, other: string, text: string)
    requires |commands| == |results| && path != other && PathFollows(was, now, commands, results, path)
    ensures PathFollows(was, now[other := text], commands, results, path)
  {
    hide Saves;
  }

  /** `recordPhase7LocalCommandEvidence`, with the processes' answers and the redaction as functions. */
  method RecordCommandEvidence(fs: FileSystem, input: Input, run: nat -> nat -> RunResult, redact: string -> string)
    returns (report: Report)
    modifies fs
    ensures input.outputPath in old(fs.files) && !input.force ==>
              fs.files == old(fs.files) && report == Report(false, 0, [], false)
    ensures input.outputPath !in old(fs.files) || input.force ==>
              var commands := CommandsFor(input.includeHosted, input.includePreflight, input.paths);
              && (fs.files, report) == Recording(old(fs.files), input, commands, Results(commands, run), redact)
              && AllSettle(commands, run, Results(commands, run))
              && RecordingFollows(old(fs.files), fs.files, input, commands, Results(commands, run), redact, report)
  {
    hide CommandsFor, Results, AllSettle, RecordingFollows, Recording;
    if input.outputPath in fs.files && !input.force {
      return Report(false, 0, [], false);
    }
    var commands := CommandsFor(input.includeHosted, input.includePreflight, input.paths);
    ghost var was := fs.files;
    report := RecordCommands(fs, input, commands, run, redact);
    ResultsSettle(commands, run);
    RecordingIs(was, input, commands, Results(commands, run), redact);
  }

  /** One turn of the loop: the command is run, its output saved, and its block and failure returned. */
  method RecordCommand(fs: FileSystem, command: CommandSpec, run: nat -> RunResult, redact: string -> string)
    returns (block: string, failed: seq<string>)
    modifies fs
    ensures var result := FinalResult(run, command.attempts);
            && fs.files == SavedOne(old(fs.files), command, result)
            && block == FormatBlock(JoinWords(command.words), result, IsAcceptable(command, result), redact)
            && failed == FailedOne(command, result)
  {
    hide JoinWords, IsAcceptable, FinalResult, FormatBlock;
    var result, _ := RunCommandWithRetry(run, command.attempts);
    if command.outputPath.Some? && result.exitCode == 0 && result.stdout != "" {
      fs.WriteText(command.outputPath.value, result.stdout);
    }
    var acceptableNonZero := IsAcceptable(command, result);
    var text := JoinWords(command.words);
    block := FormatBlock(text, result, acceptableNonZero, redact);
    failed := if result.exitCode != 0 && !acceptableNonZero then [text] else [];
  }

  method RecordCommands(fs: FileSystem, input: Input, commands: seq<CommandSpec>, run: nat -> nat -> RunResult,
                        redact: string -> string)
    returns (report: Report)
    modifies fs
    ensures (fs.files, report) == Recording(old(fs.files), input, commands, Results(commands, run), redact)
  {
    hide JoinWords, Outputs, IsAcceptable, Header, FinalResult, FormatBlock, Join, BlockTexts, SavedOne, FailedOne;
    ghost var results := Results(commands, run);
    hide Results;
    var blocks: seq<string> := Header(input);
    var failedCommands: seq<string> := [];
    ghost var was := fs.files;
    assert commands[..0] == [] && results[..0] == [];
    NothingRecorded(redact);
    hide Saved, Failed, Recorded;
    for i := 0 to |commands|
      invariant fs.files == Saved(was, commands[..i], results[..i])
      invariant blocks == Header(input) + BlockTexts(Recorded(commands[..i], results[..i], redact))
      invariant failedCommands == Failed(commands[..i], results[..i])
    {
      OneMoreCommand(was, commands, results, i);
      OneMoreBlock(commands, results, i, redact);
      var block, failed := RecordCommand(fs, commands[i], run(i), redact);
      blocks := blocks + [block];
      failedCommands := failedCommands + failed;
    }
    assert commands[..|commands|] == commands && results[..|results|] == results;
    fs.WriteText(input.outputPath, Join(blocks) + "\n");
    report := Report(failedCommands == [], |commands|, failedCommands, true);
  }

  lemma {:induction false} NothingRecorded(redact: string -> string)
    ensures BlockTexts(Recorded([], [], redact)) == []
  {
  }

  lemma {:induction false} OneMoreCommand(files: map<string, string>, commands: seq<CommandSpec>, results: seq<RunResult>, i: nat)
    requires |commands| == |results| && i < |commands|
    ensures Failed(commands[..i + 1], results[..i + 1]) == Failed(commands[..i], results[..i]) + FailedOne(commands[i], results[i])
    ensures Saved(files, commands[..i + 1], results[..i + 1]) == SavedOne(Saved(files, commands[..i], results[..i]), commands[i], results[i])
  {
    hide SavedOne, FailedOne;
    assert commands[..i + 1][..i] == commands[..i] && results[..i + 1][..i] == results[..i];
  }

  lemma {:induction false} OneMoreBlock(commands: seq<CommandSpec>, results: seq<RunResult>, i: nat, redact: string -> string)
    requires |commands| == |results| && i < |commands|
    ensures BlockTexts(Recorded(commands[..i + 1], results[..i + 1], redact)) ==
            BlockTexts(Recorded(commands[..i], results[..i], redact))
            + [FormatBlock(JoinWords(commands[i].words), results[i], IsAcceptable(commands[i], results[i]), redact)]
  {
    hide JoinWords, Outputs, IsAcceptable;
    assert commands[..i + 1][..i] == commands[..i] && results[..i + 1][..i] == results[..i];
    var before := Recorded(commands[..i], results[..i], redact);
    var p := Printed(JoinWords(commands[i].words), Outputs(results[i], IsAcceptable(commands[i], results[i]), redact));
    BlockTextsAppend(before, p);
  }

  lemma {:induction false} BlockTextsAppend(recorded: seq<Printed>, p: Printed)
    ensures BlockTexts(recorded + [p]) == BlockTexts(recorded) + [BlockText(p)]
  {
    hide BlockText;
    if recorded != [] {
      assert (recorded + [p])[1..] == recorded[1..] + [p];
      BlockTextsAppend(recorded[1..], p);
    } else {
      assert [p][1..] == [];
    }
  }
}
