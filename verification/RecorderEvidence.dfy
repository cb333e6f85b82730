/** What the command checker finds in the recorder's transcript. */
module RecorderEvidence {
  import opened Text
  import opened Lines
  import opened Transcript
  import opened Recorder
  import Json

  // --- normalising ----------------------------------------------------------------------------------------

  lemma {:induction false} CollapseConcat(a: string, b: string)
    requires a == "" || !IsSpace(a[|a| - 1])
    ensures Collapse(a + b) == Collapse(a) + Collapse(b)
  {
    hide IsSpace, Kept;
    if a == "" {
      assert a + b == b;
    } else {
      var s := a + b;
      assert s[1..] == a[1..] + b;
      KeptConcat(a, b);
      CollapseConcat(a[1..], b);
    }
  }

  lemma KeptConcat(a: string, b: string)
    requires a != "" && !IsSpace(a[|a| - 1])
    ensures Kept(a + b) == Kept(a)
  {
    hide IsSpace;
    assert |a| > 1 ==> (a + b)[1] == a[1];
  }

  lemma {:induction false} CollapseSpaces(s: string)
    requires AllSpace(s)
    ensures Collapse(s) == if s == "" then "" else " "
  {
    if s != "" {
      CollapseSpaces(s[1..]);
    }
  }

  lemma {:induction false} TrimEndConcat(a: string, b: string)
    requires a != "" && !IsSpace(a[|a| - 1])
    ensures TrimEnd(a + b) == a + TrimEnd(b)
  {
    if b == "" || !IsSpace(b[|b| - 1]) {
    } else {
      assert (a + b)[..|a + b| - 1] == a + b[..|b| - 1];
      TrimEndConcat(a, b[..|b| - 1]);
    }
  }

  /** White space at the end of a command does not matter. */
  lemma {:induction false} NormalizeTrimEnd(s: string)
    requires s != "" && !IsSpace(s[0])
    ensures Normalize(TrimEnd(s)) == Normalize(s)
    ensures TrimEnd(s) != "" && TrimEnd(s)[0] == s[0]
  {
    hide Collapse;
    TrimEndIs(s);
    var a := TrimEnd(s);
    var b := s[|a|..];
    assert s[0..] == s;
    assert s == a + b;
    CollapseConcat(a, b);
    CollapseSpaces(b);
    CollapseEnd(a);
    CollapseFirst(a);
    var c := Collapse(a);
    TrimEndConcat(c, if b == "" then "" else " ");
    TrimOneSpace();
    assert c + "" == c;
    assert TrimStart(c) == c && TrimStart(Collapse(s)) == Collapse(s);
    TrimEndConcat(c, "");
  }

  lemma TrimOneSpace()
    ensures TrimEnd(" ") == "" && TrimEnd("") == ""
  {
  }

  lemma {:induction false} CollapseEnd(s: string)
    requires s != "" && !IsSpace(s[|s| - 1])
    ensures Collapse(s) != "" && !IsSpace(Collapse(s)[|Collapse(s)| - 1])
  {
    var init, last := s[..|s| - 1], [s[|s| - 1]];
    assert s == init + last;
    if |s| > 1 {
      CollapseEnd(s[1..]);
    }
  }

  /** What the checker reads from a recorded command line. */
  lemma {:induction false} PromptedCommand(command: string)
    requires command != "" && !IsSpace(command[0])
    ensures CommandOf("$ " + command) ==
            if IsCommandEvidence(Normalize(command)) then Some(Normalize(command)) else None
  {
    hide Normalize, IsCommandEvidence;
    var line := "$ " + command;
    assert TrimStart(line) == line;
    PromptTrim(command);
    NormalizeTrimEnd(command);
    EvidenceIsNonEmpty();
  }

  lemma {:induction false} PromptTrim(command: string)
    requires command != "" && !IsSpace(command[0])
    ensures Trim("$ " + command) == "$ " + TrimEnd(command)
    ensures StripPrompt("$ " + TrimEnd(command)) == TrimEnd(command)
  {
    var line := "$ " + command;
    var first := "$ " + [command[0]];
    assert line == first + command[1..];
    assert [command[0]] + command[1..] == command;
    TrimEndConcat(first, command[1..]);
    TrimEndConcat([command[0]], command[1..]);
    assert TrimStart(line) == line;
    assert first + TrimEnd(command[1..]) == "$ " + ([command[0]] + TrimEnd(command[1..]));
    assert ("$ " + TrimEnd(command))[2..] == TrimEnd(command);
  }

  lemma EvidenceIsNonEmpty()
    ensures !IsCommandEvidence("")
  {
  }

  // --- words ------------------------------------------------------------------------------------------------

  predicate IsWord(s: string) {
    s != "" && forall i | 0 <= i < |s| :: !IsSpace(s[i])
  }

  predicate AreWords(words: seq<string>) {
    forall i | 0 <= i < |words| :: IsWord(words[i])
  }

  lemma {:induction false} CollapseWord(word: string)
    requires IsWord(word)
    ensures Collapse(word) == word
  {
    if |word| > 1 {
      CollapseWord(word[1..]);
    } else {
      assert word[1..] == "";
    }
    assert [word[0]] + word[1..] == word;
  }

  lemma {:induction false} WordsEnds(words: seq<string>)
    requires words != [] && AreWords(words)
    ensures JoinWords(words) != "" && JoinWords(words)[0] == words[0][0]
    ensures !IsSpace(JoinWords(words)[0]) && !IsSpace(JoinWords(words)[|JoinWords(words)| - 1])
  {
    if |words| > 1 {
      WordsEnds(words[1..]);
    }
  }

  lemma {:induction false} CollapseWords(words: seq<string>)
    requires words != [] && AreWords(words)
    ensures Collapse(JoinWords(words)) == JoinWords(words)
  {
    hide Collapse;
    CollapseWord(words[0]);
    if |words| > 1 {
      var tail := JoinWords(words[1..]);
      CollapseWords(words[1..]);
      WordsEnds(words[1..]);
      CollapseConcat(words[0], " " + tail);
      CollapseSpaceThen(tail);
      assert JoinWords(words) == words[0] + (" " + tail);
    }
  }

  lemma {:induction false} CollapseSpaceThen(s: string)
    requires s != "" && !IsSpace(s[0])
    ensures Collapse(" " + s) == " " + Collapse(s)
  {
    assert (" " + s)[1..] == s;
  }

  /** Words stay as they are under normalising, whatever follows them. */
  lemma {:induction false} NormalizeWords(words: seq<string>, rest: string)
    requires words != [] && AreWords(words)
    ensures JoinWords(words) <= Normalize(JoinWords(words) + rest)
    ensures rest == "" ==> Normalize(JoinWords(words)) == JoinWords(words)
  {
    hide Collapse, JoinWords;
    var w := JoinWords(words);
    WordsEnds(words);
    CollapseWords(words);
    CollapseConcat(w, rest);
    TrimEndConcat(w, Collapse(rest));
    TrimEndConcat(w, "");
    assert w + "" == w;
    TrimOneSpace();
    assert TrimStart(w + Collapse(rest)) == w + Collapse(rest) && TrimStart(w) == w;
  }

  lemma {:induction false} JoinPrefix(words: seq<string>, prefix: seq<string>)
    requires prefix != [] && prefix <= words
    ensures |JoinWords(prefix)| <= |JoinWords(words)| && JoinWords(words)[..|JoinWords(prefix)|] == JoinWords(prefix)
  {
    if |prefix| > 1 {
      JoinPrefix(words[1..], prefix[1..]);
      assert prefix[0] == words[0];
      var head := words[0] + " ";
      var a, b := JoinWords(prefix[1..]), JoinWords(words[1..]);
      assert (head + b)[..|head + a|] == head + b[..|a|];
    }
  }

  // --- which command a line shows ---------------------------------------------------------------------------

  /** Words with white space around and between them. */
  function Spread(words: seq<string>, gaps: seq<string>): string
    requires |gaps| == |words| + 1
  {
    if words == [] then gaps[0] else gaps[0] + words[0] + Spread(words[1..], gaps[1..])
  }

  /** White space, and at least one between two words. */
  ghost predicate AreGaps(gaps: seq<string>) {
    && (forall i | 0 <= i < |gaps| :: AllSpace(gaps[i]))
    && (forall i | 0 < i < |gaps| - 1 :: gaps[i] != "")
  }

  ghost predicate SpreadOf(s: string, words: seq<string>, gaps: seq<string>) {
    |gaps| == |words| + 1 && AreWords(words) && AreGaps(gaps) && s == Spread(words, gaps)
  }

  /** The words of s, joined by single blanks. */
  ghost predicate Squeezed(s: string, c: string) {
    exists words, gaps | SpreadOf(s, words, gaps) :: c == JoinWords(words)
  }

  lemma {:induction false} HeadGap(words: seq<string>, gaps: seq<string>)
    requires words != [] && |gaps| == |words| + 1 && AreGaps(gaps)
    ensures AreGaps(gaps[1..]) && (|words| > 1 ==> gaps[1] != "")
    ensures AreGaps([""] + gaps[1..])
  {
    hide AllSpace;
    var rest := gaps[1..];
    forall i | 0 < i < |rest| - 1 ensures rest[i] != "" { assert rest[i] == gaps[i + 1]; }
    assert AllSpace("") by { NoSpaceInNothing(); }
    forall i | 0 < i < |gaps| - 1 ensures ([""] + rest)[i] != "" { assert ([""] + rest)[i] == gaps[i]; }
  }

  lemma NoSpaceInNothing()
    ensures AllSpace("")
  {
  }

  /** Behind a word, white space that is not empty gives one blank. */
  lemma {:induction false} CollapseGap(gap: string, rest: string)
    requires AllSpace(gap) && (rest == "" || !IsSpace(rest[0]))
    ensures Collapse(gap + rest) == (if gap == "" then "" else " ") + Collapse(rest)
  {
    if gap == "" {
      assert gap + rest == rest;
    } else {
      assert (gap + rest)[1..] == gap[1..] + rest;
      CollapseGap(gap[1..], rest);
      assert |gap| > 1 ==> (gap + rest)[1] == gap[1];
      assert |gap| == 1 ==> gap[1..] == "";
    }
  }

  /** A spread collapses to its words, with a blank at either end where there is white space. */
  lemma {:induction false} CollapseSpread(words: seq<string>, gaps: seq<string>)
    requires |gaps| == |words| + 1 && AreWords(words) && AreGaps(gaps)
    ensures var first, last := if gaps[0] == "" then "" else " ", if gaps[|words|] == "" then "" else " ";
            Collapse(Spread(words, gaps)) == if words == [] then first else first + JoinWords(words) + last
    decreases |words|
  {
    hide Collapse, AllSpace, IsWord;
    if words == [] {
      CollapseSpaces(gaps[0]);
    } else {
      var rest, tail := gaps[1..], Spread(words[1..], gaps[1..]);
      HeadGap(words, gaps);
      CollapseSpread(words[1..], rest);
      CollapseWord(words[0]);
      WordEnds(words[0]);
      CollapseConcat(words[0], tail);
      CollapseGap(gaps[0], words[0] + tail);
      assert Spread(words, gaps) == gaps[0] + (words[0] + tail);
      SpreadParts(words, gaps);
    }
  }

  lemma WordEnds(word: string)
    requires IsWord(word)
    ensures word != "" && !IsSpace(word[0]) && !IsSpace(word[|word| - 1])
  {
  }

  /** The last gap of a spread, and what the first gap of its tail gives. */
  lemma {:induction false} SpreadParts(words: seq<string>, gaps: seq<string>)
    requires words != [] && |gaps| == |words| + 1 && AreGaps(gaps)
    ensures gaps[1..][|words| - 1] == gaps[|words|]
    ensures |words| > 1 ==> gaps[1..][0] != ""
    ensures |words| > 1 ==> JoinWords(words) == words[0] + " " + JoinWords(words[1..])
  {
  }

  lemma {:induction false} TrimAround(first: string, middle: string, last: string)
    requires first in {"", " "} && last in {"", " "} && middle != "" && !IsSpace(middle[0]) && !IsSpace(middle[|middle| - 1])
    ensures Trim(first + middle + last) == middle
  {
    var s := first + middle + last;
    TrimOneSpace();
    TrimEndConcat(middle, last);
    assert TrimStart(middle + last) == middle + last;
    if first == " " {
      assert s[1..] == middle + last;
    } else {
      assert s == middle + last;
    }
  }

  lemma {:induction false} NormalizeSpread(words: seq<string>, gaps: seq<string>)
    requires |gaps| == |words| + 1 && AreWords(words) && AreGaps(gaps)
    ensures Normalize(Spread(words, gaps)) == JoinWords(words)
  {
    hide Collapse, AllSpace, IsWord, Spread, JoinWords, Trim;
    CollapseSpread(words, gaps);
    if words == [] {
      NothingJoined();
    } else {
      WordsEnds(words);
      TrimAround(if gaps[0] == "" then "" else " ", JoinWords(words), if gaps[|words|] == "" then "" else " ");
    }
  }

  lemma NothingJoined()
    ensures JoinWords([]) == "" && Trim("") == "" && Trim(" ") == ""
  {
    assert TrimStart(" ") == "" by { assert " "[1..] == ""; }
  }

  /** Every text is a spread of words. */
  lemma {:induction false} IsSpread(s: string) returns (words: seq<string>, gaps: seq<string>)
    ensures SpreadOf(s, words, gaps)
  {
    if s == "" {
      words, gaps := [], [""];
    } else {
      words, gaps := IsSpread(s[1..]);
      if IsSpace(s[0]) {
        words, gaps := SpaceBefore(s, words, gaps);
      } else {
        words, gaps := CharBefore(s, words, gaps);
      }
    }
  }

  lemma {:induction false} SpaceBefore(s: string, words: seq<string>, gaps: seq<string>) returns (w: seq<string>, g: seq<string>)
    requires s != "" && IsSpace(s[0]) && SpreadOf(s[1..], words, gaps)
    ensures SpreadOf(s, w, g)
  {
    hide IsSpace;
    w, g := words, [[s[0]] + gaps[0]] + gaps[1..];
    assert g[1..] == gaps[1..];
    assert s == [s[0]] + s[1..];
  }

  lemma {:induction false} CharBefore(s: string, words: seq<string>, gaps: seq<string>) returns (w: seq<string>, g: seq<string>)
    requires s != "" && !IsSpace(s[0]) && SpreadOf(s[1..], words, gaps)
    ensures SpreadOf(s, w, g)
  {
    hide IsSpace;
    assert s == [s[0]] + s[1..];
    if gaps[0] == "" && words != [] {
      w, g := [[s[0]] + words[0]] + words[1..], gaps;
      assert w[1..] == words[1..];
    } else {
      w, g := [[s[0]]] + words, [""] + gaps;
      assert w[1..] == words && g[1..] == gaps;
    }
  }

  lemma {:induction false} NormalizeIff(s: string, c: string)
    ensures Normalize(s) == c <==> Squeezed(s, c)
  {
    hide Normalize, Spread, AreGaps, AreWords, JoinWords;
    var words, gaps := IsSpread(s);
    NormalizeSpread(words, gaps);
    if Squeezed(s, c) {
      var w, g :| SpreadOf(s, w, g) && c == JoinWords(w);
      NormalizeSpread(w, g);
    }
  }

  ghost predicate NoAngle(s: string) {
    forall i | 0 <= i < |s| :: s[i] != '>'
  }

  /** `PS`, white space, a path, `>`, and the command. */
  ghost predicate PowerShellBy(line: string, command: string, space: string, path: string, gap: string) {
    && space != "" && AllSpace(space) && path != "" && NoAngle(path) && AllSpace(gap)
    && command != "" && !IsSpace(command[0]) && NoTerminator(command)
    && line == "PS" + space + path + ">" + gap + command
  }

  ghost predicate PowerShell(line: string, command: string) {
    exists space, path, gap :: PowerShellBy(line, command, space, path, gap)
  }

  /** The command behind the prompt of a line, if it has one. */
  ghost predicate Prompted(line: string, command: string) {
    if "$ " <= line then line == "$ " + command
    else if exists c :: PowerShell(line, c) then PowerShell(line, command)
    else command == line
  }

  const PREFIXES: seq<string> := ["corepack ", "git ", "pnpm ", "npm ", "node ", "SPLIT402_", "$env:SPLIT402_"]

  /** What is behind the prompt of the trimmed line, its words joined by single blanks, if it starts like a command. */
  ghost predicate CommandShown(line: string, c: string) {
    && (exists p <- PREFIXES :: p <= c)
    && exists command | Prompted(Trim(line), command) :: Squeezed(command, c)
  }

  lemma {:induction false} FirstIndexOf(a: string, b: string, c: char)
    requires (forall i | 0 <= i < |a| :: a[i] != c) && b != "" && b[0] == c
    ensures FirstIndex(a + b, c) == |a|
  {
    if a == "" {
      assert a + b == b;
    } else {
      assert (a + b)[1..] == a[1..] + b;
      FirstIndexOf(a[1..], b, c);
    }
  }

  lemma SpaceIsNoAngle(s: string)
    requires AllSpace(s)
    ensures NoAngle(s)
  {
  }

  lemma {:induction false} PowerShellStripped(line: string, command: string)
    requires PowerShell(line, command)
    ensures StripPrompt(line) == command && !("$ " <= line)
  {
    hide IsSpace, NoTerminator, TrimStart;
    var space, path, gap :| PowerShellBy(line, command, space, path, gap);
    var head, tail := "PS" + space + path, ">" + gap + command;
    SpaceIsNoAngle(space);
    assert forall i | 0 <= i < |head| :: head[i] != '>';
    assert line == head + tail && tail[0] == '>';
    FirstIndexOf(head, tail, '>');
    assert line[|head| + 1..] == gap + command;
    assert line[2] == space[0];
    TrimStartOf(gap, command);
  }

  lemma {:induction false} PowerShellParts(line: string, g: nat)
    requires 4 <= g < |line| && line[..2] == "PS" && line[g] == '>'
    ensures line == "PS" + line[2..3] + line[3..g] + ">" + line[g + 1..]
  {
    assert line == line[..2] + line[2..] && line[2..] == line[2..3] + line[3..] && line[3..] == line[3..g] + line[g..];
    assert line[g..] == ">" + line[g + 1..];
  }

  lemma Reassociate(head: string, gap: string, command: string)
    ensures head + (gap + command) == head + gap + command
  {
  }

  lemma {:induction false} Assembled(line: string, g: nat, gap: string, command: string)
    requires 4 <= g < |line| && line[..2] == "PS" && IsSpace(line[2]) && line[g] == '>' && line[g + 1..] == gap + command
    requires NoAngle(line[3..g]) && AllSpace(gap) && command != "" && !IsSpace(command[0]) && NoTerminator(command)
    ensures PowerShellBy(line, command, line[2..3], line[3..g], gap)
  {
    hide IsSpace, NoTerminator, AllSpace, NoAngle;
    PowerShellParts(line, g);
    Reassociate("PS" + line[2..3] + line[3..g] + ">", gap, command);
    OneSpace(line[2]);
    assert line[2..3] == [line[2]];
  }

  lemma {:induction false} AngleAt(line: string, g: nat)
    requires 3 <= g <= |line| && forall i | 0 <= i < g :: line[i] != '>'
    ensures NoAngle(line[3..g])
  {
  }

  lemma {:induction false} StrippedIsPowerShell(line: string)
    requires !("$ " <= line) && StripPrompt(line) != line
    ensures PowerShell(line, StripPrompt(line))
  {
    hide IsSpace, NoTerminator, TrimStart, AllSpace, PowerShellBy, NoAngle;
    var g := FirstIndex(line, '>');
    var gap := LeadingSpace(line[g + 1..]);
    AngleAt(line, g);
    Assembled(line, g, gap, StripPrompt(line));
  }

  lemma OneSpace(c: char)
    requires IsSpace(c)
    ensures AllSpace([c])
  {
  }

  lemma {:induction false} PromptIff(line: string, command: string)
    ensures StripPrompt(line) == command <==> Prompted(line, command)
  {
    hide StripPrompt, PowerShell;
    if "$ " <= line {
      DollarStripped(line);
    } else {
      forall c | PowerShell(line, c) ensures StripPrompt(line) == c { PowerShellStripped(line, c); }
      if StripPrompt(line) != line { StrippedIsPowerShell(line); }
    }
  }

  lemma DollarStripped(line: string)
    requires "$ " <= line
    ensures StripPrompt(line) == line[2..] && line == "$ " + line[2..]
  {
  }

  lemma PrefixIff(c: string)
    ensures IsCommandEvidence(c) <==> exists p <- PREFIXES :: p <= c
  {
    var p := PREFIXES;
    assert p[0] in p && p[1] in p && p[2] in p && p[3] in p && p[4] in p && p[5] in p && p[6] in p;
  }

  /** A line is read as a command exactly if it shows one. */
  lemma {:induction false} CommandOfIff(line: string, c: string)
    ensures CommandOf(line) == Some(c) <==> CommandShown(line, c)
  {
    hide StripPrompt, Prompted, Normalize, Squeezed, IsCommandEvidence, Trim, PREFIXES;
    var t := StripPrompt(Trim(line));
    forall command ensures command == t <==> Prompted(Trim(line), command) { PromptIff(Trim(line), command); }
    NormalizeIff(t, c);
    PrefixIff(c);
    EvidenceIsNonEmpty();
  }

  // --- required commands ---------------------------------------------------------------------------------------

  /** `PHASE7_REQUIRED_COMMAND_EVIDENCE`. */
  function RequiredCommands(): seq<seq<string>> {
    [GIT_HEAD, GIT_STATUS, STAGING_INIT, PREFLIGHT, DOCTOR]
    + [DOCTOR + PROFILES, COMPOSE, HEALTH, SEED, APPLY_SEED]
    + [STAGING_PROOF, HOSTED_PREFLIGHT, COLLECT_READS, COLLECT_GATEWAY, GATEWAY_SMOKE]
    + [MCP_BUNDLE, PAID_SUITE, DERIVE_RECEIPT, MANIFEST, ASSEMBLE]
    + [STATUS, LINT, PUBLIC_SURFACE, TYPECHECK, TEST]
    + [BUILD, VECTORS, AUDIT]
  }

  /** The required command and its alternatives. */
  function Accepted(required: seq<string>): seq<seq<string>> {
    [required] + if required == STAGING_INIT then [PRODUCT_INIT] else []
  }

  /** `isRequiredCommandPresent`. */
  predicate IsPresent(commandLines: seq<string>, required: seq<string>) {
    exists a <- Accepted(required), c <- commandLines :: Includes(c, Normalize(JoinWords(a)))
  }

  /** Some line shows a command that has the words of the required one, or of its alternative. */
  ghost predicate ShownBy(text: string, required: seq<string>) {
    exists line <- Split(text), c | CommandShown(line, c) ::
      HasWords(c, required) || (required == STAGING_INIT && HasWords(c, PRODUCT_INIT))
  }

  ghost predicate HasWords(c: string, words: seq<string>) {
    exists s | Squeezed(JoinWords(words), s) :: Holds(c, s)
  }

  ghost function NotShown(text: string, required: seq<seq<string>>): (r: seq<bool>)
    ensures |r| == |required| && forall i | 0 <= i < |r| :: r[i] == !ShownBy(text, required[i])
  {
    seq(|required|, i requires 0 <= i < |required| => !ShownBy(text, required[i]))
  }

  /** The missing commands are those that no line shows, in order. */
  ghost predicate MissingFollow(text: string, required: seq<seq<string>>, missing: seq<seq<string>>, at: seq<nat>) {
    Picks(at, NotShown(text, required)) && |at| == |missing| && forall k | 0 <= k < |at| :: missing[k] == required[at[k]]
  }

  lemma {:induction false} HasWordsIff(c: string, words: seq<string>)
    ensures HasWords(c, words) <==> Includes(c, Normalize(JoinWords(words)))
  {
    hide Normalize, Squeezed, Includes, Holds, JoinWords;
    var s := Normalize(JoinWords(words));
    forall t ensures t == s <==> Squeezed(JoinWords(words), t) { NormalizeIff(JoinWords(words), t); }
    IncludesIff(c, s);
  }

  lemma {:induction false} CommandsIff(lines: seq<string>, c: string)
    ensures c in Commands(lines) <==> exists line <- lines :: CommandShown(line, c)
  {
    hide CommandOf, CommandShown;
    if lines != [] {
      CommandsIff(lines[1..], c);
      CommandOfIff(lines[0], c);
    }
  }

  lemma {:induction false} AcceptedAre(required: seq<string>, a: seq<string>)
    ensures a in Accepted(required) <==> a == required || (required == STAGING_INIT && a == PRODUCT_INIT)
  {
    hide STAGING_INIT, PRODUCT_INIT;
  }

  lemma {:induction false} PresentIff(text: string, required: seq<string>)
    ensures IsPresent(Commands(Split(text)), required) <==> ShownBy(text, required)
  {
    hide Normalize, Includes, HasWords, Commands, Split, CommandShown, Accepted, JoinWords;
    if IsPresent(Commands(Split(text)), required) {
      var a, c :| a in Accepted(required) && c in Commands(Split(text)) && Includes(c, Normalize(JoinWords(a)));
      AcceptedAre(required, a);
      CommandsIff(Split(text), c);
      HasWordsIff(c, a);
    }
    if ShownBy(text, required) {
      var line, c :| line in Split(text) && CommandShown(line, c)
                     && (HasWords(c, required) || (required == STAGING_INIT && HasWords(c, PRODUCT_INIT)));
      var a := if HasWords(c, required) then required else PRODUCT_INIT;
      AcceptedAre(required, a);
      CommandsIff(Split(text), c);
      HasWordsIff(c, a);
    }
  }

  lemma {:induction false} AbsentFollow(text: string, required: seq<seq<string>>) returns (at: seq<nat>)
    ensures MissingFollow(text, required, Absent(Commands(Split(text)), required), at)
  {
    hide IsPresent, ShownBy, Commands, Split, Picks;
    if required == [] {
      at := [];
      NothingPicked(NotShown(text, required));
    } else {
      var n := |required| - 1;
      at := AbsentFollow(text, required[..n]);
      PresentIff(text, required[n]);
      var b := !ShownBy(text, required[n]);
      PicksAre(at, NotShown(text, required[..n]));
      PicksAppend(at, NotShown(text, required[..n]), b);
      assert NotShown(text, required) == NotShown(text, required[..n]) + [b];
      at := if b then at + [n] else at;
    }
  }

  /** The required commands that a transcript does not show, in order: the loop over the required
      commands in `validatePhase7CommandEvidence`. */
  method MissingRequired(text: string) returns (missing: seq<seq<string>>)
    ensures missing == Absent(Commands(Split(text)), RequiredCommands())
    ensures exists at :: MissingFollow(text, RequiredCommands(), missing, at)
  {
    hide MissingFollow, RequiredCommands, IsPresent, Split, Commands;
    var commandLines := Commands(Split(text));
    var required := RequiredCommands();
    missing := [];
    assert required[..0] == [];
    for i := 0 to |required|
      invariant missing == Absent(commandLines, required[..i])
    {
      assert required[..i + 1][..i] == required[..i];
      if !IsPresent(commandLines, required[i]) {
        missing := missing + [required[i]];
      }
    }
    assert required[..|required|] == required;
    ghost var at := AbsentFollow(text, required);
  }

  function Absent(commandLines: seq<string>, required: seq<seq<string>>): seq<seq<string>> {
    if required == [] then []
    else
      var n := |required| - 1;
      Absent(commandLines, required[..n]) + if IsPresent(commandLines, required[n]) then [] else [required[n]]
  }

  lemma {:induction false} NothingAbsent(commandLines: seq<string>, required: seq<seq<string>>)
    ensures Absent(commandLines, required) == [] <==> forall r <- required :: IsPresent(commandLines, r)
  {
    hide IsPresent;
    if required != [] {
      var n := |required| - 1;
      NothingAbsent(commandLines, required[..n]);
      assert required == required[..n] + [required[n]];
    }
  }

  // --- a hosted recording shows every required command ----------------------------------------------------

  predicate StartsCommand(words: seq<string>) {
    |words| >= 2 && AreWords(words) && (words[0] == "git" || words[0] == "corepack")
  }

  lemma {:induction false} Recognised(words: seq<string>, rest: string)
    requires StartsCommand(words)
    ensures IsCommandEvidence(Normalize(JoinWords(words) + rest))
  {
    hide Normalize;
    NormalizeWords(words, rest);
    var c := Normalize(JoinWords(words) + rest);
    var first := words[0] + " ";
    assert JoinWords(words) == first + JoinWords(words[1..]);
    assert c[..|first|] == JoinWords(words)[..|first|] == first;
  }

  /** A command that begins with the words of a required one is recognised and shows it. */
  lemma {:induction false} Shows(words: seq<string>, required: seq<string>)
    requires StartsCommand(required) && required <= words
    ensures CommandOf("$ " + JoinWords(words)) == Some(Normalize(JoinWords(words)))
    ensures Includes(Normalize(JoinWords(words)), Normalize(JoinWords(required)))
  {
    hide Normalize, JoinWords, IsCommandEvidence, AreWords;
    JoinPrefix(words, required);
    var text, prefix := JoinWords(words), JoinWords(required);
    var rest := text[|prefix|..];
    assert text == prefix + rest;
    WordsEnds(required);
    Recognised(required, rest);
    PromptedCommand(text);
    NormalizeWords(required, rest);
    NormalizeWords(required, "");
    assert OccursAt(Normalize(text), prefix, 0);
  }

  /** Some command begins with the words of r or of an alternative to it. */
  predicate Covers(commands: seq<CommandSpec>, r: seq<string>) {
    exists c <- commands, a <- Accepted(r) :: a <= c.words && StartsCommand(a)
  }

  lemma {:induction false} CoverBy(commands: seq<CommandSpec>, c: CommandSpec, r: seq<string>)
    requires c in commands && r <= c.words && StartsCommand(r)
    ensures Covers(commands, r)
  {
    assert r in Accepted(r);
  }

  lemma {:induction false} ScriptStartsCommand(script: string, args: seq<string>)
    requires IsWord(script) && AreWords(args)
    ensures StartsCommand(Pnpm(script, args))
  {
    assert IsWord("corepack") && IsWord("pnpm");
  }

  lemma {:induction false} ScriptInFamily(family: string, name: string, args: seq<string>)
    requires IsWord(family) && IsWord(name) && AreWords(args)
    ensures StartsCommand(Pnpm(family + name, args))
  {
    hide StartsCommand;
    assert IsWord(family + name);
    ScriptStartsCommand(family + name, args);
  }

  lemma {:induction false} FamiliesAreWords()
    ensures IsWord(STAGING) && IsWord(DOCKER) && IsWord(DEMO) && IsWord(PRODUCT)
  {
  }

  lemma {:induction false} AreWordsConcat(a: seq<string>, b: seq<string>)
    requires AreWords(a) && AreWords(b)
    ensures AreWords(a + b)
  {
  }

  lemma {:induction false} ProfilesAreWords()
    ensures AreWords(PROFILES) && AreWords(["--brief"])
  {
    assert IsWord("--profile") && IsWord("demo") && IsWord("workers") && IsWord("--brief");
    AreWordsConcat(["--profile", "demo"], ["--profile", "workers"]);
  }

  lemma {:induction false} SeedScripts()
    ensures StartsCommand(SEED) && StartsCommand(APPLY_SEED) && StartsCommand(STAGING_PROOF)
  {
    hide StartsCommand;
    FamiliesAreWords();
    ScriptInFamily(STAGING, ":seed", []);
    ScriptInFamily(STAGING, ":apply-seed-env", []);
    ScriptInFamily(STAGING, "-proof", []);
  }

  lemma {:induction false} ProofScripts()
    ensures StartsCommand(MANIFEST) && StartsCommand(ASSEMBLE) && StartsCommand(STATUS)
  {
    hide StartsCommand;
    FamiliesAreWords();
    ScriptInFamily(STAGING, ":manifest", []);
    ScriptInFamily(STAGING, ":assemble", []);
    ScriptInFamily(STAGING, ":status", []);
  }

  lemma CollectWords()
    ensures IsWord(":collect-reads") && IsWord(":collect-mcp-gateway")
  {
  }

  lemma DeriveIsWord()
    ensures IsWord(":derive-receipt-verification")
  {
  }

  lemma {:induction false} CollectScripts()
    ensures StartsCommand(COLLECT_READS) && StartsCommand(COLLECT_GATEWAY) && StartsCommand(DERIVE_RECEIPT)
  {
    hide StartsCommand, IsWord;
    FamiliesAreWords();
    CollectWords();
    DeriveIsWord();
    ScriptInFamily(STAGING, ":collect-reads", []);
    ScriptInFamily(STAGING, ":collect-mcp-gateway", []);
    ScriptInFamily(STAGING, ":derive-receipt-verification", []);
  }

  lemma DemoWords()
    ensures IsWord(":mcp-bundle") && IsWord(":paid-suite") && IsWord(":mcp-gateway:smoke")
  {
  }

  lemma HostedIsWord()
    ensures IsWord("phase7:hosted:preflight")
  {
  }

  lemma {:induction false} DemoScripts()
    ensures StartsCommand(HOSTED_PREFLIGHT) && StartsCommand(MCP_BUNDLE) && StartsCommand(PAID_SUITE)
    ensures StartsCommand(GATEWAY_SMOKE)
  {
    hide StartsCommand, IsWord;
    FamiliesAreWords();
    DemoWords();
    HostedIsWord();
    ScriptStartsCommand("phase7:hosted:preflight", []);
    ScriptInFamily(DEMO, ":mcp-bundle", []);
    ScriptInFamily(DEMO, ":paid-suite", []);
    ScriptInFamily(DEMO, ":mcp-gateway:smoke", []);
  }

  lemma {:induction false} DockerScripts()
    ensures StartsCommand(DOCTOR) && StartsCommand(DOCTOR + PROFILES) && StartsCommand(COMPOSE) && StartsCommand(HEALTH)
  {
    hide StartsCommand, PROFILES;
    FamiliesAreWords();
    ProfilesAreWords();
    AreWordsConcat(["--brief"], PROFILES);
    assert IsWord("up");
    AreWordsConcat(["up", "--brief"], PROFILES);
    ScriptInFamily(DOCKER, ":doctor", ["--brief"]);
    ScriptInFamily(DOCKER, ":doctor", ["--brief"] + PROFILES);
    assert DOCTOR + PROFILES == Pnpm(DOCKER + ":doctor", ["--brief"] + PROFILES);
    ScriptInFamily(DOCKER, ":compose", ["up", "--brief"] + PROFILES);
    ScriptInFamily(DOCKER, ":health", ["--brief"] + PROFILES);
  }

  lemma ProductWords()
    ensures IsWord(":launch-preflight") && IsWord(":evidence:init")
  {
  }

  lemma SurfaceIsWord()
    ensures IsWord(":public-surface-check")
  {
  }

  lemma PreflightArguments()
    ensures AreWords(["--brief", "--workspace", WORKSPACE]) && AreWords(["--brief"])
  {
    hide WORKSPACE;
    WorkspaceIsWord();
    assert IsWord("--workspace") && IsWord("--brief");
  }

  lemma WorkspaceIsWord()
    ensures IsWord(WORKSPACE)
  {
  }

  lemma {:induction false} ProductScripts()
    ensures StartsCommand(PREFLIGHT) && StartsCommand(PRODUCT_INIT) && StartsCommand(PUBLIC_SURFACE)
  {
    hide StartsCommand, IsWord, AreWords, WORKSPACE;
    FamiliesAreWords();
    ProductWords();
    SurfaceIsWord();
    PreflightArguments();
    NoArguments();
    ScriptInFamily(PRODUCT, ":launch-preflight", ["--brief", "--workspace", WORKSPACE]);
    ScriptInFamily(PRODUCT, ":evidence:init", []);
    ScriptInFamily(PRODUCT, ":public-surface-check", ["--brief"]);
  }

  lemma NoArguments()
    ensures AreWords([])
  {
  }

  lemma GitWords()
    ensures IsWord("git") && IsWord("rev-parse") && IsWord("HEAD") && IsWord("status") && IsWord("--short") && IsWord("--branch")
  {
  }

  lemma {:induction false} GitCommands()
    ensures StartsCommand(GIT_HEAD) && StartsCommand(GIT_STATUS)
  {
    hide IsWord;
    GitWords();
  }

  lemma LocalWords()
    ensures IsWord("lint") && IsWord("typecheck") && IsWord("test") && IsWord("build") && IsWord("vectors:check") && IsWord("audit")
  {
  }

  lemma AuditArguments()
    ensures AreWords(["--audit-level", "high"])
  {
    assert IsWord("--audit-level") && IsWord("high");
  }

  lemma {:induction false} LocalScripts()
    ensures StartsCommand(LINT) && StartsCommand(TYPECHECK) && StartsCommand(TEST)
    ensures StartsCommand(BUILD) && StartsCommand(VECTORS) && StartsCommand(AUDIT)
  {
    hide StartsCommand, IsWord, AreWords;
    LocalWords();
    AuditArguments();
    NoArguments();
    ScriptStartsCommand("lint", []);
    ScriptStartsCommand("typecheck", []);
    ScriptStartsCommand("test", []);
    ScriptStartsCommand("build", []);
    ScriptStartsCommand("vectors:check", []);
    ScriptStartsCommand("audit", ["--audit-level", "high"]);
  }

  lemma {:induction false} LocalIsCovered(commands: seq<CommandSpec>)
    requires forall c <- LocalCommands() :: c in commands
    ensures forall r <- [GIT_HEAD, GIT_STATUS, GATEWAY_SMOKE, LINT, PUBLIC_SURFACE] :: Covers(commands, r)
    ensures forall r <- [TYPECHECK, TEST, BUILD, VECTORS, AUDIT] :: Covers(commands, r)
  {
    hide StartsCommand, Covers;
    GitCommands();
    LocalScripts();
    DemoScripts();
    ProductScripts();
    CoverBy(commands, Plain(GIT_HEAD), GIT_HEAD);
    CoverBy(commands, Plain(GIT_STATUS), GIT_STATUS);
    CoverBy(commands, Plain(GATEWAY_SMOKE), GATEWAY_SMOKE);
    CoverBy(commands, Plain(LINT), LINT);
    CoverBy(commands, Plain(PUBLIC_SURFACE), PUBLIC_SURFACE);
    CoverBy(commands, Plain(TYPECHECK), TYPECHECK);
    CoverBy(commands, Plain(TEST), TEST);
    CoverBy(commands, Plain(BUILD), BUILD);
    CoverBy(commands, Plain(VECTORS), VECTORS);
    CoverBy(commands, Plain(AUDIT), AUDIT);
  }

  lemma {:induction false} HostedIsCovered(commands: seq<CommandSpec>, p: Paths)
    requires forall c <- HostedCommands(p) :: c in commands
    ensures forall r <- [STAGING_INIT, DOCTOR, DOCTOR + PROFILES, COMPOSE, HEALTH] :: Covers(commands, r)
    ensures forall r <- [SEED, APPLY_SEED, STAGING_PROOF, HOSTED_PREFLIGHT] :: Covers(commands, r)
    ensures forall r <- [COLLECT_READS, COLLECT_GATEWAY, MCP_BUNDLE, PAID_SUITE] :: Covers(commands, r)
    ensures forall r <- [DERIVE_RECEIPT, MANIFEST, ASSEMBLE, STATUS] :: Covers(commands, r)
  {
    FirstHostedAreCovered(commands, p);
    SeedsAreCovered(commands, p);
    CollectorsAreCovered(commands, p);
    LastHostedAreCovered(commands, p);
  }

  lemma {:induction false} FirstHostedAreCovered(commands: seq<CommandSpec>, p: Paths)
    requires forall c <- HostedCommands(p) :: c in commands
    ensures forall r <- [STAGING_INIT, DOCTOR, DOCTOR + PROFILES, COMPOSE, HEALTH] :: Covers(commands, r)
  {
    hide StartsCommand, Covers;
    InitIsCovered(commands, Plain(PRODUCT_INIT + ["--missing"]));
    DockerScripts();
    CoverBy(commands, Plain(DOCTOR), DOCTOR);
    CoverBy(commands, Plain(DOCTOR + PROFILES), DOCTOR + PROFILES);
    CoverBy(commands, Plain(COMPOSE), COMPOSE);
    CoverBy(commands, CommandSpec(HEALTH, None, 12, None), HEALTH);
  }

  /** The workspace command stands in for the staging one. */
  lemma {:induction false} InitIsCovered(commands: seq<CommandSpec>, c: CommandSpec)
    requires c in commands && PRODUCT_INIT <= c.words
    ensures Covers(commands, STAGING_INIT)
  {
    hide StartsCommand, PRODUCT_INIT;
    ProductScripts();
    assert PRODUCT_INIT in Accepted(STAGING_INIT);
  }

  lemma {:induction false} SeedsAreCovered(commands: seq<CommandSpec>, p: Paths)
    requires forall c <- HostedCommands(p) :: c in commands
    ensures forall r <- [SEED, APPLY_SEED, STAGING_PROOF, HOSTED_PREFLIGHT] :: Covers(commands, r)
  {
    hide StartsCommand, Covers;
    SeedScripts();
    DemoScripts();
    CoverBy(commands, CommandSpec(SEED, Some(p.seedOutputPath), 1, None), SEED);
    CoverBy(commands, Plain(APPLY_SEED + ["--seed-output", p.seedOutputPath]), APPLY_SEED);
    CoverBy(commands, Plain(STAGING_PROOF + p.EnvArgs() + [p.proofPath]), STAGING_PROOF);
    CoverBy(commands, Plain(HOSTED_PREFLIGHT + p.EnvArgs()), HOSTED_PREFLIGHT);
  }

  lemma {:induction false} CollectorsAreCovered(commands: seq<CommandSpec>, p: Paths)
    requires forall c <- HostedCommands(p) :: c in commands
    ensures forall r <- [COLLECT_READS, COLLECT_GATEWAY, MCP_BUNDLE, PAID_SUITE] :: Covers(commands, r)
  {
    hide StartsCommand, Covers;
    CollectScripts();
    DemoScripts();
    CoverBy(commands, Plain(COLLECT_READS + p.EnvArgs()), COLLECT_READS);
    CoverBy(commands, Plain(COLLECT_GATEWAY + p.EnvArgs()), COLLECT_GATEWAY);
    CoverBy(commands, Plain(MCP_BUNDLE + [p.Artifact("mcp-bundle.json")]), MCP_BUNDLE);
    CoverBy(commands, Plain(PAID_SUITE + [p.Artifact("paid-suite.log")]), PAID_SUITE);
  }

  lemma {:induction false} LastHostedAreCovered(commands: seq<CommandSpec>, p: Paths)
    requires forall c <- HostedCommands(p) :: c in commands
    ensures forall r <- [DERIVE_RECEIPT, MANIFEST, ASSEMBLE, STATUS] :: Covers(commands, r)
  {
    hide StartsCommand, Covers;
    CollectScripts();
    ProofScripts();
    CoverBy(commands, Plain(DERIVE_RECEIPT + p.EnvArgs() + [p.Artifact("paid-suite.log"), p.Artifact("receipt-verification.json")]), DERIVE_RECEIPT);
    CoverBy(commands, Plain(MANIFEST + [p.proofPath, p.Artifact("artifact-manifest.json")]), MANIFEST);
    CoverBy(commands, Plain(ASSEMBLE + p.EnvArgs() + [p.proofPath]), ASSEMBLE);
    CoverBy(commands, HostedCommands(p)[16], STATUS);
  }

  /** Every required command is among the commands of a hosted recording. */
  lemma {:induction false} RequiredAreCovered(includePreflight: bool, p: Paths)
    ensures forall r <- RequiredCommands() :: Covers(CommandsFor(true, includePreflight, p), r)
  {
    hide StartsCommand, Covers, HostedCommands, LocalCommands;
    var commands := CommandsFor(true, includePreflight, p);
    ProductScripts();
    CoverBy(commands, Plain(PREFLIGHT), PREFLIGHT);
    LocalIsCovered(commands);
    HostedIsCovered(commands, p);
  }

  predicate SingleLine(s: string) {
    IsLine(s) && '\r' !in s
  }

  predicate SingleLinePaths(p: Paths) {
    SingleLine(p.evidenceDirectory) && SingleLine(p.evidenceEnvFile) && SingleLine(p.proofPath) && SingleLine(p.seedOutputPath)
  }

  predicate SingleLineWords(words: seq<string>) {
    forall i | 0 <= i < |words| :: SingleLine(words[i])
  }

  lemma {:induction false} SingleLineConcat(a: string, b: string)
    requires SingleLine(a) && SingleLine(b)
    ensures SingleLine(a + b)
  {
  }

  lemma {:induction false} JoinWordsIsLine(words: seq<string>)
    requires SingleLineWords(words)
    ensures SingleLine(JoinWords(words))
  {
    hide SingleLine;
    BlankIsSingleLine();
    if |words| > 1 {
      JoinWordsIsLine(words[1..]);
      SingleLineConcat(words[0], " ");
      SingleLineConcat(words[0] + " ", JoinWords(words[1..]));
    }
  }

  lemma BlankIsSingleLine()
    ensures SingleLine(" ") && SingleLine("") && SingleLine("/")
  {
  }

  lemma {:induction false} TrimmedOutputs(result: RunResult, acceptable: bool, redact: string -> string)
    ensures NoFinalCr(Outputs(result, acceptable, redact))
  {
    hide TrimEnd, ExitLine, EndsWithCr, NonEmpty;
    TrimEndHasNoCr(redact(result.stdout));
    TrimEndHasNoCr(redact(result.stderr));
    ExitLineEnd(result.exitCode, acceptable);
    EmptyHasNoCr();
    NonEmptyKeepsNoFinalCr([TrimEnd(redact(result.stdout)), TrimEnd(redact(result.stderr)), ExitLine(result.exitCode, acceptable), ""]);
  }

  lemma TrimEndHasNoCr(s: string)
    ensures !EndsWithCr(TrimEnd(s))
  {
    TrimEndIs(s);
  }

  lemma EmptyHasNoCr()
    ensures !EndsWithCr("")
  {
  }

  lemma {:induction false} ExitLineEnd(exitCode: int, acceptable: bool)
    ensures !EndsWithCr(ExitLine(exitCode, acceptable))
  {
    var text := Json.IntText(exitCode);
    assert IsDigit(text[|text| - 1]);
  }

  lemma {:induction false} NonEmptyKeepsNoFinalCr(parts: seq<string>)
    requires NoFinalCr(parts)
    ensures NoFinalCr(NonEmpty(parts))
  {
    if parts != [] {
      NonEmptyKeepsNoFinalCr(parts[1..]);
    }
  }

  /** A recorded command line stands alone on a line of the transcript. */
  lemma {:induction false} CommandLineShown(recorded: seq<Printed>, i: nat)
    requires forall p <- recorded :: IsSplittable(p)
    requires i < |recorded|
    ensures "$ " + recorded[i].command in SplitAll(BlockTexts(recorded))
    decreases |recorded|
  {
    hide Split, BlockText, IsSplittable;
    var p, more := recorded[0], recorded[1..];
    assert p in recorded && forall q <- more :: q in recorded;
    SplitAllCons(BlockText(p), BlockTexts(more));
    if i == 0 {
      SplitBlock(p);
    } else {
      CommandLineShown(more, i - 1);
    }
  }

  lemma {:induction false} ShownIsCommand(lines: seq<string>, line: string)
    requires line in lines && CommandOf(line).Some?
    ensures CommandOf(line).value in Commands(lines)
  {
    hide CommandOf;
    var i :| 0 <= i < |lines| && lines[i] == line;
  }

  predicate SingleLineCommands(commands: seq<CommandSpec>) {
    forall c <- commands :: SingleLineWords(c.words)
  }

  /** A transcript shows every required command that its recorded commands cover, whatever they print. */
  lemma {:induction false} CoveredIsPresent(commands: seq<CommandSpec>, results: seq<RunResult>, redact: string -> string,
                                            header: seq<string>, r: seq<string>)
    requires |commands| == |results| && SingleLineCommands(commands)
    requires header != [] && NoFinalCr(header) && Covers(commands, r)
    ensures IsPresent(Commands(Split(TranscriptText(header, Recorded(commands, results, redact)))), r)
  {
    hide Split, TranscriptText, CommandOf, Commands, StartsCommand, Normalize, JoinWords, SplitAll, BlockTexts, Includes;
    var recorded := Recorded(commands, results, redact);
    var c, a :| c in commands && a in Accepted(r) && a <= c.words && StartsCommand(a);
    RecordedAreSplittable(commands, results, redact);
    var lines := SplitTranscript(header, recorded);
    var i :| 0 <= i < |commands| && commands[i] == c;
    CommandLineShown(recorded, i);
    assert recorded[i].command == JoinWords(c.words);
    var line := "$ " + JoinWords(c.words);
    assert line in lines;
    Shows(c.words, a);
    ShownIsCommand(lines, line);
  }

  lemma {:induction false} RecordedAreSplittable(commands: seq<CommandSpec>, results: seq<RunResult>, redact: string -> string)
    requires |commands| == |results| && SingleLineCommands(commands)
    ensures forall p <- Recorded(commands, results, redact) :: IsSplittable(p)
  {
    hide JoinWords, Outputs;
    var recorded := Recorded(commands, results, redact);
    forall p <- recorded
      ensures IsSplittable(p)
    {
      var i :| 0 <= i < |recorded| && recorded[i] == p;
      assert commands[i] in commands;
      JoinWordsIsLine(commands[i].words);
      TrimmedOutputs(results[i], IsAcceptable(commands[i], results[i]), redact);
    }
  }

  // --- the commands themselves -------------------------------------------------------------------------------

  /** A single-line command that begins like one the checker recognises. */
  predicate IsRecognisable(c: CommandSpec) {
    && SingleLineWords(c.words)
    && exists n | 0 <= n <= |c.words| :: StartsCommand(c.words[..n])
  }

  lemma {:induction false} RecognisableBy(c: CommandSpec, start: seq<string>, rest: seq<string>)
    requires StartsCommand(start) && c.words == start + rest && SingleLineWords(rest)
    ensures IsRecognisable(c)
  {
    assert c.words[..|start|] == start;
    forall i | 0 <= i < |c.words|
      ensures SingleLine(c.words[i])
    {
      assert c.words[i] == (if i < |start| then start[i] else rest[i - |start|]);
      assert i < |start| ==> IsWord(start[i]);
    }
  }

  lemma {:induction false} RecognisableAlone(c: CommandSpec)
    requires StartsCommand(c.words)
    ensures IsRecognisable(c)
  {
    hide StartsCommand;
    assert c.words == c.words + [];
    RecognisableBy(c, c.words, []);
  }

  lemma {:induction false} LocalAreRecognisable()
    ensures forall c <- LocalCommands() :: IsRecognisable(c)
  {
    hide StartsCommand, IsRecognisable;
    GitCommands();
    LocalScripts();
    DemoScripts();
    ProductScripts();
    RecognisableAlone(Plain(GIT_HEAD));
    RecognisableAlone(Plain(GIT_STATUS));
    RecognisableAlone(Plain(GATEWAY_SMOKE));
    RecognisableAlone(Plain(LINT));
    RecognisableAlone(Plain(PUBLIC_SURFACE));
    RecognisableAlone(Plain(TYPECHECK));
    RecognisableAlone(Plain(TEST));
    RecognisableAlone(Plain(BUILD));
    RecognisableAlone(Plain(VECTORS));
    RecognisableAlone(Plain(AUDIT));
  }

  lemma {:induction false} OptionsAreSingleLine()
    ensures SingleLine("--missing") && SingleLine("--seed-output") && SingleLine("--evidence-env-file") && SingleLine("--brief")
  {
  }

  lemma {:induction false} ArtifactsAreSingleLine(p: Paths)
    requires SingleLinePaths(p)
    ensures SingleLine(p.Artifact("mcp-bundle.json")) && SingleLine(p.Artifact("paid-suite.log"))
    ensures SingleLine(p.Artifact("receipt-verification.json")) && SingleLine(p.Artifact("artifact-manifest.json"))
  {
    BlankIsSingleLine();
    assert SingleLine("mcp-bundle.json") && SingleLine("paid-suite.log");
    assert SingleLine("receipt-verification.json") && SingleLine("artifact-manifest.json");
    hide SingleLine;
    SingleLineConcat(p.evidenceDirectory, "/");
    SingleLineConcat(p.evidenceDirectory + "/", "mcp-bundle.json");
    SingleLineConcat(p.evidenceDirectory + "/", "paid-suite.log");
    SingleLineConcat(p.evidenceDirectory + "/", "receipt-verification.json");
    SingleLineConcat(p.evidenceDirectory + "/", "artifact-manifest.json");
  }

  lemma {:induction false} FirstHostedAreRecognisable(p: Paths)
    requires SingleLinePaths(p)
    ensures forall c <- HostedCommands(p)[..5] :: IsRecognisable(c)
  {
    hide StartsCommand, IsRecognisable, SingleLine;
    var five := [Plain(PRODUCT_INIT + ["--missing"]), Plain(DOCTOR), Plain(DOCTOR + PROFILES), Plain(COMPOSE), CommandSpec(HEALTH, None, 12, None)];
    assert HostedCommands(p)[..5] == five;
    OptionsAreSingleLine();
    ProductScripts();
    DockerScripts();
    RecognisableBy(Plain(PRODUCT_INIT + ["--missing"]), PRODUCT_INIT, ["--missing"]);
    RecognisableAlone(Plain(DOCTOR));
    RecognisableAlone(Plain(DOCTOR + PROFILES));
    RecognisableAlone(Plain(COMPOSE));
    RecognisableAlone(CommandSpec(HEALTH, None, 12, None));
  }

  lemma {:induction false} SeedsAreRecognisable(p: Paths)
    requires SingleLinePaths(p)
    ensures forall c <- HostedCommands(p)[5..10] :: IsRecognisable(c)
  {
    hide StartsCommand, IsRecognisable, SingleLine;
    var five := [
      CommandSpec(SEED, Some(p.seedOutputPath), 1, None),
      Plain(APPLY_SEED + ["--seed-output", p.seedOutputPath]),
      Plain(STAGING_PROOF + p.EnvArgs() + [p.proofPath]),
      Plain(HOSTED_PREFLIGHT + p.EnvArgs()),
      Plain(MCP_BUNDLE + [p.Artifact("mcp-bundle.json")])];
    assert HostedCommands(p)[5..10] == five;
    OptionsAreSingleLine();
    ArtifactsAreSingleLine(p);
    SeedScripts();
    DemoScripts();
    RecognisableAlone(five[0]);
    RecognisableBy(five[1], APPLY_SEED, ["--seed-output", p.seedOutputPath]);
    assert STAGING_PROOF + p.EnvArgs() + [p.proofPath] == STAGING_PROOF + (p.EnvArgs() + [p.proofPath]);
    RecognisableBy(five[2], STAGING_PROOF, p.EnvArgs() + [p.proofPath]);
    RecognisableBy(five[3], HOSTED_PREFLIGHT, p.EnvArgs());
    RecognisableBy(five[4], MCP_BUNDLE, [p.Artifact("mcp-bundle.json")]);
  }

  lemma {:induction false} CollectorsAreRecognisable(p: Paths)
    requires SingleLinePaths(p)
    ensures forall c <- HostedCommands(p)[10..15] :: IsRecognisable(c)
  {
    hide StartsCommand, IsRecognisable, SingleLine;
    var derived := [p.Artifact("paid-suite.log"), p.Artifact("receipt-verification.json")];
    var five := [
      Plain(PAID_SUITE + [p.Artifact("paid-suite.log")]),
      Plain(DERIVE_RECEIPT + p.EnvArgs() + derived),
      Plain(COLLECT_GATEWAY + p.EnvArgs()),
      Plain(COLLECT_READS + p.EnvArgs()),
      Plain(MANIFEST + [p.proofPath, p.Artifact("artifact-manifest.json")])];
    assert HostedCommands(p)[10..15] == five;
    OptionsAreSingleLine();
    ArtifactsAreSingleLine(p);
    CollectScripts();
    DemoScripts();
    ProofScripts();
    RecognisableBy(five[0], PAID_SUITE, [p.Artifact("paid-suite.log")]);
    assert DERIVE_RECEIPT + p.EnvArgs() + derived == DERIVE_RECEIPT + (p.EnvArgs() + derived);
    RecognisableBy(five[1], DERIVE_RECEIPT, p.EnvArgs() + derived);
    RecognisableBy(five[2], COLLECT_GATEWAY, p.EnvArgs());
    RecognisableBy(five[3], COLLECT_READS, p.EnvArgs());
    RecognisableBy(five[4], MANIFEST, [p.proofPath, p.Artifact("artifact-manifest.json")]);
  }

  lemma {:induction false} LastHostedAreRecognisable(p: Paths)
    requires SingleLinePaths(p)
    ensures |HostedCommands(p)| == 17
    ensures forall c <- HostedCommands(p)[15..] :: IsRecognisable(c)
  {
    hide StartsCommand, IsRecognisable, SingleLine;
    var last := HostedCommands(p)[15..];
    assert last[0] == Plain(ASSEMBLE + p.EnvArgs() + [p.proofPath]);
    assert last[1].words == STATUS + ["--brief", p.proofPath];
    OptionsAreSingleLine();
    ProofScripts();
    assert ASSEMBLE + p.EnvArgs() + [p.proofPath] == ASSEMBLE + (p.EnvArgs() + [p.proofPath]);
    RecognisableBy(last[0], ASSEMBLE, p.EnvArgs() + [p.proofPath]);
    RecognisableBy(last[1], STATUS, ["--brief", p.proofPath]);
  }

  /** Every command the recorder runs, with single-line paths, is recognisable. */
  lemma {:induction false} CommandsAreRecognisable(includeHosted: bool, includePreflight: bool, p: Paths)
    requires SingleLinePaths(p)
    ensures forall c <- CommandsFor(includeHosted, includePreflight, p) :: IsRecognisable(c)
  {
    hide StartsCommand, IsRecognisable, SingleLine, HostedCommands, LocalCommands;
    ProductScripts();
    RecognisableAlone(Plain(PREFLIGHT));
    LocalAreRecognisable();
    LastHostedAreRecognisable(p);
    CollectorsAreRecognisable(p);
    SeedsAreRecognisable(p);
    FirstHostedAreRecognisable(p);
    var h := HostedCommands(p);
    assert h == h[..5] + h[5..10] + h[10..15] + h[15..];
  }

  // --- the two results on the recorder's own text ----------------------------------------------------------------

  /** The comment lines of the header are single lines that start with `#`. */
  predicate IsHeaderInput(input: Input) {
    && (forall line <- input.banner :: line != "" && line[0] == '#' && SingleLine(line))
    && SingleLine(input.generatedAt)
  }

  lemma {:induction false} HeaderIsQuiet(input: Input)
    requires IsHeaderInput(input)
    ensures Header(input) != [] && NoFinalCr(Header(input)) && Quiet(SplitAll(Header(input)))
  {
    hide Split, CommandOf;
    var stamp := "# generated_at: " + input.generatedAt;
    assert SingleLine("# generated_at: ") && stamp[0] == '#';
    SingleLineConcat("# generated_at: ", input.generatedAt);
    var header := Header(input);
    forall line <- header
      ensures IsLine(line) && CommandOf(line).None? && !EndsWithCr(line)
    {
      BlankIsQuiet();
      if line != "" { CommentIsQuiet(line); }
    }
    QuietSingles(header);
  }

  lemma {:induction false} QuietSingles(lines: seq<string>)
    requires forall line <- lines :: IsLine(line) && CommandOf(line).None?
    ensures Quiet(SplitAll(lines))
  {
    hide Split, CommandOf;
    if lines != [] {
      assert lines[0] in lines && forall l <- lines[1..] :: l in lines;
      SplitLine(lines[0]);
      QuietSingles(lines[1..]);
    }
  }

  /** A hosted recording shows every required command, whatever the commands print, how often they are
      run, and whatever single-line paths are used. */
  lemma {:induction false} HostedRecordingIsComplete(input: Input, run: nat -> nat -> RunResult, redact: string -> string)
    requires input.includeHosted && SingleLinePaths(input.paths) && IsHeaderInput(input)
    ensures var commands := CommandsFor(true, input.includePreflight, input.paths);
            Absent(Commands(Split(TranscriptText(Header(input), Recorded(commands, Results(commands, run), redact)))),
                   RequiredCommands()) == []
  {
    hide Split, TranscriptText, Commands, RequiredCommands, Covers, IsPresent, CommandsFor, Results, Recorded, StartsCommand;
    var commands := CommandsFor(true, input.includePreflight, input.paths);
    var results := Results(commands, run);
    CommandsAreRecognisable(true, input.includePreflight, input.paths);
    RequiredAreCovered(input.includePreflight, input.paths);
    HeaderIsQuiet(input);
    var lines := Commands(Split(TranscriptText(Header(input), Recorded(commands, results, redact))));
    forall r <- RequiredCommands()
      ensures IsPresent(lines, r)
    {
      CoveredIsPresent(commands, results, redact, Header(input), r);
    }
    NothingAbsent(lines, RequiredCommands());
  }

  /** No line of the redacted output looks like a command. */
  predicate IsQuietResult(result: RunResult, redact: string -> string) {
    Quiet(Split(TrimEnd(redact(result.stdout)))) && Quiet(Split(TrimEnd(redact(result.stderr))))
  }

  lemma {:induction false} OutputsAreQuiet(result: RunResult, acceptable: bool, redact: string -> string)
    requires IsQuietResult(result, redact)
    ensures Quiet(SplitAll(Outputs(result, acceptable, redact)))
  {
    hide Split, CommandOf;
    var exit := ExitLine(result.exitCode, acceptable);
    ExitLineIsQuiet(result.exitCode, acceptable);
    SplitLine("");
    BlankIsQuiet();
    var parts := [TrimEnd(redact(result.stdout)), TrimEnd(redact(result.stderr)), exit, ""];
    assert forall part <- parts :: Quiet(Split(part));
    QuietParts(parts);
  }

  lemma {:induction false} QuietParts(parts: seq<string>)
    requires forall part <- parts :: Quiet(Split(part))
    ensures Quiet(SplitAll(NonEmpty(parts)))
    decreases |parts|
  {
    hide Split, CommandOf, Quiet, NonEmpty, SplitAll;
    if parts == [] {
      NothingNonEmpty();
      NothingToSplit();
      QuietConcat([], []);
      assert parts == [] && [] + [] == SplitAll(NonEmpty([]));
    } else {
      var rest := NonEmpty(parts[1..]);
      assert parts[0] in parts && forall q <- parts[1..] :: q in parts;
      QuietParts(parts[1..]);
      NonEmptyCons(parts[0], parts[1..]);
      assert [parts[0]] + parts[1..] == parts && [] + rest == rest;
      SplitAllCons(parts[0], rest);
      QuietConcat(Split(parts[0]), SplitAll(rest));
    }
  }

  lemma QuietConcat(a: seq<string>, b: seq<string>)
    requires (a != [] ==> Quiet(a)) && (b != [] ==> Quiet(b))
    ensures Quiet(a + b)
  {
    hide CommandOf;
  }

  lemma AcceptedIsLine()
    ensures IsLine(ACCEPTED)
  {
    var a, b, c, d := " (accepted: ", "expected ", "Phase 7 ", "no-go status)";
    assert IsLine(a) && IsLine(b) && IsLine(c) && IsLine(d);
    LineConcat(a, b);
    LineConcat(a + b, c);
    LineConcat(a + b + c, d);
  }

  lemma IntTextIsLine(n: int)
    ensures IsLine(Json.IntText(n))
  {
  }

  lemma {:induction false} ExitLineIsLine(exitCode: int, acceptable: bool)
    ensures IsLine(ExitLine(exitCode, acceptable))
    ensures exitCode != 0 ==> ExitLine(exitCode, acceptable) != "" && ExitLine(exitCode, acceptable)[0] == '#'
  {
    hide ACCEPTED, Json.IntText;
    AcceptedIsLine();
    IntTextIsLine(exitCode);
    LineConcat("# exit_code: ", Json.IntText(exitCode));
    LineConcat("# exit_code: " + Json.IntText(exitCode), if acceptable then ACCEPTED else "");
  }

  lemma NoExitLine(acceptable: bool)
    ensures ExitLine(0, acceptable) == ""
  {
  }

  lemma {:induction false} ExitLineIsQuiet(exitCode: int, acceptable: bool)
    ensures Quiet(Split(ExitLine(exitCode, acceptable)))
  {
    hide CommandOf, Split, IsLine, ExitLine;
    var line := ExitLine(exitCode, acceptable);
    ExitLineIsLine(exitCode, acceptable);
    NoExitLine(acceptable);
    SplitLine(line);
    BlankIsQuiet();
    if line != "" { CommentIsQuiet(line); }
  }

  lemma {:induction false} RecordedAreReadable(commands: seq<CommandSpec>, results: seq<RunResult>, redact: string -> string)
    requires |commands| == |results|
    requires forall c <- commands :: IsRecognisable(c)
    requires forall r <- results :: IsQuietResult(r, redact)
    ensures forall p <- Recorded(commands, results, redact) :: Readable(p)
  {
    hide JoinWords, Outputs, CommandOf, Normalize, IsQuietResult, StartsCommand;
    var recorded := Recorded(commands, results, redact);
    RecordedAreSplittable(commands, results, redact);
    forall p <- recorded
      ensures Readable(p)
    {
      var i :| 0 <= i < |recorded| && recorded[i] == p;
      assert commands[i] in commands && results[i] in results;
      var words := commands[i].words;
      var n :| 0 <= n <= |words| && StartsCommand(words[..n]);
      Shows(words, words[..n]);
      OutputsAreQuiet(results[i], IsAcceptable(commands[i], results[i]), redact);
    }
  }

  /** What the recorder wrote is read back as exactly the commands it ran, in order, each with the
      non-blank lines of its output, error output and exit code. */
  lemma {:induction false} RecordingRoundTrip(input: Input, run: nat -> nat -> RunResult, redact: string -> string)
    requires SingleLinePaths(input.paths) && IsHeaderInput(input)
    requires var commands := CommandsFor(input.includeHosted, input.includePreflight, input.paths);
             forall r <- Results(commands, run) :: IsQuietResult(r, redact)
    ensures var commands := CommandsFor(input.includeHosted, input.includePreflight, input.paths);
            var recorded := Recorded(commands, Results(commands, run), redact);
            AddLines([], Split(TranscriptText(Header(input), recorded))) == Expected(recorded)
  {
    hide Split, TranscriptText, CommandsFor, Results, Recorded, IsQuietResult, Expected, IsRecognisable, Readable;
    var commands := CommandsFor(input.includeHosted, input.includePreflight, input.paths);
    CommandsAreRecognisable(input.includeHosted, input.includePreflight, input.paths);
    HeaderIsQuiet(input);
    RecordedAreReadable(commands, Results(commands, run), redact);
    TranscriptRoundTrip(Header(input), Recorded(commands, Results(commands, run), redact));
  }
}
