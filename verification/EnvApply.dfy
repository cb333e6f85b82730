/** Copying the seed's proofEnv values into a `KEY=value` environment text. */
module EnvApply {
  import opened Text
  import opened Lines
  import Json
  import JsonRoundTrip

  predicate IsKeyChar(c: char) {
    'A' <= c <= 'Z' || IsDigit(c) || c == '_'
  }

  predicate IsEnvKey(s: string) {
    s != "" && forall i | 0 <= i < |s| :: IsKeyChar(s[i])
  }

  function KeyRun(s: string): (k: nat)
    ensures k <= |s| && forall i | 0 <= i < k :: IsKeyChar(s[i])
    ensures k == |s| || !IsKeyChar(s[k])
  {
    if s == "" || !IsKeyChar(s[0]) then 0 else 1 + KeyRun(s[1..])
  }

  /** The key that `^\s*#?\s*([A-Z0-9_]+)=(.*)$` finds in a line, commented out or not. */
  function KeyOf(line: string): Option<string> {
    var a := TrimStart(line);
    KeyAtStart(if a != "" && a[0] == '#' then TrimStart(a[1..]) else a)
  }

  function KeyAtStart(s: string): Option<string> {
    var k := KeyRun(s);
    if k == 0 || k == |s| || s[k] != '=' || !NoTerminator(s[k + 1..]) then None else Some(s[..k])
  }

  predicate IsPlainChar(c: char) {
    !IsSpace(c) && c != '#' && c != '"' && c != '\'' && c != '\\'
  }

  /** `formatEnvValue`: values with white space, quotes, `#` or a backslash are written as JSON strings. */
  function FormatValue(value: string): string {
    if value != "" && forall i | 0 <= i < |value| :: IsPlainChar(value[i]) then value else Json.Quote(value)
  }

  function Assignment(key: string, value: string): string {
    key + "=" + FormatValue(value)
  }

  /** In pieces, because the verifier does not look up the characters far into a long literal. */
  const HEADER: string := "# V" + ("alues copied" + " from phase7:" + "staging:seed" + " proofEnv.")

  predicate HasValue(proofEnv: map<string, string>, key: string) {
    key in proofEnv && Trim(proofEnv[key]) != ""
  }

  /** The value of a key that has one. */
  function ValueOf(proofEnv: map<string, string>, key: string): string {
    if key in proofEnv then proofEnv[key] else ""
  }

  predicate IsPending(proofEnv: map<string, string>, allowed: seq<string>, key: string) {
    key in allowed && HasValue(proofEnv, key)
  }

  /** The allowed keys that have a value, each once, in order. */
  function PendingKeys(proofEnv: map<string, string>, allowed: seq<string>): (r: seq<string>)
    ensures forall k :: k in r <==> IsPending(proofEnv, allowed, k)
    ensures forall i, j | 0 <= i < j < |r| :: r[i] != r[j]
  {
    if allowed == [] then []
    else
      var init := PendingKeys(proofEnv, allowed[..|allowed| - 1]);
      var last := allowed[|allowed| - 1];
      assert allowed == allowed[..|allowed| - 1] + [last];
      if HasValue(proofEnv, last) && last !in init then init + [last] else init
  }

  function SkippedKeys(proofEnv: map<string, string>, allowed: seq<string>): (r: seq<string>)
    ensures forall k :: k in r <==> k in allowed && !HasValue(proofEnv, k)
  {
    if allowed == [] then []
    else
      var last := allowed[|allowed| - 1];
      assert allowed == allowed[..|allowed| - 1] + [last];
      SkippedKeys(proofEnv, allowed[..|allowed| - 1]) + if HasValue(proofEnv, last) then [] else [last]
  }

  /** The pending key a line names. */
  function Target(proofEnv: map<string, string>, allowed: seq<string>, line: string): Option<string> {
    match KeyOf(line)
    case None => None
    case Some(key) => if IsPending(proofEnv, allowed, key) then Some(key) else None
  }

  function NewLine(proofEnv: map<string, string>, allowed: seq<string>, line: string): string {
    match Target(proofEnv, allowed, line)
    case None => line
    case Some(key) => Assignment(key, ValueOf(proofEnv, key))
  }

  function MapLines(proofEnv: map<string, string>, allowed: seq<string>, lines: seq<string>): (r: seq<string>)
    ensures |r| == |lines|
    ensures forall i | 0 <= i < |r| :: r[i] == NewLine(proofEnv, allowed, lines[i])
  {
    if lines == [] then []
    else [NewLine(proofEnv, allowed, lines[0])] + MapLines(proofEnv, allowed, lines[1..])
  }

  /** The pending keys that lines name, each once, in order. */
  function TouchedKeys(proofEnv: map<string, string>, allowed: seq<string>, lines: seq<string>): seq<string> {
    if lines == [] then []
    else
      var init := TouchedKeys(proofEnv, allowed, lines[..|lines| - 1]);
      AddKey(init, Target(proofEnv, allowed, lines[|lines| - 1]))
  }

  predicate Distinct(keys: seq<string>) {
    forall i, j | 0 <= i < j < |keys| :: keys[i] != keys[j]
  }

  lemma {:induction false} TouchedKeysAre(proofEnv: map<string, string>, allowed: seq<string>, lines: seq<string>)
    ensures Distinct(TouchedKeys(proofEnv, allowed, lines))
    ensures forall k :: k in TouchedKeys(proofEnv, allowed, lines) <==>
                        exists i | 0 <= i < |lines| :: Target(proofEnv, allowed, lines[i]) == Some(k)
  {
    hide Target;
    if lines != [] {
      var init, last := lines[..|lines| - 1], lines[|lines| - 1];
      TouchedKeysAre(proofEnv, allowed, init);
      assert lines == init + [last];
      forall k
        ensures k in TouchedKeys(proofEnv, allowed, lines) <==>
                exists i | 0 <= i < |lines| :: Target(proofEnv, allowed, lines[i]) == Some(k)
      {
        if i :| 0 <= i < |lines| && Target(proofEnv, allowed, lines[i]) == Some(k) {
          assert i < |init| ==> init[i] == lines[i];
        }
        if i :| 0 <= i < |init| && Target(proofEnv, allowed, init[i]) == Some(k) {
          assert Target(proofEnv, allowed, lines[i]) == Some(k);
        }
      }
    }
  }

  /** `Set.add`, keeping insertion order. */
  function AddKey(keys: seq<string>, key: Option<string>): seq<string> {
    if key.None? || key.value in keys then keys else keys + [key.value]
  }

  /** The pending keys not in touched, in order. */
  function MissingKeys(pending: seq<string>, touched: seq<string>): (r: seq<string>)
    ensures forall k :: k in r <==> k in pending && k !in touched
  {
    if pending == [] then []
    else
      var last := pending[|pending| - 1];
      assert pending == pending[..|pending| - 1] + [last];
      MissingKeys(pending[..|pending| - 1], touched) + if last in touched then [] else [last]
  }

  function Assignments(proofEnv: map<string, string>, keys: seq<string>): (r: seq<string>)
    ensures |r| == |keys| && forall i | 0 <= i < |r| :: r[i] == Assignment(keys[i], ValueOf(proofEnv, keys[i]))
  {
    if keys == [] then []
    else
      Assignments(proofEnv, keys[..|keys| - 1]) + [Assignment(keys[|keys| - 1], ValueOf(proofEnv, keys[|keys| - 1]))]
  }

  /** New lines go before a final empty line, or at the end. */
  function SplicePoint(lines: seq<string>): (n: nat)
    ensures n <= |lines|
  {
    if lines != [] && lines[|lines| - 1] == "" then |lines| - 1 else |lines|
  }

  function Splice(lines: seq<string>, insert: seq<string>): seq<string> {
    lines[..SplicePoint(lines)] + insert + lines[SplicePoint(lines)..]
  }

  function Missing(proofEnv: map<string, string>, allowed: seq<string>, lines: seq<string>): seq<string> {
    MissingKeys(PendingKeys(proofEnv, allowed), TouchedKeys(proofEnv, allowed, lines))
  }

  function AppliedLines(proofEnv: map<string, string>, allowed: seq<string>, lines: seq<string>): seq<string> {
    var mapped := MapLines(proofEnv, allowed, lines);
    var missing := Missing(proofEnv, allowed, lines);
    if missing == [] then mapped else Splice(mapped, [HEADER] + Assignments(proofEnv, missing))
  }

  function BeforeEquals(s: string): string {
    if s == "" || s[0] == '=' then "" else [s[0]] + BeforeEquals(s[1..])
  }

  function AddAssigned(keys: seq<string>, assignments: seq<string>): seq<string> {
    if assignments == [] then keys
    else AddKey(AddAssigned(keys, assignments[..|assignments| - 1]), Some(BeforeEquals(assignments[|assignments| - 1])))
  }

  function UpdatedKeys(proofEnv: map<string, string>, allowed: seq<string>, lines: seq<string>): seq<string> {
    AddAssigned(TouchedKeys(proofEnv, allowed, lines), Assignments(proofEnv, Missing(proofEnv, allowed, lines)))
  }

  datatype Applied = Applied(text: string, updatedKeys: seq<string>, skippedKeys: seq<string>)

  // --- what an application does, line by line and key by key ----------------------------------------------------------

  /** A name of an environment variable. */
  ghost predicate KeyText(key: string) {
    key != "" && forall i | 0 <= i < |key| :: 'A' <= key[i] <= 'Z' || '0' <= key[i] <= '9' || key[i] == '_'
  }

  /** White space, with or without a number sign in it. */
  ghost predicate Lead(before: string) {
    AllSpace(before) || exists a, b | AllSpace(a) && AllSpace(b) :: before == a + "#" + b
  }

  /** The line assigns the key, commented out or not. */
  ghost predicate Assigns(line: string, key: string) {
    KeyText(key) && exists before, rest | Lead(before) && NoTerminator(rest) :: line == before + key + "=" + rest
  }

  /** How a value is written: as it is if it is plain, otherwise as a JSON string. */
  ghost predicate Written(value: string, text: string) {
    if value != "" && (forall i | 0 <= i < |value| ::
                         !IsSpace(value[i]) && value[i] != '#' && value[i] != '"' && value[i] != '\'' && value[i] != '\\')
    then text == value
    else text != "" && text[0] == '"' && Json.Parse(text) == Some(Json.Str(value))
  }

  /** The key is allowed and has a value that is not all white space. */
  ghost predicate Copied(proofEnv: map<string, string>, allowed: seq<string>, key: string) {
    key in allowed && key in proofEnv && exists i | 0 <= i < |proofEnv[key]| :: !IsSpace(proofEnv[key][i])
  }

  ghost predicate Assigned(proofEnv: map<string, string>, key: string, line: string) {
    key in proofEnv && exists text | Written(proofEnv[key], text) :: line == key + "=" + text
  }

  /** A line that assigns a copied key becomes its assignment; every other line is kept. */
  ghost predicate LineFollows(proofEnv: map<string, string>, allowed: seq<string>, line: string, next: string) {
    && (forall key | Copied(proofEnv, allowed, key) && Assigns(line, key) :: Assigned(proofEnv, key, next))
    && ((forall key | Copied(proofEnv, allowed, key) :: !Assigns(line, key)) ==> next == line)
  }

  ghost predicate LinesFollow(proofEnv: map<string, string>, allowed: seq<string>, lines: seq<string>, kept: seq<string>) {
    |kept| == |lines| && forall i | 0 <= i < |lines| :: LineFollows(proofEnv, allowed, lines[i], kept[i])
  }

  /** Line i is the first to assign the key. */
  ghost predicate FirstLine(lines: seq<string>, i: int, key: string) {
    0 <= i < |lines| && Assigns(lines[i], key) && forall j | 0 <= j < i :: !Assigns(lines[j], key)
  }

  ghost predicate FirstAt(keys: seq<string>, i: int, key: string) {
    0 <= i < |keys| && keys[i] == key && forall j | 0 <= j < i :: keys[j] != key
  }

  ghost predicate SomeLine(lines: seq<string>, key: string) {
    exists i | 0 <= i < |lines| :: Assigns(lines[i], key)
  }

  /** The copied keys that lines assign, by their first lines. */
  ghost predicate TouchedFollow(proofEnv: map<string, string>, allowed: seq<string>, lines: seq<string>, touched: seq<string>) {
    && (forall key :: key in touched <==> Copied(proofEnv, allowed, key) && SomeLine(lines, key))
    && (forall i, j, m, n | 0 <= i < j < |touched| && FirstLine(lines, m, touched[i]) && FirstLine(lines, n, touched[j]) :: m < n)
  }

  /** The keys are in the order of their first places in the list. */
  ghost predicate InOrder(keys: seq<string>, list: seq<string>) {
    forall i, j, m, n | 0 <= i < j < |keys| && FirstAt(list, m, keys[i]) && FirstAt(list, n, keys[j]) :: m < n
  }

  /** The copied keys that no line assigns, as they are allowed. */
  ghost predicate AddedFollow(proofEnv: map<string, string>, allowed: seq<string>, lines: seq<string>, added: seq<string>) {
    && (forall key :: key in added <==> Copied(proofEnv, allowed, key) && !SomeLine(lines, key))
    && InOrder(added, allowed)
  }

  /** The block of added keys comes behind all lines but a final empty one. */
  ghost predicate BlockFollows(proofEnv: map<string, string>, kept: seq<string>, added: seq<string>, next: seq<string>) {
    var p := if kept != [] && kept[|kept| - 1] == "" then |kept| - 1 else |kept|;
    && (added == [] ==> next == kept)
    && (added != [] ==>
          && |next| == |kept| + 1 + |added|
          && next[..p] == kept[..p] && next[p + 1 + |added|..] == kept[p..]
          && next[p] == "# V" + "alues copied" + " from phase7:" + "staging:seed" + " proofEnv."
          && forall i | 0 <= i < |added| :: Assigned(proofEnv, added[i], next[p + 1 + i]))
  }

  ghost predicate SkippedFollow(proofEnv: map<string, string>, allowed: seq<string>, skipped: seq<string>) {
    && (forall key :: key in skipped <==> key in allowed && !Copied(proofEnv, allowed, key))
    && (Distinct(allowed) ==> InOrder(skipped, allowed) && Distinct(skipped))
  }

  ghost predicate FollowsBy(proofEnv: map<string, string>, allowed: seq<string>, text: string, r: Applied,
                            kept: seq<string>, touched: seq<string>, added: seq<string>, next: seq<string>) {
    && LinesFollow(proofEnv, allowed, Split(text), kept)
    && TouchedFollow(proofEnv, allowed, Split(text), touched)
    && AddedFollow(proofEnv, allowed, Split(text), added)
    && BlockFollows(proofEnv, kept, added, next)
    && r.text == Join(next)
    && SkippedFollow(proofEnv, allowed, r.skippedKeys)
    && ((forall key <- allowed :: KeyText(key)) ==> Distinct(touched + added) && r.updatedKeys == touched + added)
  }

  /** The text and the reported keys are those of an application. */
  ghost predicate Follows(proofEnv: map<string, string>, allowed: seq<string>, text: string, r: Applied) {
    exists kept, touched, added, next :: FollowsBy(proofEnv, allowed, text, r, kept, touched, added, next)
  }

  /** `applyPhase7SeedProofEnvToText`. */
  method ApplySeedProofEnv(text: string, proofEnv: map<string, string>, allowed: seq<string>) returns (r: Applied)
    ensures r.text == Join(AppliedLines(proofEnv, allowed, Split(text)))
    ensures r.skippedKeys == SkippedKeys(proofEnv, allowed)
    ensures r.updatedKeys == UpdatedKeys(proofEnv, allowed, Split(text))
    ensures Follows(proofEnv, allowed, text, r)
  {
    hide Follows, Split, Join, Target, Assignment, AddKey, BeforeEquals, Splice, TouchedKeys, PendingKeys, MapLines, MissingKeys;
    var pending, skippedKeys := SortKeys(proofEnv, allowed);
    var lines := Split(text);
    var nextLines, updatedKeys := RewriteLines(lines, proofEnv, allowed);
    var missing := MissingKeys(pending, updatedKeys);
    var missingAssignments := Assignments(proofEnv, missing);
    if missing != [] {
      nextLines := Splice(nextLines, [HEADER] + missingAssignments);
    }
    assert missingAssignments[..0] == [];
    for i := 0 to |missingAssignments|
      invariant updatedKeys ==
                AddAssigned(TouchedKeys(proofEnv, allowed, lines), missingAssignments[..i])
    {
      assert missingAssignments[..i + 1][..i] == missingAssignments[..i];
      updatedKeys := AddKey(updatedKeys, Some(BeforeEquals(missingAssignments[i])));
    }
    assert missingAssignments[..|missingAssignments|] == missingAssignments;
    r := Applied(Join(nextLines), updatedKeys, skippedKeys);
    ApplicationFollows(proofEnv, allowed, text);
  }

  method SortKeys(proofEnv: map<string, string>, allowed: seq<string>) returns (pending: seq<string>, skippedKeys: seq<string>)
    ensures pending == PendingKeys(proofEnv, allowed)
    ensures skippedKeys == SkippedKeys(proofEnv, allowed)
  {
    hide HasValue;
    pending, skippedKeys := [], [];
    assert allowed[..0] == [];
    for i := 0 to |allowed|
      invariant pending == PendingKeys(proofEnv, allowed[..i])
      invariant skippedKeys == SkippedKeys(proofEnv, allowed[..i])
    {
      assert allowed[..i + 1][..i] == allowed[..i];
      if !HasValue(proofEnv, allowed[i]) {
        skippedKeys := skippedKeys + [allowed[i]];
        continue;
      }
      if allowed[i] !in pending {
        pending := pending + [allowed[i]];
      }
      assert SkippedKeys(proofEnv, allowed[..i]) + [] == SkippedKeys(proofEnv, allowed[..i]);
    }
    assert allowed[..|allowed|] == allowed;
  }

  lemma {:induction false} TouchedStep(proofEnv: map<string, string>, allowed: seq<string>, lines: seq<string>, i: nat)
    requires i < |lines|
    ensures TouchedKeys(proofEnv, allowed, lines[..i + 1]) ==
            AddKey(TouchedKeys(proofEnv, allowed, lines[..i]), Target(proofEnv, allowed, lines[i]))
  {
    hide Target, AddKey;
    assert lines[..i + 1][..i] == lines[..i];
  }

  method RewriteLines(lines: seq<string>, proofEnv: map<string, string>, allowed: seq<string>)
    returns (next: seq<string>, updatedKeys: seq<string>)
    ensures next == MapLines(proofEnv, allowed, lines)
    ensures updatedKeys == TouchedKeys(proofEnv, allowed, lines)
  {
    hide KeyOf, Assignment, HasValue, MapLines;
    next, updatedKeys := [], [];
    assert lines[..0] == [] && TouchedKeys(proofEnv, allowed, []) == [];
    hide TouchedKeys;
    for i := 0 to |lines|
      invariant |next| == i && forall j | 0 <= j < i :: next[j] == NewLine(proofEnv, allowed, lines[j])
      invariant updatedKeys == TouchedKeys(proofEnv, allowed, lines[..i])
    {
      TouchedStep(proofEnv, allowed, lines, i);
      var key := KeyOf(lines[i]);
      if key.None? || key.value !in allowed || !HasValue(proofEnv, key.value) {
        next := next + [lines[i]];
        continue;
      }
      updatedKeys := AddKey(updatedKeys, key);
      next := next + [Assignment(key.value, ValueOf(proofEnv, key.value))];
    }
    assert lines[..|lines|] == lines;
  }

  // --- reading an assignment back --------------------------------------------------------------------

  /** The value has a line separator that `JSON.stringify` leaves as it is. */
  predicate HasSeparator(value: string) {
    exists i | 0 <= i < |value| :: value[i] == '\U{2028}' || value[i] == '\U{2029}'
  }

  lemma {:induction false} EscapeTerminators(s: string)
    ensures NoTerminator(Json.Escape(s)) <==> !HasSeparator(s)
  {
    if s != "" {
      var head, tail := Json.EscapeChar(s[0]), Json.Escape(s[1..]);
      EscapeTerminators(s[1..]);
      EscapeCharTerminators(s[0]);
      NoTerminatorConcat(head, tail);
      SeparatorSplit(s);
    }
  }

  lemma {:induction false} SeparatorSplit(s: string)
    requires s != ""
    ensures HasSeparator(s) <==> s[0] == '\U{2028}' || s[0] == '\U{2029}' || HasSeparator(s[1..])
  {
    if i :| 0 <= i < |s| && (s[i] == '\U{2028}' || s[i] == '\U{2029}') {
      assert i > 0 ==> s[1..][i - 1] == s[i];
    }
    if HasSeparator(s[1..]) {
      var i :| 0 <= i < |s[1..]| && (s[1..][i] == '\U{2028}' || s[1..][i] == '\U{2029}');
      assert s[i + 1] == s[1..][i];
    }
  }

  lemma {:induction false} NoTerminatorConcat(a: string, b: string)
    ensures NoTerminator(a + b) <==> NoTerminator(a) && NoTerminator(b)
  {
    var s := a + b;
    if NoTerminator(s) {
      assert forall i | 0 <= i < |a| :: a[i] == s[i];
      assert forall i | 0 <= i < |b| :: b[i] == s[|a| + i];
    }
  }

  lemma {:induction false} EscapeCharTerminators(c: char)
    ensures NoTerminator(Json.EscapeChar(c)) <==> c != '\U{2028}' && c != '\U{2029}'
    ensures IsLine(Json.EscapeChar(c))
  {
    if |Json.EscapeChar(c)| == 6 {
      var digits := [Json.HexDigit(c as int / 16), Json.HexDigit(c as int % 16)];
      assert NoTerminator(digits) && NoTerminator("\\u00");
      NoTerminatorConcat("\\u00", digits);
    } else if |Json.EscapeChar(c)| == 1 {
      assert Json.EscapeChar(c)[0] == c;
    }
  }

  lemma {:induction false} FormatTerminators(value: string)
    ensures NoTerminator(FormatValue(value)) <==> !HasSeparator(value)
    ensures IsLine(FormatValue(value)) && !EndsWithCr(FormatValue(value))
  {
    hide Json.EscapeChar, Json.Escape;
    if FormatValue(value) == Json.Quote(value) {
      QuoteTerminators(value);
    }
  }

  lemma {:induction false} QuoteTerminators(value: string)
    ensures NoTerminator(Json.Quote(value)) <==> !HasSeparator(value)
    ensures IsLine(Json.Quote(value)) && !EndsWithCr(Json.Quote(value))
  {
    hide Json.Escape, HasSeparator;
    var escaped := Json.Escape(value);
    EscapeTerminators(value);
    EscapeIsLine(value);
    NoTerminatorConcat("\"", escaped);
    NoTerminatorConcat("\"" + escaped, "\"");
  }

  lemma {:induction false} EscapeIsLine(s: string)
    ensures IsLine(Json.Escape(s))
  {
    if s != "" {
      EscapeIsLine(s[1..]);
      EscapeCharTerminators(s[0]);
    }
  }

  lemma {:induction false} KeyRunOf(key: string, rest: string)
    requires forall i | 0 <= i < |key| :: IsKeyChar(key[i])
    requires rest == "" || !IsKeyChar(rest[0])
    ensures KeyRun(key + rest) == |key|
  {
    if key == "" {
      assert key + rest == rest;
    } else {
      assert (key + rest)[1..] == key[1..] + rest;
      KeyRunOf(key[1..], rest);
    }
  }

  /** An assignment is read back as its key unless its value has a raw line separator. */
  lemma {:induction false} AssignmentKey(key: string, value: string)
    requires IsEnvKey(key)
    ensures KeyOf(Assignment(key, value)) == if HasSeparator(value) then None else Some(key)
    ensures IsLine(Assignment(key, value)) && !EndsWithCr(Assignment(key, value))
    ensures BeforeEquals(Assignment(key, value)) == key
  {
    hide FormatValue, HasSeparator, BeforeEquals, KeyOf, IsLine, EndsWithCr, NoTerminator;
    var formatted := FormatValue(value);
    FormatTerminators(value);
    AssignmentIsLine(key, formatted);
    KeyOfAssignment(key, formatted);
    BeforeEqualsOf(key, formatted);
  }

  lemma {:induction false} KeyOfAssignment(key: string, formatted: string)
    requires IsEnvKey(key)
    ensures KeyOf(key + "=" + formatted) == if NoTerminator(formatted) then Some(key) else None
  {
    hide NoTerminator;
    var line := key + "=" + formatted;
    KeyRunOf(key, "=" + formatted);
    assert key + ("=" + formatted) == line;
    assert line[|key| + 1..] == formatted && line[..|key|] == key;
    assert IsKeyChar(line[0]);
  }

  lemma {:induction false} AssignmentIsLine(key: string, formatted: string)
    requires IsEnvKey(key) && IsLine(formatted) && !EndsWithCr(formatted)
    ensures IsLine(key + "=" + formatted) && !EndsWithCr(key + "=" + formatted)
  {
    var line := key + "=" + formatted;
    assert line == key + ("=" + formatted);
  }

  lemma {:induction false} BeforeEqualsOf(key: string, rest: string)
    requires forall i | 0 <= i < |key| :: IsKeyChar(key[i])
    ensures BeforeEquals(key + "=" + rest) == key
  {
    if key != "" {
      assert (key + "=" + rest)[1..] == key[1..] + "=" + rest;
      BeforeEqualsOf(key[1..], rest);
      assert [key[0]] + key[1..] == key;
    }
  }

  lemma {:induction false} HeaderHasNoKey()
    ensures KeyOf(HEADER).None? && IsLine(HEADER) && !EndsWithCr(HEADER)
  {
    hide KeyOf, IsLine;
    var a, b, c, d := "alues copied", " from phase7:", "staging:seed", " proofEnv.";
    assert IsLine(a) && IsLine(b) && IsLine(c) && IsLine(d) && IsLine("# V") by { HeaderParts(); }
    LineConcat(a, b);
    LineConcat(a + b, c);
    LineConcat(a + b + c, d);
    LineConcat("# V", a + b + c + d);
    KeyOfComment(a + b + c + d);
  }

  lemma HeaderParts()
    ensures IsLine("alues copied") && IsLine(" from phase7:") && IsLine("staging:seed") && IsLine(" proofEnv.") && IsLine("# V")
  {
  }

  lemma {:induction false} KeyOfComment(rest: string)
    requires rest != "" && !IsKeyChar(rest[0]) && rest[0] != '='
    ensures KeyOf("# V" + rest).None?
  {
    var text := "V" + rest;
    var line := "# V" + rest;
    assert line[1..] == " " + text;
    assert (" " + text)[1..] == text;
    assert TrimStart(text) == text;
    KeyRunOf("V", rest);
  }

  // --- the rewritten lines -----------------------------------------------------------------------------

  predicate ValidKeys(allowed: seq<string>) {
    forall k <- allowed :: IsEnvKey(k)
  }

  lemma {:induction false} InSplice(lines: seq<string>, insert: seq<string>, x: string)
    ensures x in Splice(lines, insert) <==> x in lines || x in insert
    ensures |Splice(lines, insert)| == |lines| + |insert|
  {
    assert lines == lines[..SplicePoint(lines)] + lines[SplicePoint(lines)..];
  }

  /** Lines that name no pending key keep their content and their order, and so do the assignments that
      replace the others; what is added is one block, behind all of them but a final empty line. */
  lemma {:induction false} OtherLinesKept(proofEnv: map<string, string>, allowed: seq<string>, lines: seq<string>)
    ensures var next := AppliedLines(proofEnv, allowed, lines);
            var mapped := MapLines(proofEnv, allowed, lines);
            var n, added := SplicePoint(mapped), |next| - |lines|;
            added >= 0 && next[..n] + next[n + added..] == mapped
    ensures forall i | 0 <= i < |lines| && Target(proofEnv, allowed, lines[i]).None? ::
              MapLines(proofEnv, allowed, lines)[i] == lines[i]
  {
    hide Target, Missing, SplicePoint;
    var mapped := MapLines(proofEnv, allowed, lines);
    var n := SplicePoint(mapped);
    assert mapped[..n] + mapped[n..] == mapped;
    var missing := Missing(proofEnv, allowed, lines);
    if missing != [] {
      BlockBetween(mapped[..n], [HEADER] + Assignments(proofEnv, missing), mapped[n..]);
    }
  }

  lemma {:induction false} BlockBetween(a: seq<string>, b: seq<string>, c: seq<string>)
    ensures (a + b + c)[..|a|] == a && (a + b + c)[|a| + |b|..] == c
  {
  }

  lemma {:induction false} TargetOfAssignment(proofEnv: map<string, string>, allowed: seq<string>, key: string)
    requires ValidKeys(allowed) && IsPending(proofEnv, allowed, key)
    ensures var line := Assignment(key, ValueOf(proofEnv, key));
            && Target(proofEnv, allowed, line) == (if HasSeparator(ValueOf(proofEnv, key)) then None else Some(key))
            && IsLine(line) && !EndsWithCr(line)
  {
    hide KeyOf, Assignment, HasSeparator, IsEnvKey;
    AssignmentKey(key, ValueOf(proofEnv, key));
  }

  /** A line that names a pending key is that key's assignment. */
  predicate Settled(proofEnv: map<string, string>, allowed: seq<string>, line: string) {
    match Target(proofEnv, allowed, line)
    case None => true
    case Some(key) => line == Assignment(key, ValueOf(proofEnv, key)) && !HasSeparator(ValueOf(proofEnv, key))
  }

  lemma {:induction false} NewLineIsSettled(proofEnv: map<string, string>, allowed: seq<string>, line: string)
    requires ValidKeys(allowed)
    ensures Settled(proofEnv, allowed, NewLine(proofEnv, allowed, line))
    ensures IsLine(line) ==> IsLine(NewLine(proofEnv, allowed, line))
    ensures Target(proofEnv, allowed, line).Some? ==> !EndsWithCr(NewLine(proofEnv, allowed, line))
  {
    hide KeyOf, Assignment, HasSeparator, IsEnvKey;
    if Target(proofEnv, allowed, line).Some? {
      TargetOfAssignment(proofEnv, allowed, Target(proofEnv, allowed, line).value);
    }
  }

  lemma {:induction false} MissingArePending(proofEnv: map<string, string>, allowed: seq<string>, lines: seq<string>, key: string)
    ensures key in Missing(proofEnv, allowed, lines) <==>
            IsPending(proofEnv, allowed, key) && key !in TouchedKeys(proofEnv, allowed, lines)
  {
    hide TouchedKeys, HasValue;
  }

  /** After applying, every line that names a pending key is its assignment. */
  lemma {:induction false} AppliedAreSettled(proofEnv: map<string, string>, allowed: seq<string>, lines: seq<string>, line: string)
    requires ValidKeys(allowed) && AllLines(lines) && line in AppliedLines(proofEnv, allowed, lines)
    ensures Settled(proofEnv, allowed, line) && IsLine(line)
  {
    hide KeyOf, Assignment, HasSeparator, IsEnvKey, Settled, Target, IsLine, Splice, Missing;
    var mapped := MapLines(proofEnv, allowed, lines);
    var missing := Missing(proofEnv, allowed, lines);
    var assignments := Assignments(proofEnv, missing);
    InSplice(mapped, [HEADER] + assignments, line);
    if line in mapped {
      var i :| 0 <= i < |mapped| && mapped[i] == line;
      NewLineIsSettled(proofEnv, allowed, lines[i]);
    } else if line == HEADER {
      HeaderIsSettled(proofEnv, allowed);
    } else {
      var i :| 0 <= i < |assignments| && assignments[i] == line;
      assert missing[i] in missing;
      MissingArePending(proofEnv, allowed, lines, missing[i]);
      InsertedIsSettled(proofEnv, allowed, missing[i]);
    }
  }

  lemma {:induction false} HeaderIsSettled(proofEnv: map<string, string>, allowed: seq<string>)
    ensures Settled(proofEnv, allowed, HEADER) && IsLine(HEADER)
  {
    hide KeyOf, HEADER;
    HeaderHasNoKey();
  }

  lemma {:induction false} InsertedIsSettled(proofEnv: map<string, string>, allowed: seq<string>, key: string)
    requires ValidKeys(allowed) && IsPending(proofEnv, allowed, key)
    ensures Settled(proofEnv, allowed, Assignment(key, ValueOf(proofEnv, key)))
    ensures IsLine(Assignment(key, ValueOf(proofEnv, key)))
  {
    hide KeyOf, Assignment, HasSeparator, IsEnvKey;
    TargetOfAssignment(proofEnv, allowed, key);
  }

  /** After applying, every pending key is assigned. */
  lemma {:induction false} PendingIsAssigned(proofEnv: map<string, string>, allowed: seq<string>, lines: seq<string>, key: string)
    requires IsPending(proofEnv, allowed, key)
    ensures Assignment(key, ValueOf(proofEnv, key)) in AppliedLines(proofEnv, allowed, lines)
  {
    hide Assignment, Target, Splice, IsPending, Missing;
    var mapped := MapLines(proofEnv, allowed, lines);
    var missing := Missing(proofEnv, allowed, lines);
    var assignments := Assignments(proofEnv, missing);
    var line := Assignment(key, ValueOf(proofEnv, key));
    InSplice(mapped, [HEADER] + assignments, line);
    MissingArePending(proofEnv, allowed, lines, key);
    TouchedKeysAre(proofEnv, allowed, lines);
    if key in missing {
      var i :| 0 <= i < |missing| && missing[i] == key;
      assert assignments[i] == line;
    } else {
      var i :| 0 <= i < |lines| && Target(proofEnv, allowed, lines[i]) == Some(key);
      assert mapped[i] == line;
    }
  }

  /** On settled lines, the keys still missing are the pending ones with a raw line separator. */
  lemma {:induction false} StillMissing(proofEnv: map<string, string>, allowed: seq<string>, text: string)
    requires ValidKeys(allowed)
    ensures var lines := AppliedLines(proofEnv, allowed, Split(text));
            forall k :: k in Missing(proofEnv, allowed, lines) <==>
                        IsPending(proofEnv, allowed, k) && HasSeparator(ValueOf(proofEnv, k))
  {
    hide Split, Assignment, Target, IsPending, Missing, AppliedLines, HasSeparator, TouchedKeys, ValidKeys;
    SplitIsLines(text);
    var lines := AppliedLines(proofEnv, allowed, Split(text));
    TouchedKeysAre(proofEnv, allowed, lines);
    forall k
      ensures k in Missing(proofEnv, allowed, lines) <==>
              IsPending(proofEnv, allowed, k) && HasSeparator(ValueOf(proofEnv, k))
    {
      MissingArePending(proofEnv, allowed, lines, k);
      if IsPending(proofEnv, allowed, k) {
        PendingIsAssigned(proofEnv, allowed, Split(text), k);
        TargetOfAssignment(proofEnv, allowed, k);
        var line := Assignment(k, ValueOf(proofEnv, k));
        var at :| 0 <= at < |lines| && lines[at] == line;
        if k in TouchedKeys(proofEnv, allowed, lines) {
          var i :| 0 <= i < |lines| && Target(proofEnv, allowed, lines[i]) == Some(k);
          AppliedAreSettled(proofEnv, allowed, Split(text), lines[i]);
        } else {
          assert Target(proofEnv, allowed, lines[at]) != Some(k);
        }
      }
    }
  }

  // --- applying twice ------------------------------------------------------------------------------------

  function Once(proofEnv: map<string, string>, allowed: seq<string>, text: string): string {
    Join(AppliedLines(proofEnv, allowed, Split(text)))
  }

  predicate NoSeparators(proofEnv: map<string, string>, allowed: seq<string>) {
    forall k <- allowed :: HasValue(proofEnv, k) ==> !HasSeparator(ValueOf(proofEnv, k))
  }

  lemma {:induction false} MappedAgain(proofEnv: map<string, string>, allowed: seq<string>, text: string)
    requires ValidKeys(allowed)
    ensures var lines := AppliedLines(proofEnv, allowed, Split(text));
            lines != [] && AllLines(lines) && MapLines(proofEnv, allowed, lines) == lines
  {
    hide Split, Assignment, Target, Missing, MapLines, HasSeparator, ValidKeys;
    SplitIsLines(text);
    var lines := AppliedLines(proofEnv, allowed, Split(text));
    AppliedNonEmpty(proofEnv, allowed, Split(text));
    forall i | 0 <= i < |lines|
      ensures NewLine(proofEnv, allowed, lines[i]) == lines[i] && IsLine(lines[i])
    {
      assert lines[i] in lines;
      AppliedAreSettled(proofEnv, allowed, Split(text), lines[i]);
    }
  }

  lemma {:induction false} AppliedNonEmpty(proofEnv: map<string, string>, allowed: seq<string>, lines: seq<string>)
    requires lines != []
    ensures |AppliedLines(proofEnv, allowed, lines)| ==
            |lines| + if Missing(proofEnv, allowed, lines) == [] then 0 else 1 + |Missing(proofEnv, allowed, lines)|
  {
    hide Missing, Splice;
    InSplice(MapLines(proofEnv, allowed, lines), [HEADER] + Assignments(proofEnv, Missing(proofEnv, allowed, lines)), "");
  }

  lemma {:induction false} JoinLength(a: seq<string>, b: seq<string>)
    requires a != [] && b != [] && AllLines(a) && AllLines(b) && Join(a) == Join(b)
    ensures |a| == |b|
  {
    hide Split, Join, Resplit;
    SplitJoin(a);
    SplitJoin(b);
    ResplitAt(a);
    ResplitAt(b);
  }

  /** Some line that names no pending key ends with a carriage return, and is not the last line of the result:
      it is not the last line of the text, or lines will be added behind it. */
  predicate EndsInStrayCr(proofEnv: map<string, string>, allowed: seq<string>, lines: seq<string>) {
    exists i | 0 <= i < |lines| ::
      && (i < |lines| - 1 || Missing(proofEnv, allowed, lines) != [])
      && Target(proofEnv, allowed, lines[i]).None? && EndsWithCr(lines[i])
  }

  predicate NoCr(lines: seq<string>) {
    forall i | 0 <= i < |lines| :: !EndsWithCr(lines[i])
  }

  lemma {:induction false} StableConcat(a: seq<string>, b: seq<string>)
    requires b != []
    ensures Stable(a + b) <==> NoCr(a) && Stable(b)
  {
    hide EndsWithCr;
    var c := a + b;
    if Stable(c) {
      forall i | 0 <= i < |a| ensures !EndsWithCr(a[i]) { assert c[i] == a[i]; }
      forall i | 0 <= i < |b| - 1 ensures !EndsWithCr(b[i]) { assert c[|a| + i] == b[i]; }
    }
  }

  lemma {:induction false} StableSplice(lines: seq<string>, insert: seq<string>)
    requires lines != [] && insert != [] && NoCr(insert)
    ensures Stable(Splice(lines, insert)) <==> NoCr(lines)
  {
    hide EndsWithCr;
    var p := SplicePoint(lines);
    StableConcat(lines[..p], insert + lines[p..]);
    assert Splice(lines, insert) == lines[..p] + (insert + lines[p..]);
    if p == |lines| {
      assert insert + lines[p..] == insert && lines[..p] == lines;
    } else {
      assert lines[p..] == [""] && lines == lines[..p] + [""];
      StableConcat(insert, [""]);
      assert !EndsWithCr("") by { EmptyEndsWithoutCr(); }
    }
  }

  lemma EmptyEndsWithoutCr()
    ensures !EndsWithCr("")
  {
  }

  lemma {:induction false} MappedCr(proofEnv: map<string, string>, allowed: seq<string>, lines: seq<string>, i: nat)
    requires ValidKeys(allowed) && i < |lines|
    ensures EndsWithCr(MapLines(proofEnv, allowed, lines)[i]) <==> Target(proofEnv, allowed, lines[i]).None? && EndsWithCr(lines[i])
  {
    hide Target, EndsWithCr, Assignment, ValidKeys;
    NewLineIsSettled(proofEnv, allowed, lines[i]);
  }

  lemma {:induction false} InsertedWithoutCr(proofEnv: map<string, string>, allowed: seq<string>, lines: seq<string>)
    requires ValidKeys(allowed)
    ensures NoCr([HEADER] + Assignments(proofEnv, Missing(proofEnv, allowed, lines)))
  {
    hide EndsWithCr, Assignment, Missing, IsEnvKey, HEADER;
    HeaderHasNoKey();
    var missing := Missing(proofEnv, allowed, lines);
    forall i | 0 <= i < |missing| ensures !EndsWithCr(Assignments(proofEnv, missing)[i]) {
      assert missing[i] in missing;
      MissingArePending(proofEnv, allowed, lines, missing[i]);
      AssignmentKey(missing[i], ValueOf(proofEnv, missing[i]));
    }
  }

  lemma {:induction false} StableIffNoStrayCr(proofEnv: map<string, string>, allowed: seq<string>, lines: seq<string>)
    requires ValidKeys(allowed) && lines != []
    ensures Stable(AppliedLines(proofEnv, allowed, lines)) <==> !EndsInStrayCr(proofEnv, allowed, lines)
  {
    hide EndsWithCr, Assignments, Missing, Target, Splice, HEADER, ValidKeys, NewLine;
    var mapped := MapLines(proofEnv, allowed, lines);
    forall i | 0 <= i < |lines|
      ensures EndsWithCr(mapped[i]) <==> Target(proofEnv, allowed, lines[i]).None? && EndsWithCr(lines[i])
    {
      MappedCr(proofEnv, allowed, lines, i);
    }
    if Missing(proofEnv, allowed, lines) != [] {
      InsertedWithoutCr(proofEnv, allowed, lines);
      StableSplice(mapped, [HEADER] + Assignments(proofEnv, Missing(proofEnv, allowed, lines)));
    }
  }

  /** Applying twice is applying once if and only if no line that names no pending key and is kept ahead of
      another ends with a carriage return, and no value to be written has a raw line separator. */
  lemma {:induction false} ApplyTwiceIff(proofEnv: map<string, string>, allowed: seq<string>, text: string)
    requires ValidKeys(allowed)
    ensures Once(proofEnv, allowed, Once(proofEnv, allowed, text)) == Once(proofEnv, allowed, text)
       <==> !EndsInStrayCr(proofEnv, allowed, Split(text)) && NoSeparators(proofEnv, allowed)
  {
    StableIffNoStrayCr(proofEnv, allowed, Split(text));
    hide EndsInStrayCr, Split, Join, Missing, Resplit, ValidKeys, AppliedLines, NoSeparators, Stable, MapLines, AllLines;
    var lines := AppliedLines(proofEnv, allowed, Split(text));
    MappedAgain(proofEnv, allowed, text);
    SplitJoin(lines);
    SplitJoinIff(lines);
    var again := Split(Join(lines));
    var twice := AppliedLines(proofEnv, allowed, again);
    NothingMissingIff(proofEnv, allowed, text);
    if Stable(lines) && NoSeparators(proofEnv, allowed) {
      assert again == lines;
      UnmissedIsMapped(proofEnv, allowed, lines);
    } else if Join(twice) == Join(lines) {
      MappedAgain(proofEnv, allowed, Join(lines));
      JoinLength(twice, lines);
      ResplitAt(lines);
      AppliedNonEmpty(proofEnv, allowed, again);
      JoinInjective(twice, lines);
      UnmissedIsMapped(proofEnv, allowed, again);
      MappedIsStable(proofEnv, allowed, lines);
    }
  }

  /** A value with U+2028 is written raw, is not recognised the second time, and is added again. */
  lemma {:induction false} SeparatorBreaksApplyingTwice()
    ensures var proofEnv := map["A" := "x\U{2028}"];
            Once(proofEnv, ["A"], Once(proofEnv, ["A"], "")) != Once(proofEnv, ["A"], "")
  {
    hide Once;
    var value := "x\U{2028}";
    var proofEnv := map["A" := value];
    assert value[1] == '\U{2028}';
    assert Trim(value) != "" by { TrimIsTrimmed(value); assert !IsSpace(value[0]); }
    assert "A" in ["A"] && IsEnvKey("A");
    ApplyTwiceIff(proofEnv, ["A"], "");
  }

  lemma {:induction false} UnmissedIsMapped(proofEnv: map<string, string>, allowed: seq<string>, lines: seq<string>)
    ensures Missing(proofEnv, allowed, lines) == [] ==> AppliedLines(proofEnv, allowed, lines) == MapLines(proofEnv, allowed, lines)
  {
  }

  lemma {:induction false} NothingMissingIff(proofEnv: map<string, string>, allowed: seq<string>, text: string)
    requires ValidKeys(allowed)
    ensures Missing(proofEnv, allowed, AppliedLines(proofEnv, allowed, Split(text))) == [] <==> NoSeparators(proofEnv, allowed)
  {
    hide Split, AppliedLines, HasSeparator, HasValue, ValidKeys, Missing;
    StillMissing(proofEnv, allowed, text);
    var missing := Missing(proofEnv, allowed, AppliedLines(proofEnv, allowed, Split(text)));
    if missing != [] {
      assert missing[0] in missing;
    }
  }

  /** Lines that mapping rebuilds from what is left of them after joining have lost no carriage return. */
  lemma {:induction false} MappedIsStable(proofEnv: map<string, string>, allowed: seq<string>, lines: seq<string>)
    requires ValidKeys(allowed) && lines != [] && MapLines(proofEnv, allowed, Resplit(lines)) == lines
    ensures Stable(lines)
  {
    hide Target, Assignment, Resplit, ValidKeys;
    ResplitAt(lines);
    forall i | 0 <= i < |lines| - 1
      ensures !EndsWithCr(lines[i])
    {
      NewLineIsSettled(proofEnv, allowed, Resplit(lines)[i]);
      assert lines[i] == NewLine(proofEnv, allowed, DropCr(lines[i]));
    }
  }

  // --- updated and skipped keys ----------------------------------------------------------------------------

  lemma {:induction false} AddAssignedStep(proofEnv: map<string, string>, keys: seq<string>, init: seq<string>, last: string)
    requires IsEnvKey(last)
    ensures AddAssigned(keys, Assignments(proofEnv, init + [last])) ==
            AddKey(AddAssigned(keys, Assignments(proofEnv, init)), Some(last))
  {
    hide BeforeEquals, Assignment, IsEnvKey, AddKey;
    AssignmentKey(last, ValueOf(proofEnv, last));
    var a := Assignments(proofEnv, init + [last]);
    assert (init + [last])[..|init|] == init;
    assert a[..|a| - 1] == Assignments(proofEnv, init);
  }

  lemma {:induction false} AddAssignedIs(proofEnv: map<string, string>, keys: seq<string>, more: seq<string>)
    requires forall k <- more :: IsEnvKey(k)
    requires Distinct(keys)
    ensures Distinct(AddAssigned(keys, Assignments(proofEnv, more)))
    ensures forall k :: k in AddAssigned(keys, Assignments(proofEnv, more)) <==> k in keys || k in more
  {
    if more != [] {
      hide AddAssigned, Assignments, IsEnvKey, AddKey, Distinct;
      var init, last := more[..|more| - 1], more[|more| - 1];
      assert more == init + [last];
      assert forall k <- init :: k in more;
      assert last in more;
      AddAssignedIs(proofEnv, keys, init);
      AddAssignedStep(proofEnv, keys, init, last);
      AddKeyIs(AddAssigned(keys, Assignments(proofEnv, init)), last);
    }
  }

  lemma {:induction false} AddKeyIs(keys: seq<string>, key: string)
    requires Distinct(keys)
    ensures Distinct(AddKey(keys, Some(key)))
    ensures forall k :: k in AddKey(keys, Some(key)) <==> k in keys || k == key
  {
  }

  /** The keys reported as updated and as skipped are the allowed keys, split by whether they have a
      value; no updated key is reported twice, and no skipped one if the allowed keys are distinct. */
  lemma {:induction false} KeysArePartitioned(proofEnv: map<string, string>, allowed: seq<string>, lines: seq<string>, key: string)
    requires ValidKeys(allowed)
    ensures key in UpdatedKeys(proofEnv, allowed, lines) <==> key in allowed && HasValue(proofEnv, key)
    ensures key in SkippedKeys(proofEnv, allowed) <==> key in allowed && !HasValue(proofEnv, key)
    ensures Distinct(UpdatedKeys(proofEnv, allowed, lines))
    ensures Distinct(allowed) ==> Distinct(SkippedKeys(proofEnv, allowed))
  {
    hide Target, HasValue, IsEnvKey, TouchedKeys, Missing, Distinct, SkippedKeys;
    if Distinct(allowed) { SkippedOnce(proofEnv, allowed); }
    var missing := Missing(proofEnv, allowed, lines);
    TouchedKeysAre(proofEnv, allowed, lines);
    forall k <- missing
      ensures IsEnvKey(k)
    {
      MissingArePending(proofEnv, allowed, lines, k);
    }
    AddAssignedIs(proofEnv, TouchedKeys(proofEnv, allowed, lines), missing);
    MissingArePending(proofEnv, allowed, lines, key);
    TouchedArePending(proofEnv, allowed, lines, key);
  }

  /** Distinct allowed keys are reported as skipped once each. */
  lemma {:induction false} SkippedOnce(proofEnv: map<string, string>, allowed: seq<string>)
    requires Distinct(allowed)
    ensures Distinct(SkippedKeys(proofEnv, allowed))
  {
    hide HasValue;
    if allowed != [] {
      var init, last := allowed[..|allowed| - 1], allowed[|allowed| - 1];
      SkippedOnce(proofEnv, init);
      assert last !in init;
      assert last !in SkippedKeys(proofEnv, init);
    }
  }

  lemma {:induction false} TouchedArePending(proofEnv: map<string, string>, allowed: seq<string>, lines: seq<string>, key: string)
    ensures key in TouchedKeys(proofEnv, allowed, lines) ==> IsPending(proofEnv, allowed, key)
  {
    hide HasValue, KeyOf, TouchedKeys;
    TouchedKeysAre(proofEnv, allowed, lines);
  }

  lemma {:induction false} KeyAtStartIff(s: string, key: string)
    ensures KeyAtStart(s) == Some(key) <==> KeyText(key) && exists rest | NoTerminator(rest) :: s == key + "=" + rest
  {
    hide NoTerminator;
    if KeyAtStart(s) == Some(key) {
      assert s == key + "=" + s[|key| + 1..];
    }
    if KeyText(key) && exists rest | NoTerminator(rest) :: s == key + "=" + rest {
      var rest :| NoTerminator(rest) && s == key + "=" + rest;
      KeyRunOf(key, "=" + rest);
      assert s == key + ("=" + rest);
      assert s[..|key|] == key && s[|key| + 1..] == rest;
    }
  }

  lemma {:induction false} NoKeyWithoutText(s: string)
    requires s == "" || IsSpace(s[0])
    ensures KeyAtStart(s).None?
  {
  }

  lemma {:induction false} BehindLead(before: string, b: string, key: string)
    requires Lead(before) && KeyAtStart(b) == Some(key)
    ensures Assigns(before + b, key)
  {
    hide NoTerminator, KeyAtStart, Lead, KeyText;
    KeyAtStartIff(b, key);
    var rest :| NoTerminator(rest) && b == key + "=" + rest;
    Regroup(before, key, rest);
  }

  lemma {:induction false} FoundIsAssigned(line: string, key: string)
    requires KeyOf(line) == Some(key)
    ensures Assigns(line, key)
  {
    hide KeyAtStart, AllSpace, Lead, Assigns, TrimStart;
    var a := TrimStart(line);
    var before := LeadingSpace(line);
    if a != "" && a[0] == '#' {
      var b := TrimStart(a[1..]);
      var between := LeadingSpace(a[1..]);
      CommentLead(before, between);
      Pieces(line, a, before, between, b);
      BehindLead(before + "#" + between, b, key);
    } else {
      SpaceLead(before);
      BehindLead(before, a, key);
    }
  }

  lemma SpaceLead(before: string)
    requires AllSpace(before)
    ensures Lead(before)
  {
  }

  lemma CommentLead(a: string, b: string)
    requires AllSpace(a) && AllSpace(b)
    ensures Lead(a + "#" + b)
  {
  }

  lemma {:induction false} Pieces(line: string, a: string, before: string, between: string, b: string)
    requires line == before + a && a != "" && a[0] == '#' && a[1..] == between + b
    ensures line == (before + "#" + between) + b
  {
    assert a == "#" + a[1..];
  }

  lemma {:induction false} Regroup(before: string, key: string, rest: string)
    ensures before + (key + "=" + rest) == before + key + "=" + rest
  {
  }

  /** The regular expression finds exactly the key that the line assigns. */
  lemma {:induction false} KeyOfIff(line: string, key: string)
    ensures KeyOf(line) == Some(key) <==> Assigns(line, key)
  {
    hide NoTerminator, KeyOf, Lead, KeyText;
    if KeyOf(line) == Some(key) { FoundIsAssigned(line, key); }
    if Assigns(line, key) {
      var before, rest :| Lead(before) && NoTerminator(rest) && line == before + key + "=" + rest;
      AssignedIsFound(before, key, rest);
    }
  }

  lemma {:induction false} AssignedIsFound(before: string, key: string, rest: string)
    requires KeyText(key) && Lead(before) && NoTerminator(rest)
    ensures KeyOf(before + key + "=" + rest) == Some(key)
  {
    hide NoTerminator, KeyAtStart, AllSpace;
    var tail := key + "=" + rest;
    var line := before + key + "=" + rest;
    assert tail[0] == key[0] && !IsSpace(tail[0]) && tail[0] != '#';
    KeyAtStartIff(tail, key);
    if AllSpace(before) {
      assert line == before + tail;
      TrimStartOf(before, tail);
    } else {
      var a, b :| AllSpace(a) && AllSpace(b) && before == a + "#" + b;
      assert line == a + ("#" + (b + tail));
      TrimStartOf(a, "#" + (b + tail));
      assert ("#" + (b + tail))[1..] == b + tail;
      TrimStartOf(b, tail);
    }
  }

  lemma {:induction false} FormatIsWritten(value: string)
    ensures Written(value, FormatValue(value))
  {
    hide Json.Parse, Json.Escape;
    assert Json.Valid(Json.Str(value));
    JsonRoundTrip.ParsePrinted(Json.Str(value), "", "");
    assert Json.Print(Json.Str(value), "", "") + "" == Json.Quote(value);
  }

  lemma {:induction false} CopiedIff(proofEnv: map<string, string>, allowed: seq<string>, key: string)
    ensures IsPending(proofEnv, allowed, key) <==> Copied(proofEnv, allowed, key)
  {
    if key in proofEnv { TrimIsTrimmed(proofEnv[key]); }
  }

  lemma {:induction false} AssignmentIs(proofEnv: map<string, string>, allowed: seq<string>, key: string)
    requires IsPending(proofEnv, allowed, key)
    ensures Assigned(proofEnv, key, Assignment(key, ValueOf(proofEnv, key)))
  {
    hide Written, FormatValue, Trim;
    FormatIsWritten(proofEnv[key]);
  }

  lemma {:induction false} TargetIff(proofEnv: map<string, string>, allowed: seq<string>, line: string, key: string)
    ensures Target(proofEnv, allowed, line) == Some(key) <==> Copied(proofEnv, allowed, key) && Assigns(line, key)
  {
    hide KeyOf, Copied, Assigns, IsPending;
    KeyOfIff(line, key);
    CopiedIff(proofEnv, allowed, key);
  }

  lemma {:induction false} NewLineFollows(proofEnv: map<string, string>, allowed: seq<string>, line: string)
    ensures LineFollows(proofEnv, allowed, line, NewLine(proofEnv, allowed, line))
  {
    hide Copied, Assigns, Assignment, KeyOf, IsPending, Assigned;
    forall key ensures Target(proofEnv, allowed, line) == Some(key) <==> Copied(proofEnv, allowed, key) && Assigns(line, key) {
      TargetIff(proofEnv, allowed, line, key);
    }
    if Target(proofEnv, allowed, line).Some? { AssignmentIs(proofEnv, allowed, Target(proofEnv, allowed, line).value); }
  }

  lemma {:induction false} MappedFollow(proofEnv: map<string, string>, allowed: seq<string>, lines: seq<string>)
    ensures LinesFollow(proofEnv, allowed, lines, MapLines(proofEnv, allowed, lines))
  {
    hide LineFollows, NewLine, MapLines;
    forall i | 0 <= i < |lines| ensures LineFollows(proofEnv, allowed, lines[i], MapLines(proofEnv, allowed, lines)[i]) {
      NewLineFollows(proofEnv, allowed, lines[i]);
    }
  }

  lemma {:induction false} PendingInOrder(proofEnv: map<string, string>, allowed: seq<string>)
    ensures InOrder(PendingKeys(proofEnv, allowed), allowed)
  {
    hide HasValue, InOrder;
    if allowed == [] {
      NoneInOrder(allowed);
    } else {
      var init, last := allowed[..|allowed| - 1], allowed[|allowed| - 1];
      PendingInOrder(proofEnv, init);
      PendingAreAllowed(proofEnv, init);
      OrderMore(PendingKeys(proofEnv, init), init, last);
      assert allowed == init + [last];
    }
  }

  lemma PendingAreAllowed(proofEnv: map<string, string>, allowed: seq<string>)
    ensures forall k <- PendingKeys(proofEnv, allowed) :: k in allowed
  {
    hide HasValue;
  }

  /** Keys in the order of a list stay so when the list grows, and a new key of the list may follow them. */
  lemma {:induction false} OrderMore(keys: seq<string>, list: seq<string>, last: string)
    requires InOrder(keys, list) && forall k <- keys :: k in list
    ensures InOrder(keys, list + [last])
    ensures last !in list ==> InOrder(keys + [last], list + [last])
  {
    hide FirstAt;
    var more := list + [last];
    forall k, m | k in list ensures FirstAt(more, m, k) <==> FirstAt(list, m, k) { FirstAtMore(list, last, k, m); }
    if last !in list {
      forall m ensures FirstAt(more, m, last) <==> m == |list| { FirstAtLast(list, last, m); }
      forall k, m | FirstAt(list, m, k) ensures m < |list| { FirstAtBound(list, m, k); }
    }
  }

  lemma FirstAtBound(list: seq<string>, m: int, k: string)
    requires FirstAt(list, m, k)
    ensures 0 <= m < |list|
  {
  }

  lemma {:induction false} FirstAtMore(list: seq<string>, last: string, k: string, m: int)
    requires k in list
    ensures FirstAt(list + [last], m, k) <==> FirstAt(list, m, k)
  {
    var more := list + [last];
    var i :| 0 <= i < |list| && list[i] == k;
    assert more[i] == k && more[|list|] == last;
    assert forall j | 0 <= j < |list| :: more[j] == list[j];
  }

  lemma {:induction false} FirstAtLast(list: seq<string>, last: string, m: int)
    requires last !in list
    ensures FirstAt(list + [last], m, last) <==> m == |list|
  {
    var more := list + [last];
    assert forall j | 0 <= j < |list| :: more[j] == list[j];
  }

  /** Leaving keys out keeps the order. */
  lemma {:induction false} MissingInOrder(pending: seq<string>, touched: seq<string>, list: seq<string>)
    requires InOrder(pending, list)
    ensures InOrder(MissingKeys(pending, touched), list)
  {
    hide FirstAt;
    if pending != [] {
      var init, last := pending[..|pending| - 1], pending[|pending| - 1];
      assert InOrder(init, list) by { OrderPrefix(pending, list); }
      MissingInOrder(init, touched, list);
      var r := MissingKeys(init, touched);
      if last !in touched {
        forall i, m, n | 0 <= i < |r| && FirstAt(list, m, r[i]) && FirstAt(list, n, last) ensures m < n {
          assert r[i] in r;
          var j :| 0 <= j < |init| && init[j] == r[i];
          assert pending[j] == r[i];
        }
      }
    }
  }

  lemma {:induction false} OrderPrefix(keys: seq<string>, list: seq<string>)
    requires keys != [] && InOrder(keys, list)
    ensures InOrder(keys[..|keys| - 1], list)
  {
    hide FirstAt;
  }

  lemma {:induction false} MissingOnce(pending: seq<string>, touched: seq<string>)
    requires Distinct(pending)
    ensures Distinct(MissingKeys(pending, touched))
  {
    if pending != [] {
      var init, last := pending[..|pending| - 1], pending[|pending| - 1];
      MissingOnce(init, touched);
      assert last !in init;
      assert last !in MissingKeys(init, touched);
    }
  }

  lemma {:induction false} SkippedInOrder(proofEnv: map<string, string>, allowed: seq<string>)
    requires Distinct(allowed)
    ensures InOrder(SkippedKeys(proofEnv, allowed), allowed)
  {
    hide HasValue, InOrder, Distinct;
    if allowed == [] {
      NoneInOrder(allowed);
    } else {
      var init, last := allowed[..|allowed| - 1], allowed[|allowed| - 1];
      LastIsNew(allowed);
      SkippedInOrder(proofEnv, init);
      var keys := SkippedKeys(proofEnv, init);
      assert forall k <- keys :: k in init;
      OrderMore(keys, init, last);
      assert allowed == init + [last] && keys + [] == keys;
    }
  }

  lemma LastIsNew(keys: seq<string>)
    requires keys != [] && Distinct(keys)
    ensures Distinct(keys[..|keys| - 1]) && keys[|keys| - 1] !in keys[..|keys| - 1]
  {
  }

  lemma NoneInOrder(list: seq<string>)
    ensures InOrder([], list)
  {
  }

  lemma {:induction false} SkippedFollows(proofEnv: map<string, string>, allowed: seq<string>)
    ensures SkippedFollow(proofEnv, allowed, SkippedKeys(proofEnv, allowed))
  {
    hide HasValue, Copied, InOrder, SkippedKeys;
    forall key ensures key in SkippedKeys(proofEnv, allowed) <==> key in allowed && !Copied(proofEnv, allowed, key) {
      CopiedIff(proofEnv, allowed, key);
    }
    if Distinct(allowed) {
      SkippedInOrder(proofEnv, allowed);
      SkippedOnce(proofEnv, allowed);
    }
  }

  lemma {:induction false} TouchedFollows(proofEnv: map<string, string>, allowed: seq<string>, lines: seq<string>)
    ensures TouchedFollow(proofEnv, allowed, lines, TouchedKeys(proofEnv, allowed, lines))
  {
    hide Copied, Assigns, Target, TouchedKeys;
    var touched := TouchedKeys(proofEnv, allowed, lines);
    TouchedKeysAre(proofEnv, allowed, lines);
    forall key, i | 0 <= i < |lines|
      ensures Target(proofEnv, allowed, lines[i]) == Some(key) <==> Copied(proofEnv, allowed, key) && Assigns(lines[i], key)
    {
      TargetIff(proofEnv, allowed, lines[i], key);
    }
    forall i, j, m, n | 0 <= i < j < |touched| && FirstLine(lines, m, touched[i]) && FirstLine(lines, n, touched[j]) ensures m < n {
      TouchedInOrder(proofEnv, allowed, lines, i, j, m, n);
    }
  }

  lemma {:induction false} TouchedInOrder(proofEnv: map<string, string>, allowed: seq<string>, lines: seq<string>, i: nat, j: nat,
                                          m: nat, n: nat)
    requires var touched := TouchedKeys(proofEnv, allowed, lines);
             i < j < |touched| && FirstLine(lines, m, touched[i]) && FirstLine(lines, n, touched[j])
    ensures m < n
  {
    hide Copied, Assigns, Target;
    var init, last := lines[..|lines| - 1], lines[|lines| - 1];
    var touched, before := TouchedKeys(proofEnv, allowed, lines), TouchedKeys(proofEnv, allowed, init);
    TouchedAssigned(proofEnv, allowed, init, touched[i]);
    assert touched[i] == before[i] && touched[i] in before;
    var at :| 0 <= at < |init| && Assigns(init[at], touched[i]);
    assert lines[at] == init[at];
    assert m <= at;
    if j < |before| {
      assert touched[j] == before[j] && touched[j] in before;
      TouchedAssigned(proofEnv, allowed, init, touched[j]);
      var to :| 0 <= to < |init| && Assigns(init[to], touched[j]);
      assert lines[to] == init[to];
      assert forall k | 0 <= k < |init| :: init[k] == lines[k];
      TouchedInOrder(proofEnv, allowed, init, i, j, m, n);
    } else if n < |init| {
      assert touched[j] in touched && Assigns(init[n], touched[j]);
      TouchedAssigned(proofEnv, allowed, lines, touched[j]);
      TouchedAssigned(proofEnv, allowed, init, touched[j]);
      assert false;
    }
  }

  lemma {:induction false} TouchedAssigned(proofEnv: map<string, string>, allowed: seq<string>, lines: seq<string>, key: string)
    ensures key in TouchedKeys(proofEnv, allowed, lines) <==> Copied(proofEnv, allowed, key) && SomeLine(lines, key)
  {
    hide Copied, Assigns, Target, TouchedKeys;
    TouchedKeysAre(proofEnv, allowed, lines);
    forall i | 0 <= i < |lines|
      ensures Target(proofEnv, allowed, lines[i]) == Some(key) <==> Copied(proofEnv, allowed, key) && Assigns(lines[i], key)
    {
      TargetIff(proofEnv, allowed, lines[i], key);
    }
  }

  lemma {:induction false} AddedFollows(proofEnv: map<string, string>, allowed: seq<string>, lines: seq<string>)
    ensures AddedFollow(proofEnv, allowed, lines, Missing(proofEnv, allowed, lines))
    ensures Distinct(Missing(proofEnv, allowed, lines))
  {
    hide Copied, InOrder, TouchedKeys, PendingKeys, MissingKeys, SomeLine, Distinct;
    var pending, touched := PendingKeys(proofEnv, allowed), TouchedKeys(proofEnv, allowed, lines);
    PendingInOrder(proofEnv, allowed);
    MissingInOrder(pending, touched, allowed);
    assert Distinct(pending) by { PendingOnce(proofEnv, allowed); }
    MissingOnce(pending, touched);
    forall key ensures key in Missing(proofEnv, allowed, lines) <==> Copied(proofEnv, allowed, key) && !SomeLine(lines, key) {
      TouchedAssigned(proofEnv, allowed, lines, key);
      CopiedIff(proofEnv, allowed, key);
    }
  }

  lemma PendingOnce(proofEnv: map<string, string>, allowed: seq<string>)
    ensures Distinct(PendingKeys(proofEnv, allowed))
  {
    hide HasValue, IsPending;
  }

  /** Keys that are new are appended in order. */
  lemma {:induction false} AddedAreAppended(proofEnv: map<string, string>, keys: seq<string>, more: seq<string>)
    requires forall k <- more :: IsEnvKey(k)
    requires Distinct(keys + more)
    ensures AddAssigned(keys, Assignments(proofEnv, more)) == keys + more
  {
    hide AddAssigned, IsEnvKey, Assignments, Distinct;
    if more == [] {
      assert Assignments(proofEnv, more) == [];
      NothingAppended(keys);
    } else {
      var init, last := more[..|more| - 1], more[|more| - 1];
      assert more == init + [last] && last in more;
      assert keys + more == (keys + init) + [last];
      LastIsNew(keys + more);
      assert (keys + more)[..|keys + more| - 1] == keys + init;
      AddedAreAppended(proofEnv, keys, init);
      AddAssignedStep(proofEnv, keys, init, last);
    }
  }

  lemma NothingAppended(keys: seq<string>)
    ensures AddAssigned(keys, []) == keys && keys + [] == keys
  {
  }

  lemma {:induction false} KeyTextIff(key: string)
    ensures KeyText(key) <==> IsEnvKey(key)
  {
  }

  lemma {:induction false} UpdatedFollow(proofEnv: map<string, string>, allowed: seq<string>, lines: seq<string>)
    requires forall key <- allowed :: KeyText(key)
    ensures var all := TouchedKeys(proofEnv, allowed, lines) + Missing(proofEnv, allowed, lines);
            Distinct(all) && UpdatedKeys(proofEnv, allowed, lines) == all
  {
    hide TouchedKeys, IsEnvKey, KeyText, Missing, Target, Assignments, AddAssigned;
    var touched, missing := TouchedKeys(proofEnv, allowed, lines), Missing(proofEnv, allowed, lines);
    TouchedKeysAre(proofEnv, allowed, lines);
    AddedFollows(proofEnv, allowed, lines);
    forall k ensures k in missing ==> k !in touched && IsEnvKey(k) {
      MissingArePending(proofEnv, allowed, lines, k);
      KeyTextIff(k);
    }
    DistinctConcat(touched, missing);
    AddedAreAppended(proofEnv, touched, missing);
  }

  lemma {:induction false} DistinctConcat(a: seq<string>, b: seq<string>)
    requires Distinct(a) && Distinct(b) && forall k <- b :: k !in a
    ensures Distinct(a + b)
  {
    var c := a + b;
    forall i, j | 0 <= i < j < |c| ensures c[i] != c[j] {
      if i < |a| <= j {
        assert c[i] in a && c[j] == b[j - |a|] && b[j - |a|] in b;
      }
    }
  }

  lemma {:induction false} BlockIs(proofEnv: map<string, string>, allowed: seq<string>, lines: seq<string>)
    ensures BlockFollows(proofEnv, MapLines(proofEnv, allowed, lines), Missing(proofEnv, allowed, lines),
                         AppliedLines(proofEnv, allowed, lines))
  {
    hide MapLines, Missing, Assigned, Assignment, HEADER;
    var kept, added := MapLines(proofEnv, allowed, lines), Missing(proofEnv, allowed, lines);
    forall i | 0 <= i < |added| ensures Assigned(proofEnv, added[i], Assignments(proofEnv, added)[i]) {
      assert added[i] in added;
      MissingArePending(proofEnv, allowed, lines, added[i]);
      AssignmentIs(proofEnv, allowed, added[i]);
    }
    SplicedBlock(proofEnv, kept, added, Assignments(proofEnv, added));
  }

  lemma {:induction false} SplicedBlock(proofEnv: map<string, string>, kept: seq<string>, added: seq<string>, block: seq<string>)
    requires |block| == |added| && forall i | 0 <= i < |added| :: Assigned(proofEnv, added[i], block[i])
    ensures var next := if added == [] then kept else Splice(kept, [HEADER] + block); BlockFollows(proofEnv, kept, added, next)
  {
    hide Assigned, HEADER;
    HeaderIs();
    var p := SplicePoint(kept);
    PartsOf(kept[..p], HEADER, block, kept[p..]);
  }

  lemma {:induction false} PartsOf(a: seq<string>, h: string, b: seq<string>, c: seq<string>)
    ensures var next := a + ([h] + b) + c;
            && |next| == |a| + 1 + |b| + |c| && next[..|a|] == a && next[|a| + 1 + |b|..] == c && next[|a|] == h
            && forall i | 0 <= i < |b| :: next[|a| + 1 + i] == b[i]
  {
    BlockBetween(a, [h] + b, c);
  }

  lemma {:induction false} HeaderIs()
    ensures HEADER == "# V" + "alues copied" + " from phase7:" + "staging:seed" + " proofEnv."
  {
    var a, b, c, d, e := "# V", "alues copied", " from phase7:", "staging:seed", " proofEnv.";
    Associates(a, b, c, d, e);
  }

  lemma {:induction false} Associates(a: string, b: string, c: string, d: string, e: string)
    ensures a + (b + c + d + e) == a + b + c + d + e
  {
  }

  lemma {:induction false} ApplicationFollows(proofEnv: map<string, string>, allowed: seq<string>, text: string)
    ensures var lines := Split(text);
            Follows(proofEnv, allowed, text, Applied(Join(AppliedLines(proofEnv, allowed, lines)),
                    UpdatedKeys(proofEnv, allowed, lines), SkippedKeys(proofEnv, allowed)))
  {
    hide Split, Join, LinesFollow, TouchedFollow, AddedFollow, BlockFollows, SkippedFollow, MapLines, TouchedKeys, Missing,
         AppliedLines, UpdatedKeys, SkippedKeys, KeyText;
    var lines := Split(text);
    MappedFollow(proofEnv, allowed, lines);
    TouchedFollows(proofEnv, allowed, lines);
    AddedFollows(proofEnv, allowed, lines);
    BlockIs(proofEnv, allowed, lines);
    SkippedFollows(proofEnv, allowed);
    if forall key <- allowed :: KeyText(key) { UpdatedFollow(proofEnv, allowed, lines); }
    assert FollowsBy(proofEnv, allowed, text,
                     Applied(Join(AppliedLines(proofEnv, allowed, lines)), UpdatedKeys(proofEnv, allowed, lines), SkippedKeys(proofEnv, allowed)),
                     MapLines(proofEnv, allowed, lines), TouchedKeys(proofEnv, allowed, lines), Missing(proofEnv, allowed, lines),
                     AppliedLines(proofEnv, allowed, lines));
  }
}
