/** The three ways the evidence tools look for a JSON object inside a noisy log. */
module JsonSearch {
  import opened Text
  import opened Json
  import opened JsonLines
  import opened JsonRoundTrip
  import opened JsonScan
  import opened JsonPrefix

  /** An object of the grammar begins at position i. */
  predicate ObjectAt(text: string, i: nat) {
    i < |text| && text[i] == '{' && ParseValue(text[i..]).Parsed?
  }

  function ObjectText(text: string, i: nat): string
    requires ObjectAt(text, i)
  {
    text[i..|text| - |ParseValue(text[i..]).rest|]
  }

  lemma {:induction false} ObjectIsObj(s: string)
    requires s != "" && s[0] == '{' && ParseValue(s).Parsed?
    ensures ParseValue(s).value.Obj?
  {
    hide ParseMembers;
  }

  lemma {:induction false} SkipNone(s: string)
    requires s != "" && s[0] == '{'
    ensures SkipBlanks(s) == s
  {
  }

  lemma {:induction false} ObjectGivesCandidate(s: string)
    requires s != "" && s[0] == '{' && ParseValue(s).Parsed?
    ensures Candidate(s) == Some(s[..|s| - |ParseValue(s).rest|])
    ensures Parse(Candidate(s).value) == Some(ParseValue(s).value)
  {
    hide ParseValue, Close, SkipBlanks;
    ScanObject(0, s);
    var rest := ParseValue(s).rest;
    var c := s[..|s| - |rest|];
    assert s == c + rest;
    ValueAgrees(c, rest);
    assert ParseValue(c).rest == "";
    SkipNone(c);
    EmptyBlanks();
  }

  lemma {:induction false} EmptyBlanks()
    ensures SkipBlanks("") == ""
  {
  }

  lemma {:induction false} CandidateGivesObject(s: string)
    requires s != "" && s[0] == '{'
    requires Candidate(s).Some? && Parse(Candidate(s).value).Some?
    ensures ParseValue(s).Parsed?
  {
    hide ParseValue, Close, SkipBlanks;
    var c := Candidate(s).value;
    assert s == c + s[|c|..];
    EmptyBlanks();
    NothingInEmpty();
    SkipNone(c);
    ValueAgrees(c, s[|c|..]);
  }

  /** The scanner's candidate is accepted by `JSON.parse` exactly when an object of the grammar
      begins there, and then it is the text and the value of that object. */
  lemma {:induction false} CandidateIsObject(s: string)
    requires s != "" && s[0] == '{'
    ensures (Candidate(s).Some? && Parse(Candidate(s).value).Some?) <==> ParseValue(s).Parsed?
    ensures ParseValue(s).Parsed? ==>
              && Candidate(s) == Some(s[..|s| - |ParseValue(s).rest|])
              && Parse(Candidate(s).value) == Some(ParseValue(s).value)
  {
    hide ParseValue, Parse, Candidate;
    if ParseValue(s).Parsed? {
      ObjectGivesCandidate(s);
    } else if Candidate(s).Some? && Parse(Candidate(s).value).Some? {
      CandidateGivesObject(s);
    }
  }

  // --- positions -----------------------------------------------------------------------------

  /** `text.indexOf(pattern, from)`. */
  function IndexOf(text: string, pattern: string, from: nat): (r: Option<nat>)
    requires pattern != ""
    ensures r.Some? ==> from <= r.value && OccursAt(text, pattern, r.value)
    ensures forall i | from <= i && (r.Some? ==> i < r.value) :: !OccursAt(text, pattern, i)
    decreases |text| - from
  {
    if from >= |text| then None
    else if OccursAt(text, pattern, from) then Some(from)
    else IndexOf(text, pattern, from + 1)
  }

  /** `text.lastIndexOf(pattern, from)`. */
  function LastIndexOf(text: string, pattern: string, from: nat): (r: Option<nat>)
    requires pattern != ""
    ensures r.Some? ==> r.value <= from && OccursAt(text, pattern, r.value)
    ensures forall i: nat | i <= from && (r.Some? ==> r.value < i) :: !OccursAt(text, pattern, i)
  {
    if OccursAt(text, pattern, from) then Some(from)
    else if from == 0 then None
    else LastIndexOf(text, pattern, from - 1)
  }

  predicate BraceFree(s: string) {
    forall i | 0 <= i < |s| :: s[i] != '{'
  }

  lemma {:induction false} BraceOccurs(text: string, i: nat)
    ensures OccursAt(text, "{", i) <==> i < |text| && text[i] == '{'
  {
    if i < |text| { assert text[i..i + 1] == [text[i]]; }
  }

  // --- the first object of a text --------------------------------------------------------------

  predicate FirstObjectAt(text: string, i: nat) {
    ObjectAt(text, i) && forall j: nat | j < i :: !ObjectAt(text, j)
  }

  /** `parseFirstJsonObject`: the first object of the grammar anywhere in the text. */
  method ParseFirstJsonObject(text: string) returns (r: Option<Json>)
    ensures r.Some? ==> exists i: nat :: FirstObjectAt(text, i) && r == Some(ParseValue(text[i..]).value)
    ensures r.None? ==> forall i: nat :: !ObjectAt(text, i)
  {
    hide ParseValue;
    var start := IndexOf(text, "{", 0);
    forall i: nat | start.Some? ==> i < start.value
      ensures !ObjectAt(text, i)
    {
      BraceOccurs(text, i);
    }
    if start.Some? { BraceOccurs(text, start.value); }
    while start.Some?
      invariant start.Some? ==> start.value < |text| && text[start.value] == '{'
      invariant forall i: nat | start.Some? ==> i < start.value :: !ObjectAt(text, i)
      decreases if start.Some? then |text| - start.value else -1
    {
      var candidate := ReadJsonObjectCandidate(text, start.value);
      CandidateIsObject(text[start.value..]);
      if candidate.Some? {
        var parsed := Parse(candidate.value);
        if parsed.Some? {
          assert FirstObjectAt(text, start.value);
          return parsed;
        }
      }
      var next := IndexOf(text, "{", start.value + 1);
      NoObjectUntil(text, start.value, next);
      if next.Some? { BraceOccurs(text, next.value); }
      start := next;
    }
    return None;
  }

  lemma {:induction false} NoObjectUntil(text: string, start: nat, next: Option<nat>)
    requires next == IndexOf(text, "{", start + 1)
    requires !ObjectAt(text, start)
    ensures forall i: nat | start <= i && (next.Some? ==> i < next.value) :: !ObjectAt(text, i)
  {
    forall i: nat | start <= i && (next.Some? ==> i < next.value)
      ensures !ObjectAt(text, i)
    {
      BraceOccurs(text, i);
    }
  }

  /** `parseJsonObject`: the whole text when it is JSON, otherwise its first object. */
  method ParseJsonObject(text: string) returns (r: Option<Json>)
    ensures r.Some? ==> r.value.Obj?
    ensures Parse(text).Some? ==> r == if Parse(text).value.Obj? then Parse(text) else None
    ensures Parse(text).None? && r.Some? ==>
              exists i: nat :: FirstObjectAt(text, i) && r == Some(ParseValue(text[i..]).value)
    ensures Parse(text).None? && r.None? ==> forall i: nat :: !ObjectAt(text, i)
  {
    hide ParseValue, Parse;
    match Parse(text) {
      case Some(v) => r := if v.Obj? then Some(v) else None;
      case None =>
        r := ParseFirstJsonObject(text);
        if r.Some? {
          ghost var i: nat :| FirstObjectAt(text, i) && r == Some(ParseValue(text[i..]).value);
          ObjectIsObj(text[i..]);
        }
    }
  }

  /** A printed object is found at its own brace, with its own value, whatever surrounds it. */
  lemma {:induction false} PrintedObjectAt(before: string, v: Json, gap: string, after: string)
    requires v.Obj? && Valid(v) && Blank(gap)
    ensures var text := before + Print(v, gap, "") + after;
            && ObjectAt(text, |before|)
            && ParseValue(text[|before|..]) == Parsed(v, after)
            && ObjectText(text, |before|) == Print(v, gap, "")
  {
    hide ParseValue, Print, Valid;
    var text := before + Print(v, gap, "") + after;
    var s := Print(v, gap, "") + after;
    assert text[|before|..] == s;
    ObjectSelfDelimits(v, gap, after);
    PrintStartsWithBrace(v, gap);
    assert s[0] == Print(v, gap, "")[0];
    assert text[|before|..|text| - |after|] == Print(v, gap, "");
  }

  lemma {:induction false} PrintStartsWithBrace(v: Json, gap: string)
    requires v.Obj?
    ensures Print(v, gap, "") != "" && Print(v, gap, "")[0] == '{'
  {
    hide PrintMembers;
  }

  /** Unlike a number, an object needs no separator from what follows it. */
  lemma {:induction false} ObjectSelfDelimits(v: Json, gap: string, after: string)
    requires v.Obj? && Valid(v) && Blank(gap)
    ensures ParseValue(Print(v, gap, "") + after) == Parsed(v, after)
  {
    hide ParseValue, Number, Print;
    var s := Print(v, gap, "");
    RoundTripValue(v, gap, "", "");
    assert s + "" == s;
    PrintStartsWithBrace(v, gap);
    ValueAgrees(s, after);
    assert "" + after == after;
  }

  /** Started on the opening brace of a printed object, the scanner stops on its closing brace. */
  lemma {:induction false} ScannerStopsAtPrintedEnd(before: string, v: Json, gap: string, after: string)
    requires v.Obj? && Valid(v) && Blank(gap)
    ensures Close(0, false, false, (before + Print(v, gap, "") + after)[|before|..]) == Some(|Print(v, gap, "")| - 1)
  {
    hide ParseValue, Number, Print, Close;
    PrintedObjectAt(before, v, gap, after);
    ScanObject(0, (before + Print(v, gap, "") + after)[|before|..]);
  }

  /** Inside braces, scanning any printed value comes back to the same depth, outside a string, and
      never returns on the way. */
  lemma {:induction false} ScannerPassesPrintedValue(depth: int, v: Json, gap: string, indent: string, after: string)
    requires depth >= 1 && Valid(v) && Blank(gap) && Blank(indent) && NotNumeric(after)
    ensures Passes(depth, Print(v, gap, indent) + after, depth, after)
  {
    hide ParseValue, Number, Print, Close;
    RoundTripValue(v, gap, indent, after);
    ScanValue(depth, Print(v, gap, indent) + after);
  }

  /** After noise without an opening brace, the first object is the printed one. */
  lemma {:induction false} FirstObjectAfterNoise(noise: string, v: Json, gap: string, after: string)
    requires BraceFree(noise) && v.Obj? && Valid(v) && Blank(gap)
    ensures FirstObjectAt(noise + Print(v, gap, "") + after, |noise|)
    ensures forall i: nat | FirstObjectAt(noise + Print(v, gap, "") + after, i) ::
              ParseValue((noise + Print(v, gap, "") + after)[i..]).value == v
  {
    hide ParseValue, Number, Print;
    var text := noise + Print(v, gap, "") + after;
    PrintedObjectAt(noise, v, gap, after);
    assert forall i: nat | i < |noise| :: text[i] == noise[i];
    forall i: nat | FirstObjectAt(text, i)
      ensures ParseValue(text[i..]).value == v
    {
      assert i == |noise|;
    }
  }

  // --- the object around the seed's proofEnv ---------------------------------------------------

  const PROOF_ENV_MARKER := "\"proofEnv\""

  predicate HasProofEnv(v: Json) {
    v.Obj? && match Lookup(v.members, "proofEnv") case Some(Obj(_)) => true case _ => false
  }

  /** The last of the members with this key is an object, the one after `a`. */
  ghost predicate LastIsObjectBy(members: seq<Member>, key: string, a: seq<Member>, env: seq<Member>, b: seq<Member>) {
    members == a + [Member(key, Obj(env))] + b && forall j | 0 <= j < |b| :: b[j].key != key
  }

  ghost predicate LastIsObject(v: Json, key: string) {
    v.Obj? && exists a, env, b :: LastIsObjectBy(v.members, key, a, env, b)
  }

  /** A value is taken for a seed output exactly if its last proofEnv is an object. */
  lemma {:induction false} HasProofEnvIff(v: Json)
    ensures HasProofEnv(v) <==> LastIsObject(v, "proofEnv")
  {
    hide Lookup, LastIsObjectBy;
    if HasProofEnv(v) {
      var k := LastIndex(v.members, "proofEnv");
      CutAt(v.members, k);
    }
    if LastIsObject(v, "proofEnv") {
      var a, env, b :| LastIsObjectBy(v.members, "proofEnv", a, env, b);
      FoundBehind(v.members, "proofEnv", a, env, b);
    }
  }

  lemma {:induction false} CutAt(members: seq<Member>, k: nat)
    requires k < |members| && members[k].value.Obj? && forall j | k < j < |members| :: members[j].key != members[k].key
    ensures LastIsObjectBy(members, members[k].key, members[..k], members[k].value.members, members[k + 1..])
  {
    assert members == members[..k] + [members[k]] + members[k + 1..];
  }

  lemma {:induction false} FoundBehind(members: seq<Member>, key: string, a: seq<Member>, env: seq<Member>, b: seq<Member>)
    requires LastIsObjectBy(members, key, a, env, b)
    ensures Lookup(members, key) == Some(Obj(env))
  {
    hide Lookup;
    assert members[|a|] == Member(key, Obj(env));
    forall j | |a| < j < |members| ensures members[j].key != key { assert members[j] == b[j - |a| - 1]; }
    LookupLast(members, |a|);
  }

  lemma {:induction false} LastIndex(members: seq<Member>, key: string) returns (k: nat)
    requires Lookup(members, key).Some?
    ensures k < |members| && members[k].key == key && Lookup(members, key) == Some(members[k].value)
    ensures forall j | k < j < |members| :: members[j].key != key
  {
    k := |members| - 1;
    if members[k].key != key {
      k := LastIndex(members[..k], key);
    }
  }

  predicate SeedObjectAt(text: string, i: nat) {
    ObjectAt(text, i) && HasProofEnv(ParseValue(text[i..]).value)
  }

  predicate FirstSeedObjectAt(text: string, i: nat) {
    SeedObjectAt(text, i) && forall j: nat | j < i :: !SeedObjectAt(text, j)
  }

  /** `extractJsonObjectAroundProofEnv`: the first object that starts before the first marker and
      holds a proofEnv object; None where the source throws. */
  method ExtractJsonObjectAroundProofEnv(text: string) returns (r: Option<string>)
    ensures r.Some? ==> exists i: nat :: FirstSeedObjectAt(text, i) && r.value == ObjectText(text, i)
    ensures var marker := IndexOf(text, PROOF_ENV_MARKER, 0);
            r.None? <==> marker.None? || forall i: nat | i < marker.value :: !SeedObjectAt(text, i)
  {
    hide ParseValue, Parse, Candidate, HasProofEnv, OccursAt;
    var marker := IndexOf(text, PROOF_ENV_MARKER, 0);
    if marker.None? {
      return None;
    }
    var start := IndexOf(text, "{", 0);
    if start.Some? { BraceOccurs(text, start.value); }
    NoSeedUntil(text, start);
    while start.Some? && start.value < marker.value
      invariant start.Some? ==> start.value < |text| && text[start.value] == '{'
      invariant forall i: nat | start.Some? ==> i < start.value :: !SeedObjectAt(text, i)
      decreases if start.Some? then |text| - start.value else -1
    {
      var candidate := ReadJsonObjectCandidate(text, start.value);
      CandidateIsObject(text[start.value..]);
      if candidate.Some? {
        var parsed := Parse(candidate.value);
        if parsed.Some? && HasProofEnv(parsed.value) {
          assert FirstSeedObjectAt(text, start.value);
          assert text[start.value..][..|candidate.value|] == text[start.value..start.value + |candidate.value|];
          return candidate;
        }
      }
      var next := IndexOf(text, "{", start.value + 1);
      NoSeedBetween(text, start.value, next);
      if next.Some? { BraceOccurs(text, next.value); }
      start := next;
    }
    return None;
  }

  lemma {:induction false} NoSeedBetween(text: string, start: nat, next: Option<nat>)
    requires next == IndexOf(text, "{", start + 1)
    requires !SeedObjectAt(text, start)
    ensures forall i: nat | start <= i && (next.Some? ==> i < next.value) :: !SeedObjectAt(text, i)
  {
    forall i: nat | start <= i && (next.Some? ==> i < next.value)
      ensures !SeedObjectAt(text, i)
    {
      BraceOccurs(text, i);
    }
  }

  lemma {:induction false} NoSeedUntil(text: string, next: Option<nat>)
    requires next == IndexOf(text, "{", 0)
    ensures forall i: nat | next.Some? ==> i < next.value :: !SeedObjectAt(text, i)
  {
    forall i: nat | next.Some? ==> i < next.value
      ensures !SeedObjectAt(text, i)
    {
      BraceOccurs(text, i);
    }
  }

  lemma {:induction false} OccursInMiddle(a: string, b: string, c: string, pattern: string, q: nat)
    requires OccursAt(b, pattern, q)
    ensures OccursAt(a + b + c, pattern, |a| + q)
  {
    assert (a + b + c)[|a| + q..|a| + q + |pattern|] == b[q..q + |pattern|];
  }

  lemma {:induction false} KeyIsPrinted(members: seq<Member>, j: nat, gap: string, indent: string) returns (p: nat)
    requires j < |members|
    ensures OccursAt(PrintMembers(members, gap, indent), Quote(members[j].key), p)
  {
    hide Print, Quote, OccursAt, Break, PrintMembers;
    var m := members[0];
    PrintMembersStep(members, gap, indent);
    if j == 0 {
      p := 0;
      var quoted, value := Quote(m.key), ":" + Space(gap) + Print(m.value, gap, indent);
      var more := if |members| == 1 then "" else "," + Break(gap, indent) + PrintMembers(members[1..], gap, indent);
      OccursFirst(quoted);
      OccursInMiddle("", quoted, value + more, quoted, 0);
      assert PrintMember(m, gap, indent) == quoted + value;
      assert PrintMembers(members, gap, indent) == "" + quoted + (value + more);
    } else {
      var q := KeyIsPrinted(members[1..], j - 1, gap, indent);
      var head := PrintMember(m, gap, indent) + ("," + Break(gap, indent));
      var tail := PrintMembers(members[1..], gap, indent);
      p := |head| + q;
      OccursInMiddle(head, tail, "", Quote(members[j].key), q);
      MoreGroups(PrintMember(m, gap, indent), ",", Break(gap, indent), "", tail);
      assert head + tail + "" == head + tail;
    }
  }

  lemma {:induction false} OccursFirst(pattern: string)
    ensures OccursAt(pattern, pattern, 0)
  {
    assert pattern[0..|pattern|] == pattern;
  }

  lemma {:induction false} EscapePlain(s: string)
    requires forall i | 0 <= i < |s| :: 'A' <= s[i] <= 'Z' || 'a' <= s[i] <= 'z'
    ensures Escape(s) == s
  {
    if s != "" {
      EscapePlain(s[1..]);
      assert EscapeChar(s[0]) == [s[0]];
      assert [s[0]] + s[1..] == s;
    }
  }

  lemma {:induction false} ProofEnvQuoted()
    ensures Quote("proofEnv") == PROOF_ENV_MARKER
  {
    hide Escape;
    EscapePlain("proofEnv");
  }

  /** A pattern without a brace that starts before a brace ends before it too. */
  lemma {:induction false} OccursBeforeBrace(before: string, after: string, pattern: string, i: nat)
    requires after != "" && after[0] == '{' && BraceFree(pattern) && i < |before|
    requires OccursAt(before + after, pattern, i)
    ensures OccursAt(before, pattern, i)
  {
    var text := before + after;
    forall j | i <= j < i + |pattern|
      ensures text[j] != '{'
    {
      assert text[j] == text[i..i + |pattern|][j - i];
    }
    assert text[|before|] == '{';
    assert text[i..i + |pattern|] == before[i..i + |pattern|];
  }

  /** Where the marker stands in a printed seed object. */
  lemma {:induction false} MarkerIsPrinted(v: Json, gap: string) returns (p: nat)
    requires HasProofEnv(v)
    ensures OccursAt(Print(v, gap, ""), PROOF_ENV_MARKER, p)
  {
    hide PrintMembers, Escape;
    var j := LastIndex(v.members, "proofEnv");
    var q := KeyIsPrinted(v.members, j, gap, gap);
    ProofEnvQuoted();
    assert "" + gap == gap;
    var head := "{" + Break(gap, gap);
    var body := PrintMembers(v.members, gap, gap);
    p := |head| + q;
    assert Print(v, gap, "") == head + body + Break(gap, "") + "}";
    OccursInMiddle(head, body, Break(gap, "") + "}", PROOF_ENV_MARKER, q);
    assert head + body + Break(gap, "") + "}" == head + body + (Break(gap, "") + "}");
  }

  lemma {:induction false} MarkerAfterNoise(noise: string, v: Json, gap: string, after: string)
    requires BraceFree(noise) && (forall i: nat :: !OccursAt(noise, PROOF_ENV_MARKER, i))
    requires HasProofEnv(v)
    ensures var marker := IndexOf(noise + Print(v, gap, "") + after, PROOF_ENV_MARKER, 0);
            marker.Some? && |noise| < marker.value
  {
    hide Print, HasProofEnv;
    var printed := Print(v, gap, "");
    var text := noise + printed + after;
    SeedIsObj(v);
    PrintStartsWithBrace(v, gap);
    var p := MarkerIsPrinted(v, gap);
    OccursInMiddle(noise, printed, after, PROOF_ENV_MARKER, p);
    var m := IndexOf(text, PROOF_ENV_MARKER, 0).value;
    assert text == noise + (printed + after);
    if m < |noise| {
      OccursBeforeBrace(noise, printed + after, PROOF_ENV_MARKER, m);
    } else {
      assert text[m] == text[m..m + |PROOF_ENV_MARKER|][0];
    }
  }

  /** After noise with neither an opening brace nor the marker, the printed seed object is found. */
  lemma {:induction false} SeedObjectAfterNoise(noise: string, v: Json, gap: string, after: string)
    requires BraceFree(noise) && (forall i: nat :: !OccursAt(noise, PROOF_ENV_MARKER, i))
    requires HasProofEnv(v) && Valid(v) && Blank(gap)
    ensures var text := noise + Print(v, gap, "") + after;
            && FirstSeedObjectAt(text, |noise|)
            && ObjectText(text, |noise|) == Print(v, gap, "")
            && IndexOf(text, PROOF_ENV_MARKER, 0).Some?
            && |noise| < IndexOf(text, PROOF_ENV_MARKER, 0).value
  {
    hide ParseValue, Valid, Print, HasProofEnv, IndexOf, OccursAt;
    var text := noise + Print(v, gap, "") + after;
    SeedIsObj(v);
    PrintedObjectAt(noise, v, gap, after);
    MarkerAfterNoise(noise, v, gap, after);
    assert forall i: nat | i < |noise| :: text[i] == noise[i];
  }

  lemma {:induction false} SeedIsObj(v: Json)
    requires HasProofEnv(v)
    ensures v.Obj?
  {
  }

  // --- the object around the last summary marker -------------------------------------------------

  datatype SummaryError = NoMarker | NoBrace | Incomplete | NotJson
  datatype Summary = Found(value: Json) | Thrown(error: SummaryError)

  /** The last brace at or before the last occurrence of the marker. */
  function SummaryStart(text: string, marker: string): Option<nat>
    requires marker != ""
  {
    match LastIndexOf(text, marker, |text|)
    case None => None
    case Some(m) => LastIndexOf(text, "{", m)
  }

  /** `readPaidSuiteSummary` and `extractJsonObjectWithMarker`. */
  method ReadSummaryAround(text: string, marker: string) returns (r: Summary)
    requires marker != ""
    ensures r.Found? <==> SummaryStart(text, marker).Some? && ObjectAt(text, SummaryStart(text, marker).value)
    ensures r.Found? ==> r.value == ParseValue(text[SummaryStart(text, marker).value..]).value && r.value.Obj?
    ensures r == Thrown(NoMarker) <==> forall i: nat :: !OccursAt(text, marker, i)
  {
    hide ParseValue, Parse, Close;
    var markerIndex := LastIndexOf(text, marker, |text|);
    if markerIndex.None? {
      return Thrown(NoMarker);
    }
    var start := LastIndexOf(text, "{", markerIndex.value);
    if start.None? {
      return Thrown(NoBrace);
    }
    BraceOccurs(text, start.value);
    var end := FindJsonObjectEnd(text, start.value);
    CandidateIsObject(text[start.value..]);
    if end.None? {
      return Thrown(Incomplete);
    }
    CloseInRange(0, false, false, text[start.value..]);
    assert text[start.value..end.value + 1] == text[start.value..][..end.value - start.value + 1];
    var parsed := Parse(text[start.value..end.value + 1]);
    match parsed
    case None => return Thrown(NotJson);
    case Some(v) =>
      ObjectIsObj(text[start.value..]);
      return Found(v);
  }

  /** Of an object with the last marker inside it, the search starts at the object's own brace exactly
      when no other opening brace stands between that brace and the marker. */
  lemma {:induction false} SummaryStartIff(text: string, marker: string, start: nat, m: nat)
    requires marker != "" && LastIndexOf(text, marker, |text|) == Some(m)
    requires start < m && start < |text| && text[start] == '{' && marker[0] != '{'
    ensures SummaryStart(text, marker) == Some(start) <==> BraceFree(text[start + 1..m])
  {
    BraceOccurs(text, start);
    forall i | start < i <= m
      ensures OccursAt(text, "{", i) <==> i < m && text[start + 1..m][i - start - 1] == '{'
    {
      BraceOccurs(text, i);
      assert text[m] == text[m..m + |marker|][0];
    }
    if BraceFree(text[start + 1..m]) {
      assert forall i: nat | start < i <= m :: !OccursAt(text, "{", i);
    } else {
      var k :| 0 <= k < m - start - 1 && text[start + 1..m][k] == '{';
      assert OccursAt(text, "{", start + 1 + k);
    }
  }

  /** The third recovery: with the last marker inside a printed object and no other brace between the object's
      own and the marker, the search finds the object, with its value. */
  lemma {:induction false} SummaryAtLastMarker(before: string, v: Json, gap: string, after: string, marker: string, m: nat)
    requires v.Obj? && Valid(v) && Blank(gap) && marker != "" && marker[0] != '{'
    requires var text := before + Print(v, gap, "") + after;
             && LastIndexOf(text, marker, |text|) == Some(m)
             && |before| < m < |before| + |Print(v, gap, "")|
             && BraceFree(text[|before| + 1..m])
    ensures var text := before + Print(v, gap, "") + after;
            && SummaryStart(text, marker) == Some(|before|)
            && ObjectAt(text, |before|) && ParseValue(text[|before|..]).value == v
            && ObjectText(text, |before|) == Print(v, gap, "")
  {
    hide ParseValue, Valid, Print, LastIndexOf, SummaryStart, BraceFree;
    var text := before + Print(v, gap, "") + after;
    PrintedObjectAt(before, v, gap, after);
    PrintStartsWithBrace(v, gap);
    assert text[|before|] == Print(v, gap, "")[0];
    SummaryStartIff(text, marker, |before|, m);
  }

  /** What an object prints before the key that follows these members. */
  function Lead(earlier: seq<Member>, gap: string): string {
    "{" + Break(gap, gap) + if earlier == [] then "" else PrintMembers(earlier, gap, gap) + ("," + Break(gap, gap))
  }

  lemma {:induction false} PrintMembersAppend(a: seq<Member>, b: seq<Member>, gap: string, indent: string)
    requires a != [] && b != []
    ensures PrintMembers(a + b, gap, indent) == PrintMembers(a, gap, indent) + ("," + Break(gap, indent)) + PrintMembers(b, gap, indent)
  {
    hide PrintMembers, PrintMember, Break;
    var first, separator := PrintMember(a[0], gap, indent), Break(gap, indent);
    var last := PrintMembers(b, gap, indent);
    assert (a + b)[0] == a[0] && (a + b)[1..] == a[1..] + b;
    PrintMembersStep(a + b, gap, indent);
    PrintMembersStep(a, gap, indent);
    if |a| == 1 {
      assert a[1..] + b == b;
      MoreGroups(first, ",", separator, "", last);
    } else {
      PrintMembersAppend(a[1..], b, gap, indent);
      MoreGroups(first, ",", separator, PrintMembers(a[1..], gap, indent), last);
    }
  }

  lemma {:induction false} PrintMembersStep(members: seq<Member>, gap: string, indent: string)
    requires members != []
    ensures PrintMembers(members, gap, indent) ==
            PrintMember(members[0], gap, indent)
            + if |members| == 1 then "" else "," + Break(gap, indent) + PrintMembers(members[1..], gap, indent)
  {
    hide PrintMember, Break;
    var first, separator := PrintMember(members[0], gap, indent), Break(gap, indent);
    if |members| > 1 {
      MoreGroups(first, ",", separator, "", PrintMembers(members[1..], gap, indent));
    }
  }

  lemma MoreGroups(first: string, comma: string, separator: string, more: string, last: string)
    ensures first + comma + separator + last == first + (comma + separator + last) == first + (comma + separator) + last
    ensures first + (comma + separator + (more + (comma + separator) + last)) == first + (comma + separator + more) + (comma + separator) + last
  {
  }

  /** An object prints its lead, then the quoted key. */
  lemma {:induction false} LeadThenKey(earlier: seq<Member>, m: Member, later: seq<Member>, gap: string) returns (rest: string)
    ensures Print(Obj(earlier + [m] + later), gap, "") == Lead(earlier, gap) + Quote(m.key) + rest
    ensures rest != ""
  {
    hide PrintMembers, Break, Quote;
    var tail := [m] + later;
    var all := earlier + tail;
    var close := Break(gap, "") + "}";
    var printed := PrintMembers(tail, gap, gap);
    var keyRest := KeyFirst(m, later, gap);
    rest := keyRest + close;
    assert earlier + [m] + later == all && "" + gap == gap;
    assert Print(Obj(all), gap, "") == "{" + Break(gap, gap) + PrintMembers(all, gap, gap) + Break(gap, "") + "}";
    if earlier == [] {
      assert all == tail;
    } else {
      PrintMembersAppend(earlier, tail, gap, gap);
    }
    assert PrintMembers(all, gap, gap) == (if earlier == [] then "" else PrintMembers(earlier, gap, gap) + ("," + Break(gap, gap))) + printed;
    assert printed == Quote(m.key) + keyRest;
    LeadGroups("{" + Break(gap, gap), if earlier == [] then "" else PrintMembers(earlier, gap, gap) + ("," + Break(gap, gap)),
               Quote(m.key), keyRest, Break(gap, ""), "}");
  }

  lemma LeadGroups(a: string, b: string, c: string, d: string, e: string, f: string)
    ensures a + (b + (c + d)) + e + f == (a + b) + c + (d + (e + f))
  {
  }

  lemma {:induction false} KeyFirst(m: Member, later: seq<Member>, gap: string) returns (rest: string)
    ensures PrintMembers([m] + later, gap, gap) == Quote(m.key) + rest
  {
    hide Print, Break, Quote;
    var value := ":" + Space(gap) + Print(m.value, gap, gap);
    assert PrintMember(m, gap, gap) == Quote(m.key) + value;
    assert ([m] + later)[1..] == later;
    rest := if later == [] then value else value + "," + Break(gap, gap) + PrintMembers(later, gap, gap);
    if later == [] { assert [m] + later == [m]; }
  }

  /** A summary whose marker key is a top-level key, whose earlier members print without a brace, and whose
      marker does not occur again is recovered from any text around it. */
  lemma {:induction false} SummaryIsRecovered(before: string, earlier: seq<Member>, m: Member, later: seq<Member>, gap: string, after: string)
    requires var v := Obj(earlier + [m] + later);
             && Valid(v) && Blank(gap)
             && (earlier != [] ==> BraceFree(PrintMembers(earlier, gap, gap)))
             && forall i: nat | |before| + |Lead(earlier, gap)| < i :: !OccursAt(before + Print(v, gap, "") + after, Quote(m.key), i)
    ensures var v := Obj(earlier + [m] + later);
            var text := before + Print(v, gap, "") + after;
            && SummaryStart(text, Quote(m.key)) == Some(|before|)
            && ObjectAt(text, |before|) && ParseValue(text[|before|..]).value == v
  {
    hide ParseValue, Valid, Print, LastIndexOf, SummaryStart, BraceFree, Quote, Lead, OccursAt;
    var v, marker := Obj(earlier + [m] + later), Quote(m.key);
    var text, p := before + Print(v, gap, "") + after, |before| + |Lead(earlier, gap)|;
    var rest := LeadThenKey(earlier, m, later, gap);
    QuoteStarts(m.key);
    OccursFirst(marker);
    OccursInMiddle(Lead(earlier, gap), marker, rest, marker, 0);
    OccursInMiddle(before, Print(v, gap, ""), after, marker, |Lead(earlier, gap)|);
    LastIs(text, marker, p);
    LeadIsBraceFree(earlier, gap);
    var lead := Lead(earlier, gap);
    assert text[|before| + 1..p] == lead[1..] by {
      assert text == before + (lead + (marker + rest + after)) by { LeadGroups("", before, lead, marker + rest, after, ""); }
    }
    SummaryAtLastMarker(before, v, gap, after, marker, p);
  }

  lemma QuoteStarts(key: string)
    ensures Quote(key) != "" && Quote(key)[0] == '"'
  {
    hide Escape;
  }

  lemma {:induction false} LastIs(text: string, pattern: string, p: nat)
    requires pattern != "" && OccursAt(text, pattern, p) && forall i: nat | p < i :: !OccursAt(text, pattern, i)
    ensures LastIndexOf(text, pattern, |text|) == Some(p)
  {
    hide LastIndexOf;
    assert OccursAt(text, pattern, p) ==> p <= |text|;
  }

  lemma {:induction false} LeadIsBraceFree(earlier: seq<Member>, gap: string)
    requires Blank(gap) && (earlier != [] ==> BraceFree(PrintMembers(earlier, gap, gap)))
    ensures |Lead(earlier, gap)| > 0 && BraceFree(Lead(earlier, gap)[1..])
  {
    hide PrintMembers;
    BreakIsBlank(gap, gap);
    var open, comma := Break(gap, gap), "," + Break(gap, gap);
    var body := if earlier == [] then "" else PrintMembers(earlier, gap, gap) + comma;
    assert Lead(earlier, gap)[1..] == open + body;
    assert BraceFree(open) && BraceFree(comma);
  }

  const PAID_SUITE_MARKER := "\"paidSuitePassed\""

  /** A nested object right before the last marker hides the summary: the search finds the nested one. */
  lemma {:induction false} NestedObjectIsFound(head: string, marker: string, rest: string)
    requires marker != "" && marker[0] != '{'
    requires forall i: nat | |head| + 3 < i :: !OccursAt(head + "{}," + marker + rest, marker, i)
    ensures var text := head + "{}," + marker + rest;
            SummaryStart(text, marker) == Some(|head|) && ParseValue(text[|head|..]) == Parsed(Obj([]), "," + marker + rest)
  {
    hide ParseValue, OccursAt, SummaryStart, LastIndexOf;
    var text, after := head + "{}," + marker + rest, "," + marker + rest;
    assert text[|head|..] == "{}" + after;
    ParseEmpty(after);
    OccursFirst(marker);
    OccursInMiddle(head + "{},", marker, rest, marker, 0);
    LastIs(text, marker, |head| + 3);
    assert text[|head| + 1..|head| + 3] == "},";
    SummaryStartIff(text, marker, |head|, |head| + 3);
  }

  lemma MarkerQuotes()
    ensures |PAID_SUITE_MARKER| == 17 && PAID_SUITE_MARKER[0] == '"'
    ensures forall i | 0 < i < 16 :: PAID_SUITE_MARKER[i] != '"'
  {
  }

  /** So it does for a summary whose receipt is printed as an object before its marker. */
  lemma {:induction false} NestedObjectHidesSummary()
    ensures var text := "{\"validReceipt\":" + "{}," + PAID_SUITE_MARKER + ":true}";
            && SummaryStart(text, PAID_SUITE_MARKER) == Some(16)
            && ParseValue(text[16..]) == Parsed(Obj([]), "," + PAID_SUITE_MARKER + ":true}")
  {
    hide ParseValue, SummaryStart, PAID_SUITE_MARKER;
    MarkerQuotes();
    var text := "{\"validReceipt\":" + "{}," + PAID_SUITE_MARKER + ":true}";
    forall i: nat | 19 < i ensures !OccursAt(text, PAID_SUITE_MARKER, i) {
      if i + |PAID_SUITE_MARKER| <= |text| {
        assert text[i] == PAID_SUITE_MARKER[i - 19] != '"';
        assert text[i] == text[i..i + |PAID_SUITE_MARKER|][0];
      }
    }
    NestedObjectIsFound("{\"validReceipt\":", PAID_SUITE_MARKER, ":true}");
  }
}
