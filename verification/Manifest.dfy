/** The artifact manifest: the generator that hashes the artifacts of a proof, and the later verdict on it. */
module Manifest {
  import opened Text
  import opened Json
  import J = Json
  import opened JsonRoundTrip
  import opened JsonLines
  import opened JsonRead
  import Records

  // --- evidence fields and references -----------------------------------------------------------------------------

  datatype Evidence =
    | HostedPreflight | AgentDiscovery | PaidRequest | ReceiptVerification | ReferrerBalance | DashboardSummary
    | WebhookDelivery | PayoutObligation | FundingBalance | McpBundle | McpGateway | ArtifactManifest | CommandsRun

  function NameOf(e: Evidence): string {
    match e
    case HostedPreflight => "hosted_preflight_evidence"
    case AgentDiscovery => "agent_discovery_evidence"
    case PaidRequest => "paid_request_evidence"
    case ReceiptVerification => "receipt_verification_evidence"
    case ReferrerBalance => "referrer_balance_evidence"
    case DashboardSummary => "dashboard_summary_evidence"
    case WebhookDelivery => "webhook_delivery_evidence"
    case PayoutObligation => "payout_obligation_evidence"
    case FundingBalance => "funding_balance_evidence"
    case McpBundle => "mcp_bundle_evidence"
    case McpGateway => "mcp_gateway_evidence"
    case ArtifactManifest => "artifact_manifest_evidence"
    case CommandsRun => "commands_run"
  }

  /** The length and the first character of a field name, which tell the names apart. */
  function Mark(e: Evidence): (m: (nat, char))
    ensures |NameOf(e)| == m.0 && NameOf(e)[0] == m.1
  {
    match e
    case HostedPreflight => (25, 'h')
    case AgentDiscovery => (24, 'a')
    case PaidRequest => (21, 'p')
    case ReceiptVerification => (29, 'r')
    case ReferrerBalance => (25, 'r')
    case DashboardSummary => (26, 'd')
    case WebhookDelivery => (25, 'w')
    case PayoutObligation => (26, 'p')
    case FundingBalance => (24, 'f')
    case McpBundle => (19, 'm')
    case McpGateway => (20, 'm')
    case ArtifactManifest => (26, 'a')
    case CommandsRun => (12, 'c')
  }

  lemma NamesDiffer(e: Evidence, f: Evidence)
    ensures NameOf(e) == NameOf(f) <==> e == f
  {
    hide NameOf;
    assert Mark(e) == Mark(f) ==> e == f;
  }

  /** The fields that a manifest lists: all but its own. */
  const LISTED: seq<Evidence> :=
    [HostedPreflight, AgentDiscovery, PaidRequest, ReceiptVerification, ReferrerBalance, DashboardSummary,
     WebhookDelivery, PayoutObligation, FundingBalance, McpBundle, McpGateway, CommandsRun]

  lemma ListedAre()
    ensures forall e: Evidence :: e in LISTED <==> e != ArtifactManifest
  {
    forall e: Evidence ensures e in LISTED <==> e != ArtifactManifest {
      match e
      case HostedPreflight => assert LISTED[0] == e;
      case AgentDiscovery => assert LISTED[1] == e;
      case PaidRequest => assert LISTED[2] == e;
      case ReceiptVerification => assert LISTED[3] == e;
      case ReferrerBalance => assert LISTED[4] == e;
      case DashboardSummary => assert LISTED[5] == e;
      case WebhookDelivery => assert LISTED[6] == e;
      case PayoutObligation => assert LISTED[7] == e;
      case FundingBalance => assert LISTED[8] == e;
      case McpBundle => assert LISTED[9] == e;
      case McpGateway => assert LISTED[10] == e;
      case CommandsRun => assert LISTED[11] == e;
      case ArtifactManifest =>
    }
  }

  type Fields = map<string, string>

  /** The reference that a proof gives for a field, if it is not empty. */
  function Reference(fields: Fields, e: Evidence): Option<string> {
    if NameOf(e) in fields && fields[NameOf(e)] != "" then Some(fields[NameOf(e)]) else None
  }

  const ATTACHED := "attached:"

  /** `readAttachedArtifactPath`. */
  function AttachedPath(reference: string): Option<string> {
    if |ATTACHED| <= |reference| && reference[..|ATTACHED|] == ATTACHED && Trim(reference[|ATTACHED|..]) != ""
    then Some(Trim(reference[|ATTACHED|..]))
    else None
  }

  // --- the file store and the library functions ---------------------------------------------------------------------

  /** The contents of a file: at most 2^53 bytes, so that their number is an exact double. */
  type Bytes = s: seq<bv8> | |s| < 0x20_0000_0000_0000 witness []

  type Files = map<string, Bytes>

  /** URL parsing, path resolution, SHA-256 and text decoding.  Generator and verdict have one each: they may
      resolve paths differently. */
  datatype Platform = Platform(
    isHttpUrl: string -> bool, resolve: string -> string, sha256: Bytes -> string, decode: Bytes -> string)

  /** The resolved path of the artifact that a field refers to, unless it refers to a URL or to nothing attached. */
  function PathOf(p: Platform, fields: Fields, e: Evidence): Option<string> {
    match Reference(fields, e)
    case None => None
    case Some(reference) =>
      if p.isHttpUrl(reference) then None
      else match AttachedPath(reference)
        case None => None
        case Some(path) => Some(p.resolve(path))
  }

  // --- the generator ------------------------------------------------------------------------------------------------

  function LocalEntry(e: Evidence, reference: string, path: string, size: nat, sha256: string): Json {
    Obj([Member("evidenceField", Str(NameOf(e))), Member("reference", Str(reference)), Member("kind", Str("local")),
         Member("artifactPath", Str(path)), Member("sizeBytes", Int(size)), Member("sha256", Str(sha256))])
  }

  /** The entry of a field; None where the generator throws, no entry for an empty reference.  Every listed
      field must be local, so a URL throws too. */
  function EntryFor(p: Platform, files: Files, fields: Fields, e: Evidence): Option<seq<Json>> {
    match Reference(fields, e)
    case None => Some([])
    case Some(reference) =>
      match PathOf(p, fields, e)
      case None => None
      case Some(path) =>
        if path !in files then None
        else Some([LocalEntry(e, reference, path, |files[path]|, p.sha256(files[path]))])
  }

  function Artifacts(p: Platform, files: Files, fields: Fields, es: seq<Evidence>): Option<seq<Json>> {
    if es == [] then Some([])
    else match Artifacts(p, files, fields, es[..|es| - 1])
      case None => None
      case Some(entries) =>
        match EntryFor(p, files, fields, es[|es| - 1])
        case None => None
        case Some(entry) => Some(entries + entry)
  }

  function Schema(): string {
    "split402.phase7_artifact_manifest.v1"
  }

  function ManifestJson(generatedAt: string, baseDir: string, entries: seq<Json>): Json {
    Obj([Member("schema", Str(Schema())), Member("generatedAt", Str(generatedAt)), Member("artifactBaseDir", Str(baseDir)),
         Member("artifacts", Arr(entries))])
  }

  /** `createPhase7StagingArtifactManifest`, printed as its command prints it. */
  function ManifestText(p: Platform, files: Files, fields: Fields, generatedAt: string, baseDir: string): Option<string> {
    match Artifacts(p, files, fields, LISTED)
    case None => None
    case Some(entries) => Some(Print(ManifestJson(generatedAt, baseDir, entries), "  ", "") + "\n")
  }

  // --- the verdict ----------------------------------------------------------------------------------------------------

  /** `isManifestEntry`. */
  predicate IsEntry(v: Json) {
    && At(Some(v), "evidenceField").Some? && At(Some(v), "evidenceField").value.Str?
    && At(Some(v), "reference").Some? && At(Some(v), "reference").value.Str?
    && At(Some(v), "kind") in {Some(Str("local")), Some(Str("remote"))}
  }

  /** The last entry of a field. */
  function LastEntry(artifacts: seq<Json>, name: string): (r: Option<Json>)
    ensures r.Some? ==> IsEntry(r.value)
  {
    if artifacts == [] then None
    else
      var last := artifacts[|artifacts| - 1];
      if IsEntry(last) && At(Some(last), "evidenceField") == Some(Str(name)) then Some(last)
      else LastEntry(artifacts[..|artifacts| - 1], name)
  }

  /** An entry stands for the bytes of a file. */
  predicate Matches(p: Platform, entry: Option<Json>, bytes: Bytes) {
    At(entry, "sha256") == Some(Str(p.sha256(bytes))) && At(entry, "sizeBytes") == Some(Int(|bytes|))
  }

  predicate FieldOk(p: Platform, files: Files, fields: Fields, artifacts: seq<Json>, e: Evidence) {
    match Reference(fields, e)
    case None => true
    case Some(reference) =>
      var entry := LastEntry(artifacts, NameOf(e));
      && entry.Some? && At(entry, "reference") == Some(Str(reference))
      && if p.isHttpUrl(reference) then At(entry, "kind") == Some(Str("remote"))
         else match PathOf(p, fields, e)
           case None => true
           case Some(path) => At(entry, "kind") == Some(Str("local")) && path in files && Matches(p, entry, files[path])
  }

  /** The manifest that a proof attaches, if it can be read and parsed. */
  function Attached(p: Platform, files: Files, fields: Fields): Option<Json> {
    match PathOf(p, fields, ArtifactManifest)
    case None => None
    case Some(path) => if path in files then Parse(p.decode(files[path])) else None
  }

  predicate ManifestOk(p: Platform, files: Files, fields: Fields, manifest: Option<Json>) {
    var artifacts := Elements(At(manifest, "artifacts"));
    && At(manifest, "schema") == Some(Str(Schema())) && IsArray(At(manifest, "artifacts"))
    && LastEntry(artifacts, NameOf(ArtifactManifest)).None?
    && forall e | e in LISTED :: FieldOk(p, files, fields, artifacts, e)
  }

  /** Exactly when the verdict is `valid`. */
  predicate Judged(p: Platform, files: Files, fields: Fields) {
    Attached(p, files, fields).Some? && ManifestOk(p, files, fields, Attached(p, files, fields))
  }

  /** `Threw` is the access to a property of `null`. */
  datatype Status = NotChecked | NotApplicable | Invalid | Valid | Threw

  datatype Problem =
    | NotLocal | NotRead | BadSchema | NoArtifacts | ListsItself
    | NotListed(e: Evidence) | OtherReference(e: Evidence) | OtherKind(e: Evidence) | NoFile(e: Evidence)
    | OtherHash(e: Evidence) | OtherSize(e: Evidence)

  ghost predicate Indexed(artifacts: seq<Json>, entries: map<string, Json>) {
    && (forall name :: LastEntry(artifacts, name).Some? ==> name in entries)
    && (forall name | name in entries :: LastEntry(artifacts, name) == Some(entries[name]))
  }

  /** The loop that fills the map of entries. */
  method IndexEntries(artifacts: seq<Json>) returns (entries: map<string, Json>)
    ensures Indexed(artifacts, entries)
  {
    hide At;
    entries := map[];
    for i := 0 to |artifacts|
      invariant Indexed(artifacts[..i], entries)
    {
      assert artifacts[..i + 1][..i] == artifacts[..i];
      if IsEntry(artifacts[i]) {
        entries := entries[At(Some(artifacts[i]), "evidenceField").value.s := artifacts[i]];
      }
    }
    assert artifacts[..|artifacts|] == artifacts;
  }

  method CheckField(p: Platform, files: Files, fields: Fields, e: Evidence, entries: map<string, Json>, ghost artifacts: seq<Json>)
    returns (added: seq<Problem>)
    requires Indexed(artifacts, entries)
    ensures added == [] <==> FieldOk(p, files, fields, artifacts, e)
  {
    hide At, NameOf, LastEntry, AttachedPath;
    var name := NameOf(e);
    if Reference(fields, e).None? {
      return [];
    }
    var reference := Reference(fields, e).value;
    if name !in entries {
      return [NotListed(e)];
    }
    var entry := Some(entries[name]);
    added := [];
    if At(entry, "reference") != Some(Str(reference)) { added := added + [OtherReference(e)]; }
    if p.isHttpUrl(reference) {
      if At(entry, "kind") != Some(Str("remote")) { added := added + [OtherKind(e)]; }
      return;
    }
    var path := AttachedPath(reference);
    if path.None? {
      return;
    }
    if At(entry, "kind") != Some(Str("local")) {
      added := added + [OtherKind(e)];
      return;
    }
    var resolved := p.resolve(path.value);
    if resolved in files {
      if At(entry, "sha256") != Some(Str(p.sha256(files[resolved]))) { added := added + [OtherHash(e)]; }
      if At(entry, "sizeBytes") != Some(Int(|files[resolved]|)) { added := added + [OtherSize(e)]; }
    } else {
      added := added + [NoFile(e)];
    }
  }

  /** What is held against a manifest that was read. */
  method CheckManifest(p: Platform, files: Files, fields: Fields, manifest: Option<Json>) returns (blockers: seq<Problem>)
    ensures blockers == [] <==> ManifestOk(p, files, fields, manifest)
  {
    hide At, NameOf, LastEntry, FieldOk, Schema;
    blockers := [];
    if At(manifest, "schema") != Some(Str(Schema())) { blockers := blockers + [BadSchema]; }
    if !IsArray(At(manifest, "artifacts")) {
      return blockers + [NoArtifacts];
    }
    var artifacts := Elements(At(manifest, "artifacts"));
    var entries := IndexEntries(artifacts);
    if NameOf(ArtifactManifest) in entries { blockers := blockers + [ListsItself]; }
    ghost var before := blockers == [];
    for i := 0 to |LISTED|
      invariant blockers == [] <==> before && forall j | 0 <= j < i :: FieldOk(p, files, fields, artifacts, LISTED[j])
    {
      var added := CheckField(p, files, fields, LISTED[i], entries, artifacts);
      blockers := blockers + added;
    }
  }

  /** What the status must be for the reference that the proof gives under `artifact_manifest_evidence`. */
  ghost predicate StatusFollows(p: Platform, files: Option<Files>, fields: Fields, status: Status) {
    var reference := if "artifact_manifest_evidence" in fields then fields["artifact_manifest_evidence"] else "";
    && (reference == "" ==> status.NotApplicable?)
    && (reference != "" && p.isHttpUrl(reference) ==> status.Invalid?)
    && (reference != "" && !p.isHttpUrl(reference) && !NamesFile(reference) ==> status.NotApplicable?)
    && (forall path: string | reference == "attached:" + path && !p.isHttpUrl(reference) && Trim(path) != "" ::
          FileFollows(p, files, p.resolve(Trim(path)), status))
  }

  /** The reference attaches something. */
  ghost predicate NamesFile(reference: string) {
    exists path: string :: reference == "attached:" + path && Trim(path) != ""
  }

  /** Without a file store nothing is checked; a missing or unreadable file is invalid. */
  ghost predicate FileFollows(p: Platform, files: Option<Files>, path: string, status: Status) {
    && (files.None? ==> status.NotChecked?)
    && (files.Some? && path !in files.value ==> status.Invalid?)
    && (files.Some? && path in files.value && Parse(p.decode(files.value[path])).None? ==> status.Invalid?)
    && (files.Some? && path in files.value && Parse(p.decode(files.value[path])) == Some(Null) ==> status.Threw?)
    && (files.Some? && path in files.value && Parse(p.decode(files.value[path])) !in {None, Some(Null)} ==> status in {Valid, Invalid})
  }

  lemma AttachedIff(reference: string)
    ensures AttachedPath(reference).Some? <==> NamesFile(reference)
    ensures forall path: string | reference == "attached:" + path && Trim(path) != "" :: AttachedPath(reference) == Some(Trim(path))
  {
    hide Trim;
    if AttachedPath(reference).Some? {
      assert reference == "attached:" + reference[|ATTACHED|..];
    }
    forall path: string | reference == "attached:" + path && Trim(path) != "" ensures AttachedPath(reference) == Some(Trim(path)) {
      assert reference[..|ATTACHED|] == ATTACHED && reference[|ATTACHED|..] == path;
    }
  }

  /** `createManifestStatus`; without files the artifacts cannot be read. */
  method CreateManifestStatus(p: Platform, files: Option<Files>, proofText: Option<string>)
    returns (status: Status, blockers: seq<Problem>)
    ensures status.Valid? <==> proofText.Some? && files.Some? && Judged(p, files.value, FieldsOf(proofText.value))
    ensures status.NotChecked? <==>
              proofText.None? || (files.None? && PathOf(p, FieldsOf(proofText.value), ArtifactManifest).Some?)
    ensures status.NotApplicable? <==> proofText.Some? && Unattached(p, FieldsOf(proofText.value), ArtifactManifest)
    ensures status.Invalid? <==> blockers != []
    ensures proofText.Some? ==> StatusFollows(p, files, FieldsOf(proofText.value), status)
  {
    hide FieldsOf, AttachedPath, ManifestOk, Parse, Trim;
    if proofText.None? {
      return NotChecked, [];
    }
    var fields := ReadFields(proofText.value);
    AttachedIff(if NameOf(ArtifactManifest) in fields then fields[NameOf(ArtifactManifest)] else "");
    var reference := Reference(fields, ArtifactManifest);
    if reference.None? {
      return NotApplicable, [];
    }
    if p.isHttpUrl(reference.value) {
      return Invalid, [NotLocal];
    }
    var attached := AttachedPath(reference.value);
    if attached.None? {
      return NotApplicable, [];
    }
    if files.None? {
      return NotChecked, [];
    }
    var path := p.resolve(attached.value);
    var manifest := if path in files.value then Parse(p.decode(files.value[path])) else None;
    if manifest.None? {
      return Invalid, [NotRead];
    }
    if manifest.value.Null? {
      NullHasNothing(p, files.value, fields);
      return Threw, [];
    }
    blockers := CheckManifest(p, files.value, fields, manifest);
    status := if blockers == [] then Valid else Invalid;
  }

  function FieldsOf(proofText: string): Fields {
    Records.LastWins(Records.ParseRecordFields(proofText))
  }

  method ReadFields(proofText: string) returns (fields: Fields)
    ensures fields == FieldsOf(proofText)
  {
    fields := Records.ParseProofRecord(proofText);
  }

  /** The field has no reference, or one that is neither a URL nor an attachment. */
  predicate Unattached(p: Platform, fields: Fields, e: Evidence) {
    match Reference(fields, e)
    case None => true
    case Some(reference) => !p.isHttpUrl(reference) && AttachedPath(reference).None?
  }

  lemma NullHasNothing(p: Platform, files: Files, fields: Fields)
    ensures !ManifestOk(p, files, fields, Some(Null))
  {
    hide FieldOk;
  }

  // --- the generated manifest is judged valid exactly while the artifacts keep size and hash --------------------------

  lemma {:induction false} EntryIsValid(e: Evidence, reference: string, path: string, size: nat, sha256: string)
    requires FitsDouble(size)
    ensures J.Valid(LocalEntry(e, reference, path, size, sha256))
  {
    hide NameOf;
    var members := LocalEntry(e, reference, path, size, sha256).members;
    assert forall i | 0 <= i < |members| :: members[i].value.Str? || members[i].value == Int(size);
  }

  lemma {:induction false} EntryReads(e: Evidence, reference: string, path: string, size: nat, sha256: string)
    requires FitsDouble(size)
    ensures var v := LocalEntry(e, reference, path, size, sha256);
            && J.Valid(v) && IsEntry(v)
            && At(Some(v), "evidenceField") == Some(Str(NameOf(e))) && At(Some(v), "reference") == Some(Str(reference))
            && At(Some(v), "kind") == Some(Str("local")) && At(Some(v), "sizeBytes") == Some(Int(size))
            && At(Some(v), "sha256") == Some(Str(sha256))
  {
    hide Lookup, NameOf, J.Valid;
    EntryIsValid(e, reference, path, size, sha256);
    var members := LocalEntry(e, reference, path, size, sha256).members;
    assert "reference"[0] != "sizeBytes"[0];
    LookupLast(members, 0);
    LookupLast(members, 1);
    LookupLast(members, 2);
    LookupLast(members, 4);
    LookupLast(members, 5);
  }

  lemma {:induction false} ManifestReads(generatedAt: string, baseDir: string, entries: seq<Json>)
    ensures var m := Some(ManifestJson(generatedAt, baseDir, entries));
            At(m, "schema") == Some(Str(Schema())) && At(m, "artifacts") == Some(Arr(entries))
  {
    hide Lookup, Schema;
    var members := ManifestJson(generatedAt, baseDir, entries).members;
    LookupLast(members, 0);
    LookupLast(members, 3);
  }

  lemma {:induction false} ManifestIsValid(generatedAt: string, baseDir: string, entries: seq<Json>)
    requires forall i | 0 <= i < |entries| :: J.Valid(entries[i])
    ensures J.Valid(ManifestJson(generatedAt, baseDir, entries))
  {
    hide Schema;
    var members := ManifestJson(generatedAt, baseDir, entries).members;
    assert J.Valid(Arr(entries));
    assert members[0].value.Str? && members[1].value.Str? && members[2].value.Str?;
  }

  /** The last entry of a field among the generated ones is the entry of that field. */
  lemma {:induction false} GeneratedEntry(p: Platform, files: Files, fields: Fields, es: seq<Evidence>, e: Evidence)
    requires Artifacts(p, files, fields, es).Some?
    ensures var entries := Artifacts(p, files, fields, es).value;
            && (forall i | 0 <= i < |entries| :: J.Valid(entries[i]))
            && (e in es ==> EntryFor(p, files, fields, e).Some?)
            && LastEntry(entries, NameOf(e)) ==
                 if e in es && Reference(fields, e).Some? then Some(EntryFor(p, files, fields, e).value[0]) else None
  {
    hide At, NameOf, IsEntry, LocalEntry, PathOf, Reference;
    if es != [] {
      var init, last := es[..|es| - 1], es[|es| - 1];
      assert es == init + [last];
      GeneratedEntry(p, files, fields, init, e);
      var entries, entry := Artifacts(p, files, fields, init).value, EntryFor(p, files, fields, last).value;
      if entry == [] {
        assert entries + entry == entries;
      } else {
        var path := PathOf(p, fields, last).value;
        EntryReads(last, Reference(fields, last).value, path, |files[path]|, p.sha256(files[path]));
        NamesDiffer(e, last);
        assert (entries + entry)[..|entries + entry| - 1] == entries;
      }
    }
  }

  /** Generator g and verdict p see the same URLs and hash alike. */
  ghost predicate SameLibrary(g: Platform, p: Platform) {
    (forall s :: g.isHttpUrl(s) == p.isHttpUrl(s)) && (forall bytes :: g.sha256(bytes) == p.sha256(bytes))
  }

  /** The artifact of a field that the generator found still has its size and hash where the verdict looks for it. */
  predicate Kept(g: Platform, p: Platform, files: Files, now: Files, fields: Fields, e: Evidence) {
    var before, after := PathOf(g, fields, e), PathOf(p, fields, e);
    before.Some? && before.value in files && after.Some? ==>
      && after.value in now
      && p.sha256(now[after.value]) == g.sha256(files[before.value])
      && |now[after.value]| == |files[before.value]|
  }

  /** Every artifact that the proof refers to is kept. */
  predicate Unchanged(g: Platform, p: Platform, files: Files, now: Files, fields: Fields) {
    forall e: Evidence | e in LISTED :: Kept(g, p, files, now, fields, e)
  }

  lemma SamePaths(g: Platform, p: Platform, fields: Fields, e: Evidence)
    requires SameLibrary(g, p)
    ensures PathOf(g, fields, e).Some? <==> PathOf(p, fields, e).Some?
    ensures PathOf(g, fields, e).Some? ==> Reference(fields, e).Some? && !p.isHttpUrl(Reference(fields, e).value)
  {
    hide NameOf, AttachedPath;
  }

  /** What the entries of a field read as. */
  lemma {:induction false} GeneratedReads(g: Platform, files: Files, fields: Fields, e: Evidence)
    requires Artifacts(g, files, fields, LISTED).Some? && e in LISTED && Reference(fields, e).Some?
    ensures PathOf(g, fields, e).Some? && PathOf(g, fields, e).value in files
    ensures var entry, bytes := LastEntry(Artifacts(g, files, fields, LISTED).value, NameOf(e)), files[PathOf(g, fields, e).value];
            && entry.Some? && At(entry, "reference") == Some(Str(Reference(fields, e).value))
            && At(entry, "kind") == Some(Str("local"))
            && At(entry, "sizeBytes") == Some(Int(|bytes|)) && At(entry, "sha256") == Some(Str(g.sha256(bytes)))
  {
    hide At, NameOf, LastEntry, Artifacts, LocalEntry, IsEntry, PathOf, Reference;
    GeneratedEntry(g, files, fields, LISTED, e);
    var path := PathOf(g, fields, e).value;
    EntryReads(e, Reference(fields, e).value, path, |files[path]|, g.sha256(files[path]));
  }

  lemma {:induction false} GeneratedFieldOk(g: Platform, p: Platform, files: Files, now: Files, fields: Fields, e: Evidence)
    requires Artifacts(g, files, fields, LISTED).Some? && e in LISTED && SameLibrary(g, p)
    ensures FieldOk(p, now, fields, Artifacts(g, files, fields, LISTED).value, e) <==> Kept(g, p, files, now, fields, e)
  {
    hide At, NameOf, LastEntry, Artifacts, PathOf;
    if Reference(fields, e).Some? {
      GeneratedReads(g, files, fields, e);
      SamePaths(g, p, fields, e);
    } else {
      NoPath(g, fields, e);
    }
  }

  lemma NoPath(g: Platform, fields: Fields, e: Evidence)
    requires Reference(fields, e).None?
    ensures PathOf(g, fields, e).None?
  {
  }

  /** A manifest generated by g from a proof and a file store, and attached to the proof, is judged valid by p
      against any later store if and only if every referenced artifact still has its size and its hash. */
  lemma GeneratedIsJudged(g: Platform, p: Platform, files: Files, now: Files, fields: Fields, generatedAt: string, baseDir: string)
    requires SameLibrary(g, p) && ManifestText(g, files, fields, generatedAt, baseDir).Some?
    requires PathOf(p, fields, ArtifactManifest).Some? && PathOf(p, fields, ArtifactManifest).value in now
    requires p.decode(now[PathOf(p, fields, ArtifactManifest).value]) == ManifestText(g, files, fields, generatedAt, baseDir).value
    ensures Judged(p, now, fields) <==> Unchanged(g, p, files, now, fields)
  {
    hide At, NameOf, LastEntry, Artifacts, LocalEntry, AttachedPath, IsEntry, FieldOk, PathOf, Schema, Parse, Print, ManifestJson,
         J.Valid, Kept;
    var entries := Artifacts(g, files, fields, LISTED).value;
    var manifest := ManifestJson(generatedAt, baseDir, entries);
    GeneratedEntry(g, files, fields, LISTED, ArtifactManifest);
    ManifestIsValid(generatedAt, baseDir, entries);
    assert Blank("  ") && Blank("\n");
    ParsePrinted(manifest, "  ", "\n");
    assert Attached(p, now, fields) == Some(manifest);
    ManifestReads(generatedAt, baseDir, entries);
    ListedAre();
    forall e | e in LISTED ensures FieldOk(p, now, fields, entries, e) <==> Kept(g, p, files, now, fields, e) {
      GeneratedFieldOk(g, p, files, now, fields, e);
    }
  }

  /** Written to a path that holds no artifact, a fresh manifest is judged valid by a side that resolves alike. */
  lemma FreshIsJudged(p: Platform, files: Files, fields: Fields, generatedAt: string, baseDir: string, bytes: Bytes)
    requires ManifestText(p, files, fields, generatedAt, baseDir).Some?
    requires p.decode(bytes) == ManifestText(p, files, fields, generatedAt, baseDir).value
    requires PathOf(p, fields, ArtifactManifest).Some?
    requires forall e | e in LISTED :: PathOf(p, fields, e) != PathOf(p, fields, ArtifactManifest)
    ensures Judged(p, files[PathOf(p, fields, ArtifactManifest).value := bytes], fields)
  {
    hide ManifestText, PathOf, Judged;
    GeneratedIsJudged(p, p, files, files[PathOf(p, fields, ArtifactManifest).value := bytes], fields, generatedAt, baseDir);
  }

  /** After that, no artifact can lose its file or get bytes of another size or hash without the verdict
      becoming invalid, whatever else changes. */
  lemma ChangeIsJudged(g: Platform, p: Platform, files: Files, now: Files, fields: Fields, generatedAt: string, baseDir: string, e: Evidence)
    requires SameLibrary(g, p) && ManifestText(g, files, fields, generatedAt, baseDir).Some?
    requires PathOf(p, fields, ArtifactManifest).Some? && PathOf(p, fields, ArtifactManifest).value in now
    requires p.decode(now[PathOf(p, fields, ArtifactManifest).value]) == ManifestText(g, files, fields, generatedAt, baseDir).value
    requires e in LISTED && PathOf(g, fields, e).Some? && PathOf(p, fields, e).Some?
    requires var before, after := PathOf(g, fields, e).value, PathOf(p, fields, e).value;
             || after !in now
             || (before in files && (|now[after]| != |files[before]| || p.sha256(now[after]) != g.sha256(files[before])))
    ensures !Judged(p, now, fields)
  {
    hide PathOf, Judged;
    GeneratedIsJudged(g, p, files, now, fields, generatedAt, baseDir);
    ReferencedIsFile(g, files, fields, e);
    assert !Kept(g, p, files, now, fields, e);
  }

  lemma ReferencedIsFile(p: Platform, files: Files, fields: Fields, e: Evidence)
    requires Artifacts(p, files, fields, LISTED).Some? && e in LISTED && PathOf(p, fields, e).Some?
    ensures PathOf(p, fields, e).value in files
  {
    hide Artifacts, NameOf, AttachedPath;
    GeneratedEntry(p, files, fields, LISTED, e);
  }

  // --- any attached manifest: when it is judged valid, on its own fields ----------------------------------------------

  /** The names of the listed fields. */
  const NAMES: seq<string> :=
    ["hosted_preflight_evidence", "agent_discovery_evidence", "paid_request_evidence", "receipt_verification_evidence",
     "referrer_balance_evidence", "dashboard_summary_evidence", "webhook_delivery_evidence", "payout_obligation_evidence",
     "funding_balance_evidence", "mcp_bundle_evidence", "mcp_gateway_evidence", "commands_run"]

  lemma NamesAre()
    ensures |NAMES| == |LISTED| && forall i | 0 <= i < |LISTED| :: NAMES[i] == NameOf(LISTED[i])
  {
  }

  /** An entry with any values under its keys. */
  datatype Entry = Entry(field: Json, reference: Json, kind: Json, artifactPath: Json, sizeBytes: Json, sha256: Json) {
    function Built(): Json {
      Obj([Member("evidenceField", field), Member("reference", reference), Member("kind", kind),
           Member("artifactPath", artifactPath), Member("sizeBytes", sizeBytes), Member("sha256", sha256)])
    }

    ghost predicate For(name: string) {
      field == Str(name) && reference.Str? && (kind == Str("local") || kind == Str("remote"))
    }
  }

  function BuiltAll(entries: seq<Entry>): (r: seq<Json>)
    ensures |r| == |entries| && forall i | 0 <= i < |r| :: r[i] == entries[i].Built()
  {
    if entries == [] then [] else BuiltAll(entries[..|entries| - 1]) + [entries[|entries| - 1].Built()]
  }

  /** Entry i is the last one for the name. */
  ghost predicate Lists(entries: seq<Entry>, i: int, name: string) {
    0 <= i < |entries| && entries[i].For(name) && forall j | i < j < |entries| :: !entries[j].For(name)
  }

  /** The entry is what its reference asks for: marked remote for a URL, and for an attachment marked local, with
      the size and the hash of the file. */
  ghost predicate Describes(p: Platform, files: Files, entry: Entry, reference: string) {
    && entry.reference == Str(reference)
    && (p.isHttpUrl(reference) ==> entry.kind == Str("remote"))
    && (forall path: string | !p.isHttpUrl(reference) && reference == "attached:" + path && Trim(path) != "" ::
          && entry.kind == Str("local") && p.resolve(Trim(path)) in files
          && entry.sizeBytes == Int(|files[p.resolve(Trim(path))]|)
          && entry.sha256 == Str(p.sha256(files[p.resolve(Trim(path))])))
  }

  ghost predicate Accounted(p: Platform, files: Files, fields: Fields, entries: seq<Entry>, name: string) {
    name in fields && fields[name] != "" ==>
      exists i :: Lists(entries, i, name) && Describes(p, files, entries[i], fields[name])
  }

  lemma {:induction false} EntryAt(e: Entry)
    ensures var v := Some(e.Built());
            && At(v, "evidenceField") == Some(e.field) && At(v, "reference") == Some(e.reference) && At(v, "kind") == Some(e.kind)
            && At(v, "sizeBytes") == Some(e.sizeBytes) && At(v, "sha256") == Some(e.sha256)
  {
    hide Lookup;
    var members := e.Built().members;
    ByShape(members, [(13, 'e'), (9, 'r'), (4, 'k'), (12, 'a'), (9, 's'), (6, 's')]);
    LookupDistinct(members, 0);
    LookupDistinct(members, 1);
    LookupDistinct(members, 2);
    LookupDistinct(members, 4);
    LookupDistinct(members, 5);
  }

  lemma {:induction false} EntryIff(e: Entry, name: string)
    ensures IsEntry(e.Built()) && At(Some(e.Built()), "evidenceField") == Some(Str(name)) <==> e.For(name)
  {
    hide At, Entry.Built;
    EntryAt(e);
  }

  /** The last entry for a name is found. */
  lemma {:induction false} LastEntryIs(entries: seq<Entry>, name: string)
    ensures LastEntry(BuiltAll(entries), name).None? ==> forall i :: !Lists(entries, i, name)
    ensures LastEntry(BuiltAll(entries), name).Some? ==>
              exists i :: Lists(entries, i, name) && LastEntry(BuiltAll(entries), name) == Some(entries[i].Built())
  {
    hide IsEntry, Entry.Built, At, Entry.For;
    if entries == [] {
    } else {
      var init, last := entries[..|entries| - 1], entries[|entries| - 1];
      var built := BuiltAll(entries);
      assert built[..|built| - 1] == BuiltAll(init);
      EntryIff(last, name);
      LastEntryIs(init, name);
      if last.For(name) {
        assert Lists(entries, |entries| - 1, name);
      } else {
        forall i ensures Lists(entries, i, name) <==> Lists(init, i, name) { ListsInit(entries, i, name); }
      }
    }
  }

  lemma {:induction false} ListsInit(entries: seq<Entry>, i: int, name: string)
    requires entries != [] && !entries[|entries| - 1].For(name)
    ensures Lists(entries, i, name) <==> Lists(entries[..|entries| - 1], i, name)
  {
    hide Entry.For;
    var init := entries[..|entries| - 1];
    assert forall j | 0 <= j < |init| :: init[j] == entries[j];
  }

  lemma {:induction false} ListsOnce(entries: seq<Entry>, i: int, j: int, name: string)
    requires Lists(entries, i, name) && Lists(entries, j, name)
    ensures i == j
  {
    hide Entry.For;
  }

  lemma {:induction false} DescribesIff(p: Platform, files: Files, fields: Fields, e: Evidence, entry: Entry)
    requires Reference(fields, e).Some?
    ensures var reference, v := Reference(fields, e).value, Some(entry.Built());
            Describes(p, files, entry, reference) <==>
              && At(v, "reference") == Some(Str(reference))
              && if p.isHttpUrl(reference) then At(v, "kind") == Some(Str("remote"))
                 else match PathOf(p, fields, e)
                   case None => true
                   case Some(path) => At(v, "kind") == Some(Str("local")) && path in files && Matches(p, v, files[path])
  {
    hide At, Entry.Built, AttachedPath, NameOf, Trim;
    var reference := Reference(fields, e).value;
    EntryAt(entry);
    AttachedIff(reference);
  }

  lemma {:induction false} AccountedIff(p: Platform, files: Files, fields: Fields, entries: seq<Entry>, e: Evidence)
    ensures FieldOk(p, files, fields, BuiltAll(entries), e) <==> Accounted(p, files, fields, entries, NameOf(e))
  {
    hide At, Entry.Built, Describes, LastEntry, BuiltAll, PathOf, NameOf, Matches, Entry.For;
    if Reference(fields, e).Some? {
      LastEntryIs(entries, NameOf(e));
      if LastEntry(BuiltAll(entries), NameOf(e)).Some? {
        var i :| Lists(entries, i, NameOf(e)) && LastEntry(BuiltAll(entries), NameOf(e)) == Some(entries[i].Built());
        DescribesIff(p, files, fields, e, entries[i]);
        forall j | Lists(entries, j, NameOf(e)) ensures j == i { ListsOnce(entries, i, j, NameOf(e)); }
      }
    }
  }

  /** A manifest with any schema and any entries, attached to a proof, is judged valid if and only if its schema
      is the generator's, it does not list itself, and every listed field that the proof refers to has a last
      entry that describes its reference. */
  lemma {:induction false} JudgedIff(p: Platform, files: Files, fields: Fields, path: string, schema: Json, generatedAt: Json,
                                     baseDir: Json, entries: seq<Entry>)
    requires "artifact_manifest_evidence" in fields && fields["artifact_manifest_evidence"] == "attached:" + path
    requires Trim(path) != "" && !p.isHttpUrl("attached:" + path) && p.resolve(Trim(path)) in files
    requires Parse(p.decode(files[p.resolve(Trim(path))])) ==
             Some(Obj([Member("schema", schema), Member("generatedAt", generatedAt), Member("artifactBaseDir", baseDir),
                       Member("artifacts", Arr(BuiltAll(entries)))]))
    ensures Judged(p, files, fields) <==>
              && schema == Str("split402.phase7_artifact_manifest.v1")
              && (forall i :: !Lists(entries, i, "artifact_manifest_evidence"))
              && (forall k | 0 <= k < |NAMES| :: Accounted(p, files, fields, entries, NAMES[k]))
  {
    hide At, LastEntry, BuiltAll, Lists, FieldOk, Accounted, AttachedPath, Parse, Trim, Schema, Lookup;
    assert Schema() == "split402.phase7_artifact_manifest.v1" by { SchemaIs(); }
    AttachedIff("attached:" + path);
    var manifest := Attached(p, files, fields);
    assert manifest.value.members[3].value.items == BuiltAll(entries);
    ManifestAt(schema, generatedAt, baseDir, BuiltAll(entries));
    LastEntryIs(entries, NameOf(ArtifactManifest));
    NamesAre();
    forall k | 0 <= k < |LISTED|
      ensures FieldOk(p, files, fields, BuiltAll(entries), LISTED[k]) <==> Accounted(p, files, fields, entries, NAMES[k])
    {
      AccountedIff(p, files, fields, entries, LISTED[k]);
    }
  }

  lemma SchemaIs()
    ensures Schema() == "split402.phase7_artifact_manifest.v1"
  {
  }

  lemma {:induction false} ManifestAt(schema: Json, generatedAt: Json, baseDir: Json, entries: seq<Json>)
    ensures var m := Some(Obj([Member("schema", schema), Member("generatedAt", generatedAt), Member("artifactBaseDir", baseDir),
                               Member("artifacts", Arr(entries))]));
            At(m, "schema") == Some(schema) && At(m, "artifacts") == Some(Arr(entries))
  {
    hide Lookup;
    var members := [Member("schema", schema), Member("generatedAt", generatedAt), Member("artifactBaseDir", baseDir),
                    Member("artifacts", Arr(entries))];
    LookupLast(members, 0);
    LookupLast(members, 3);
  }

  // --- what the generator writes ------------------------------------------------------------------------------------------

  /** The reference attaches a file of the store, and is no URL. */
  ghost predicate Attaches(p: Platform, files: Files, reference: string) {
    !p.isHttpUrl(reference) && exists path: string :: reference == "attached:" + path && Trim(path) != "" && p.resolve(Trim(path)) in files
  }

  predicate Given(fields: Fields, name: string) {
    name in fields && fields[name] != ""
  }

  /** The names under which a proof gives a reference. */
  function GivenNames(fields: Fields, names: seq<string>): seq<string> {
    if names == [] then []
    else GivenNames(fields, names[..|names| - 1]) + if Given(fields, names[|names| - 1]) then [names[|names| - 1]] else []
  }

  /** The local entry of an attached file. */
  ghost predicate Made(p: Platform, files: Files, entry: Entry, name: string, reference: string) {
    && entry.field == Str(name) && entry.reference == Str(reference) && entry.kind == Str("local")
    && forall path: string | reference == "attached:" + path && Trim(path) != "" ::
         var at := p.resolve(Trim(path));
         && at in files && entry.artifactPath == Str(at) && entry.sizeBytes == Int(|files[at]|)
         && entry.sha256 == Str(p.sha256(files[at]))
  }

  ghost predicate MadeAll(p: Platform, files: Files, fields: Fields, entries: seq<Entry>, names: seq<string>) {
    && |entries| == |names|
    && forall i | 0 <= i < |names| :: names[i] in fields && Made(p, files, entries[i], names[i], fields[names[i]])
  }

  lemma {:induction false} AttachesIff(p: Platform, files: Files, fields: Fields, e: Evidence)
    requires Reference(fields, e).Some?
    ensures EntryFor(p, files, fields, e).Some? <==> Attaches(p, files, Reference(fields, e).value)
  {
    hide Trim, AttachedPath, NameOf;
    var reference := Reference(fields, e).value;
    AttachedIff(reference);
    if AttachedPath(reference).Some? {
      var path: string :| reference == "attached:" + path && Trim(path) != "";
      assert AttachedPath(reference) == Some(Trim(path));
    }
  }

  lemma {:induction false} EntryIsMade(p: Platform, files: Files, fields: Fields, e: Evidence) returns (entry: Entry)
    requires Reference(fields, e).Some? && EntryFor(p, files, fields, e).Some?
    ensures EntryFor(p, files, fields, e).value == [entry.Built()]
    ensures Made(p, files, entry, NameOf(e), Reference(fields, e).value)
  {
    hide Trim, AttachedPath, NameOf;
    var reference := Reference(fields, e).value;
    AttachedIff(reference);
    var path := PathOf(p, fields, e).value;
    entry := Entry(Str(NameOf(e)), Str(reference), Str("local"), Str(path), Int(|files[path]|), Str(p.sha256(files[path])));
  }

  /** One name more. */
  lemma {:induction false} MadeMore(p: Platform, files: Files, fields: Fields, entries: seq<Entry>, entry: Entry, names: seq<string>, name: string)
    requires MadeAll(p, files, fields, entries, names)
    requires name in fields && Made(p, files, entry, name, fields[name])
    ensures MadeAll(p, files, fields, entries + [entry], names + [name])
    ensures BuiltAll(entries + [entry]) == BuiltAll(entries) + [entry.Built()]
  {
    hide Made, Entry.Built;
    assert (entries + [entry])[..|entries|] == entries;
  }

  /** The names of these fields. */
  ghost predicate Named(es: seq<Evidence>, names: seq<string>) {
    |es| == |names| && forall i | 0 <= i < |es| :: names[i] == NameOf(es[i])
  }

  lemma {:induction false} ArtifactsIff(p: Platform, files: Files, fields: Fields, es: seq<Evidence>, names: seq<string>)
    requires Named(es, names)
    ensures Artifacts(p, files, fields, es).Some? <==>
              forall k | 0 <= k < |names| && Given(fields, names[k]) :: Attaches(p, files, fields[names[k]])
  {
    hide Attaches, EntryFor, NameOf, Entry.Built;
    if es != [] {
      var init, last := es[..|es| - 1], es[|es| - 1];
      ArtifactsIff(p, files, fields, init, names[..|es| - 1]);
      if Given(fields, names[|es| - 1]) { AttachesIff(p, files, fields, last); } else { NothingFor(p, files, fields, last); }
    }
  }

  lemma {:induction false} ArtifactsAre(p: Platform, files: Files, fields: Fields, es: seq<Evidence>, names: seq<string>)
    returns (entries: seq<Entry>)
    requires Named(es, names) && Artifacts(p, files, fields, es).Some?
    ensures Artifacts(p, files, fields, es).value == BuiltAll(entries)
    ensures MadeAll(p, files, fields, entries, GivenNames(fields, names))
  {
    hide Made, EntryFor, NameOf, Entry.Built, BuiltAll, MadeAll;
    if es == [] {
      entries := [];
      NoneMade(p, files, fields);
    } else {
      var init, last := es[..|es| - 1], es[|es| - 1];
      entries := ArtifactsAre(p, files, fields, init, names[..|es| - 1]);
      if Given(fields, names[|es| - 1]) {
        var entry := EntryIsMade(p, files, fields, last);
        MadeMore(p, files, fields, entries, entry, GivenNames(fields, names[..|es| - 1]), names[|es| - 1]);
        entries := entries + [entry];
      } else {
        NothingFor(p, files, fields, last);
        assert BuiltAll(entries) + [] == BuiltAll(entries);
        assert GivenNames(fields, names[..|es| - 1]) + [] == GivenNames(fields, names[..|es| - 1]);
      }
    }
  }

  lemma NoneMade(p: Platform, files: Files, fields: Fields)
    ensures BuiltAll([]) == [] && MadeAll(p, files, fields, [], [])
  {
  }

  lemma NothingFor(p: Platform, files: Files, fields: Fields, e: Evidence)
    requires Reference(fields, e).None?
    ensures EntryFor(p, files, fields, e) == Some([])
  {
  }

  /** The generator succeeds if and only if every reference that a proof gives under a listed name attaches a file,
      and then its text reads as the schema, the two texts it was given, and one local entry for each of
      those names, in order, with the path, the size and the hash of its file. */
  lemma {:induction false} GeneratesIff(p: Platform, files: Files, fields: Fields, generatedAt: string, baseDir: string)
    ensures var text := ManifestText(p, files, fields, generatedAt, baseDir);
            && (text.Some? <==> forall k | 0 <= k < |NAMES| && Given(fields, NAMES[k]) :: Attaches(p, files, fields[NAMES[k]]))
            && (text.Some? ==> exists entries: seq<Entry> ::
                  && MadeAll(p, files, fields, entries, GivenNames(fields, NAMES))
                  && Parse(text.value) == Some(Obj([Member("schema", Str("split402.phase7_artifact_manifest.v1")),
                       Member("generatedAt", Str(generatedAt)), Member("artifactBaseDir", Str(baseDir)),
                       Member("artifacts", Arr(BuiltAll(entries)))])))
  {
    hide Attaches, Given, Made, GivenNames, Artifacts, Parse, Print, J.Valid, Schema;
    NamesAre();
    ArtifactsIff(p, files, fields, LISTED, NAMES);
    var artifacts := Artifacts(p, files, fields, LISTED);
    if artifacts.Some? {
      var entries := ArtifactsAre(p, files, fields, LISTED, NAMES);
      SchemaIs();
      GeneratedEntry(p, files, fields, LISTED, ArtifactManifest);
      ManifestIsValid(generatedAt, baseDir, artifacts.value);
      assert Blank("  ") && Blank("\n");
      ParsePrinted(ManifestJson(generatedAt, baseDir, artifacts.value), "  ", "\n");
    }
  }
}
