/** The custody record pipeline: two review records are written, read back, assembled into the evidence
    bundle, and the bundle is read back and judged. */
module CustodyRecords {
  import opened Text
  import opened Lines
  import opened Records

  // --- records over keys ----------------------------------------------------------------------------------------

  /** The keys of the image-provenance record, the signer-policy record and the evidence bundle. */
  datatype Key =
    | ReviewId | ReviewDate | Reviewers | SourceCommit | SignerImageDigest | ControlPlaneImageDigest
    | SignerImageBuildCommand | DependencyInstallCommand | DependencyAuditCommand | DependencyAuditOutput
    | BuildLogRecord | SbomRecord | ReviewDecision | ReviewNotes
    | Network | FundingWallet | SourceTokenAccount | Mint | AllowedTokenProgramIds | MaxTransactionAmountAtomic
    | MaxBatchAmountAtomic | ExpectedDestinationAmountListHash | RequireSuccessfulSimulation | SignerReference
    | SignerImageDependencyAuditOutput | StagingEnvironment | NetworkPolicyRecord | SignerPolicyRecord
    | SignerPolicyNetwork | SignerPolicyFundingWallet | SignerPolicySourceTokenAccount | SignerPolicyMint
    | SignerPolicyAllowedTokenProgramIds | SignerPolicyMaxTransactionAmountAtomic | SmokeCheckOutput
    | UnknownOutcomeReconciliationRecord | RotationDrillRecord | EmergencyRevocationDrillRecord | KeyCustodyRecord
    | IncidentDrillRecord | RollbackDrillRecord | RpcFailoverRecord | ApprovalDecision | ApprovalNotes

  /** How keys are spelled. */
  type Naming = Key -> string

  predicate Spells(name: Naming) {
    && (forall k: Key :: IsFieldName(name(k)))
    && (forall j: Key, k: Key :: name(j) == name(k) ==> j == k)
  }

  datatype ImageInput = ImageInput(
    reviewId: string, reviewDate: string, reviewers: string, sourceCommit: string, signerImageDigest: string,
    controlPlaneImageDigest: string, signerImageBuildCommand: string, dependencyInstallCommand: string,
    dependencyAuditCommand: string, dependencyAuditOutput: string, buildLogRecord: string, sbomRecord: string,
    reviewDecision: string, reviewNotes: string)

  datatype PolicyInput = PolicyInput(
    reviewId: string, reviewDate: string, reviewers: string, network: string, fundingWallet: string,
    sourceTokenAccount: string, mint: string, allowedTokenProgramIds: seq<string>, maxTransactionAmountAtomic: string,
    maxBatchAmountAtomic: string, expectedDestinationAmountListHash: string, requireSuccessfulSimulation: bool,
    signerReference: string, reviewDecision: string, reviewNotes: string)

  /** What the bundle is assembled from: the fields read from the two records, the attachments, and the commit
      of the checkout. */
  datatype Assembly = Assembly(
    image: map<string, string>, policy: map<string, string>, attachments: map<Key, string>, currentCommit: Option<string>)

  datatype Source = FromImage(image: ImageInput) | FromPolicy(policy: PolicyInput) | FromAssembly(assembly: Assembly)

  // --- what the creators demand ------------------------------------------------------------------------------------

  predicate IsLowerHex(c: char) {
    IsDigit(c) || 'a' <= c <= 'f'
  }

  predicate IsGitSha(s: string) {
    7 <= |s| <= 40 && forall i | 0 <= i < |s| :: IsLowerHex(s[i])
  }

  const DIGEST_PREFIX := "sha256:"

  predicate IsImageDigest(s: string) {
    |s| == 71 && s[..7] == DIGEST_PREFIX && forall i | 7 <= i < 71 :: IsLowerHex(s[i])
  }

  const NETWORK_PREFIX := "solana:"

  predicate IsSolanaNetwork(s: string) {
    |NETWORK_PREFIX| <= |s| && s[..|NETWORK_PREFIX|] == NETWORK_PREFIX
  }

  predicate IsPositiveAmount(s: string) {
    s != "" && s[0] != '0' && AllDigits(s)
  }

  /** `values.map((value) => value.trim()).filter(Boolean)`. */
  function TrimmedItems(items: seq<string>): seq<string> {
    if items == [] then []
    else (if Trim(items[0]) == "" then [] else [Trim(items[0])]) + TrimmedItems(items[1..])
  }

  function JoinCommas(items: seq<string>): string {
    if items == [] then ""
    else if |items| == 1 then items[0]
    else items[0] + "," + JoinCommas(items[1..])
  }

  /** Where `createPhase6ImageProvenanceRecord` does not throw. */
  predicate ImageInputOk(i: ImageInput) {
    && Trim(i.reviewId) != "" && Trim(i.reviewDate) != "" && Trim(i.reviewers) != "" && IsGitSha(Trim(i.sourceCommit))
    && IsImageDigest(Trim(i.signerImageDigest)) && IsImageDigest(Trim(i.controlPlaneImageDigest))
    && Trim(i.dependencyAuditOutput) != "" && Trim(i.buildLogRecord) != "" && Trim(i.sbomRecord) != ""
  }

  /** Where `createPhase6SignerPolicyReviewRecord` does not throw. */
  predicate PolicyInputOk(p: PolicyInput) {
    && Trim(p.reviewId) != "" && Trim(p.reviewDate) != "" && Trim(p.reviewers) != "" && IsSolanaNetwork(Trim(p.network))
    && Trim(p.fundingWallet) != "" && Trim(p.sourceTokenAccount) != "" && Trim(p.mint) != ""
    && TrimmedItems(p.allowedTokenProgramIds) != []
    && IsPositiveAmount(Trim(p.maxTransactionAmountAtomic)) && IsPositiveAmount(Trim(p.maxBatchAmountAtomic))
    && Trim(p.expectedDestinationAmountListHash) != "" && p.requireSuccessfulSimulation && Trim(p.signerReference) != ""
  }

  // --- what is written -------------------------------------------------------------------------------------------------

  const IMAGE_KEYS: seq<Key> :=
    [ReviewId, ReviewDate, Reviewers, SourceCommit, SignerImageDigest, ControlPlaneImageDigest, SignerImageBuildCommand,
     DependencyInstallCommand, DependencyAuditCommand, DependencyAuditOutput, BuildLogRecord, SbomRecord, ReviewDecision,
     ReviewNotes]

  const POLICY_KEYS: seq<Key> :=
    [ReviewId, ReviewDate, Reviewers, Network, FundingWallet, SourceTokenAccount, Mint, AllowedTokenProgramIds,
     MaxTransactionAmountAtomic, MaxBatchAmountAtomic, ExpectedDestinationAmountListHash, RequireSuccessfulSimulation,
     SignerReference, ReviewDecision, ReviewNotes]

  const BUNDLE_KEYS: seq<Key> :=
    [ReviewId, ReviewDate, Reviewers, SourceCommit, SignerImageDigest, SignerImageBuildCommand,
     SignerImageDependencyAuditOutput, ControlPlaneImageDigest, StagingEnvironment, FundingWallet, Network,
     NetworkPolicyRecord, SignerPolicyRecord, SignerPolicyNetwork, SignerPolicyFundingWallet,
     SignerPolicySourceTokenAccount, SignerPolicyMint, SignerPolicyAllowedTokenProgramIds,
     SignerPolicyMaxTransactionAmountAtomic, SmokeCheckOutput, UnknownOutcomeReconciliationRecord, RotationDrillRecord,
     EmergencyRevocationDrillRecord, KeyCustodyRecord, IncidentDrillRecord, RollbackDrillRecord, RpcFailoverRecord,
     ApprovalDecision, ApprovalNotes]

  function ImageValue(i: ImageInput, k: Key): string {
    match k
    case ReviewId => Trim(i.reviewId)
    case ReviewDate => Trim(i.reviewDate)
    case Reviewers => Trim(i.reviewers)
    case SourceCommit => Trim(i.sourceCommit)
    case SignerImageDigest => Trim(i.signerImageDigest)
    case ControlPlaneImageDigest => Trim(i.controlPlaneImageDigest)
    case SignerImageBuildCommand => i.signerImageBuildCommand
    case DependencyInstallCommand => i.dependencyInstallCommand
    case DependencyAuditCommand => i.dependencyAuditCommand
    case DependencyAuditOutput => Trim(i.dependencyAuditOutput)
    case BuildLogRecord => Trim(i.buildLogRecord)
    case SbomRecord => Trim(i.sbomRecord)
    case ReviewDecision => i.reviewDecision
    case _ => i.reviewNotes
  }

  function PolicyValue(p: PolicyInput, k: Key): string {
    match k
    case ReviewId => Trim(p.reviewId)
    case ReviewDate => Trim(p.reviewDate)
    case Reviewers => Trim(p.reviewers)
    case Network => Trim(p.network)
    case FundingWallet => Trim(p.fundingWallet)
    case SourceTokenAccount => Trim(p.sourceTokenAccount)
    case Mint => Trim(p.mint)
    case AllowedTokenProgramIds => JoinCommas(TrimmedItems(p.allowedTokenProgramIds))
    case MaxTransactionAmountAtomic => Trim(p.maxTransactionAmountAtomic)
    case MaxBatchAmountAtomic => Trim(p.maxBatchAmountAtomic)
    case ExpectedDestinationAmountListHash => Trim(p.expectedDestinationAmountListHash)
    case RequireSuccessfulSimulation => "true"
    case SignerReference => Trim(p.signerReference)
    case ReviewDecision => p.reviewDecision
    case _ => p.reviewNotes
  }

  function Get(fields: map<string, string>, key: string): Option<string> {
    if key in fields then Some(fields[key]) else None
  }

  /** The record that a bundle key is filled from, the image provenance or else the signer policy, and the key
      in it. */
  function Origin(k: Key): Option<(bool, Key)> {
    match k
    case ReviewDate => Some((true, ReviewDate))
    case Reviewers => Some((true, Reviewers))
    case SourceCommit => Some((true, SourceCommit))
    case SignerImageDigest => Some((true, SignerImageDigest))
    case SignerImageBuildCommand => Some((true, SignerImageBuildCommand))
    case SignerImageDependencyAuditOutput => Some((true, DependencyAuditOutput))
    case ControlPlaneImageDigest => Some((true, ControlPlaneImageDigest))
    case Network => Some((false, Network))
    case FundingWallet => Some((false, FundingWallet))
    case SignerPolicyNetwork => Some((false, Network))
    case SignerPolicyFundingWallet => Some((false, FundingWallet))
    case SignerPolicySourceTokenAccount => Some((false, SourceTokenAccount))
    case SignerPolicyMint => Some((false, Mint))
    case SignerPolicyAllowedTokenProgramIds => Some((false, AllowedTokenProgramIds))
    case SignerPolicyMaxTransactionAmountAtomic => Some((false, MaxTransactionAmountAtomic))
    case _ => None
  }

  /** `deriveValuesFromImageProvenance`, `deriveValuesFromSignerPolicy` and `deriveAttachmentValues`. */
  function Derived(name: Naming, a: Assembly, k: Key): Option<string> {
    match Origin(k)
    case Some((fromImage, key)) => Get(if fromImage then a.image else a.policy, name(key))
    case None =>
      if k in a.attachments && Trim(a.attachments[k]) != "" then Some("attached: " + Trim(a.attachments[k])) else None
  }

  /** The value of a bundle line: the derived one, the commit of the checkout where a source commit is missing,
      or the default. */
  function BundleValue(name: Naming, a: Assembly, k: Key): string {
    match Derived(name, a, k)
    case Some(value) =>
      if k.SourceCommit? && Trim(value) == "" && a.currentCommit.Some? then a.currentCommit.value else value
    case None =>
      if k.SourceCommit? && a.currentCommit.Some? then a.currentCommit.value
      else if k.ApprovalDecision? then "no-go"
      else ""
  }

  function ValueOf(name: Naming, source: Source, k: Key): string {
    match source
    case FromImage(i) => ImageValue(i, k)
    case FromPolicy(p) => PolicyValue(p, k)
    case FromAssembly(a) => BundleValue(name, a, k)
  }

  function RecordLines(name: Naming, source: Source, keys: seq<Key>): seq<string> {
    if keys == [] then []
    else RecordLines(name, source, keys[..|keys| - 1]) + [Assignment(name(keys[|keys| - 1]), ValueOf(name, source, keys[|keys| - 1]))]
  }

  /** One `key: value` line a key. */
  function RecordText(name: Naming, source: Source, keys: seq<Key>): string {
    Join(RecordLines(name, source, keys)) + "\n"
  }

  /** `parsePhase6Record`, `parseEvidenceFields`. */
  function Fields(text: string): map<string, string> {
    LastWins(ParseRecordFields(text))
  }

  // --- the verdict on the bundle -----------------------------------------------------------------------------------------

  datatype Issue =
    | BadSourceCommit | BadPolicyNetwork | OtherNetwork | OtherFundingWallet | NoTokenProgram | BadMaxAmount
    | BadSignerDigest | BadControlPlaneDigest

  /** The trimmed text of a field, empty if it is absent. */
  function TextOf(fields: map<string, string>, key: string): string {
    if key in fields then Trim(fields[key]) else ""
  }

  predicate Raised(name: Naming, fields: map<string, string>, issue: Issue) {
    var network, policyNetwork := TextOf(fields, name(Network)), TextOf(fields, name(SignerPolicyNetwork));
    var wallet, policyWallet := TextOf(fields, name(FundingWallet)), TextOf(fields, name(SignerPolicyFundingWallet));
    var programs := TextOf(fields, name(SignerPolicyAllowedTokenProgramIds));
    var amount := TextOf(fields, name(SignerPolicyMaxTransactionAmountAtomic));
    var commit := TextOf(fields, name(SourceCommit));
    var signer, plane := TextOf(fields, name(SignerImageDigest)), TextOf(fields, name(ControlPlaneImageDigest));
    match issue
    case BadSourceCommit => commit != "" && !IsGitSha(commit)
    case BadPolicyNetwork => policyNetwork != "" && !IsSolanaNetwork(policyNetwork)
    case OtherNetwork => policyNetwork != "" && network != "" && policyNetwork != network
    case OtherFundingWallet => policyWallet != "" && wallet != "" && policyWallet != wallet
    case NoTokenProgram => programs != "" && EveryItemBlank(programs)
    case BadMaxAmount => amount != "" && !IsPositiveAmount(amount)
    case BadSignerDigest => signer != "" && !IsImageDigest(signer)
    case BadControlPlaneDigest => plane != "" && !IsImageDigest(plane)
  }

  /** `text.split(",").every((item) => item.trim().length === 0)`, as a scan of the pieces. */
  predicate EveryItemBlank(text: string) {
    AllSpace(UpToComma(text)) && (|UpToComma(text)| < |text| ==> EveryItemBlank(text[|UpToComma(text)| + 1..]))
  }

  function UpToComma(text: string): (r: string)
    ensures |r| <= |text| && r == text[..|r|] && (|r| < |text| ==> text[|r|] == ',')
    ensures ',' !in r
  {
    if text == "" || text[0] == ',' then "" else [text[0]] + UpToComma(text[1..])
  }

  /** What is wrong with a bundle, field by field: a commit that is no short or full hash, a policy network
      outside Solana, a network or wallet that differs from the policy's, a list without a token program, a
      maximum that is no positive amount, or a digest that is no SHA-256. */
  ghost predicate Wrong(name: Naming, fields: map<string, string>, issue: Issue) {
    match issue
    case BadSourceCommit => Filled(fields, name(SourceCommit)) && !AbbreviatesHash(Trim(fields[name(SourceCommit)]))
    case BadPolicyNetwork =>
      && Filled(fields, name(SignerPolicyNetwork))
      && forall rest: string :: Trim(fields[name(SignerPolicyNetwork)]) != "solana:" + rest
    case OtherNetwork => Differ(fields, name(SignerPolicyNetwork), name(Network))
    case OtherFundingWallet => Differ(fields, name(SignerPolicyFundingWallet), name(FundingWallet))
    case NoTokenProgram =>
      && Filled(fields, name(SignerPolicyAllowedTokenProgramIds))
      && OnlyCommas(fields[name(SignerPolicyAllowedTokenProgramIds)])
    case BadMaxAmount =>
      && Filled(fields, name(SignerPolicyMaxTransactionAmountAtomic))
      && !PositiveNumeral(Trim(fields[name(SignerPolicyMaxTransactionAmountAtomic)]))
    case BadSignerDigest => Filled(fields, name(SignerImageDigest)) && !NamesDigest(Trim(fields[name(SignerImageDigest)]))
    case BadControlPlaneDigest =>
      Filled(fields, name(ControlPlaneImageDigest)) && !NamesDigest(Trim(fields[name(ControlPlaneImageDigest)]))
  }

  /** The field has something other than white space. */
  ghost predicate Filled(fields: map<string, string>, key: string) {
    key in fields && exists i | 0 <= i < |fields[key]| :: !IsSpace(fields[key][i])
  }

  ghost predicate Differ(fields: map<string, string>, a: string, b: string) {
    Filled(fields, a) && Filled(fields, b) && Trim(fields[a]) != Trim(fields[b])
  }

  /** Lower-case hexadecimal digits. */
  ghost predicate AllHex(s: string) {
    forall i | 0 <= i < |s| :: s[i] in "0123456789abcdef"
  }

  ghost predicate AbbreviatesHash(s: string) {
    7 <= |s| <= 40 && AllHex(s)
  }

  ghost predicate PositiveNumeral(s: string) {
    exists n: nat :: n > 0 && s == Digits(n)
  }

  ghost predicate NamesDigest(s: string) {
    exists hash: string :: |hash| == 64 && AllHex(hash) && s == "sha256:" + hash
  }

  lemma {:induction false} HexIff(c: char)
    ensures IsLowerHex(c) <==> c in "0123456789abcdef"
  {
    var hex := "0123456789abcdef";
    if IsDigit(c) {
      assert hex[c as int - '0' as int] == c;
    } else if 'a' <= c <= 'f' {
      assert hex[c as int - 'a' as int + 10] == c;
    }
  }

  lemma {:induction false} CommitIff(s: string)
    ensures IsGitSha(s) <==> AbbreviatesHash(s)
  {
    hide IsLowerHex;
    forall c: char ensures IsLowerHex(c) <==> c in "0123456789abcdef" { HexIff(c); }
  }

  lemma {:induction false} DigestIff(s: string)
    ensures IsImageDigest(s) <==> NamesDigest(s)
  {
    hide IsLowerHex;
    forall c: char ensures IsLowerHex(c) <==> c in "0123456789abcdef" { HexIff(c); }
    if IsImageDigest(s) {
      assert s == s[..7] + s[7..];
      assert |s[7..]| == 64 && AllHex(s[7..]);
    }
    if NamesDigest(s) {
      var hash: string :| |hash| == 64 && AllHex(hash) && s == "sha256:" + hash;
      assert s[..7] == "sha256:" && s[7..] == hash;
      assert forall i | 7 <= i < 71 :: s[i] == hash[i - 7];
    }
  }

  lemma {:induction false} NetworkIff(s: string)
    ensures IsSolanaNetwork(s) <==> exists rest: string :: s == "solana:" + rest
  {
    if IsSolanaNetwork(s) { assert s == "solana:" + s[7..]; }
  }

  lemma {:induction false} AmountIff(s: string)
    ensures IsPositiveAmount(s) <==> PositiveNumeral(s)
  {
    hide Digits, NatOf;
    if IsPositiveAmount(s) {
      CanonicalIsPositive(s);
      DigitsOfNat(s);
    }
  }

  lemma {:induction false} FilledIff(fields: map<string, string>, key: string)
    ensures TextOf(fields, key) != "" <==> Filled(fields, key)
    ensures Filled(fields, key) ==> TextOf(fields, key) == Trim(fields[key])
  {
    if key in fields { TrimIsTrimmed(fields[key]); }
  }

  lemma {:induction false} ProgramsIff(fields: map<string, string>, key: string)
    requires Filled(fields, key)
    ensures EveryItemBlank(TextOf(fields, key)) <==> OnlyCommas(fields[key])
  {
    hide Trim, EveryItemBlank, OnlyCommas;
    EveryItemBlankIff(Trim(fields[key]));
    OnlyCommasTrim(fields[key]);
  }

  /** Each issue is raised exactly if its field is wrong. */
  lemma {:induction false} RaisedIff(name: Naming, fields: map<string, string>, issue: Issue)
    ensures Raised(name, fields, issue) <==> Wrong(name, fields, issue)
  {
    hide Trim, TextOf, Filled, IsGitSha, IsImageDigest, IsSolanaNetwork, IsPositiveAmount, EveryItemBlank, OnlyCommas, AbbreviatesHash,
         NamesDigest, PositiveNumeral;
    match issue
    case BadSourceCommit =>
      FilledIff(fields, name(SourceCommit));
      CommitIff(TextOf(fields, name(SourceCommit)));
    case BadPolicyNetwork =>
      FilledIff(fields, name(SignerPolicyNetwork));
      NetworkIff(TextOf(fields, name(SignerPolicyNetwork)));
    case OtherNetwork =>
      FilledIff(fields, name(SignerPolicyNetwork));
      FilledIff(fields, name(Network));
    case OtherFundingWallet =>
      FilledIff(fields, name(SignerPolicyFundingWallet));
      FilledIff(fields, name(FundingWallet));
    case NoTokenProgram =>
      FilledIff(fields, name(SignerPolicyAllowedTokenProgramIds));
      if Filled(fields, name(SignerPolicyAllowedTokenProgramIds)) { ProgramsIff(fields, name(SignerPolicyAllowedTokenProgramIds)); }
    case BadMaxAmount =>
      FilledIff(fields, name(SignerPolicyMaxTransactionAmountAtomic));
      AmountIff(TextOf(fields, name(SignerPolicyMaxTransactionAmountAtomic)));
    case BadSignerDigest =>
      FilledIff(fields, name(SignerImageDigest));
      DigestIff(TextOf(fields, name(SignerImageDigest)));
    case BadControlPlaneDigest =>
      FilledIff(fields, name(ControlPlaneImageDigest));
      DigestIff(TextOf(fields, name(ControlPlaneImageDigest)));
  }

  // --- reading a record back ------------------------------------------------------------------------------------------------

  predicate SingleLine(name: Naming, source: Source, keys: seq<Key>) {
    forall k | k in keys :: NoTerminator(ValueOf(name, source, k))
  }

  lemma AssignmentIsLine(field: string, value: string)
    requires IsFieldName(field) && NoTerminator(value)
    ensures IsLine(Assignment(field, value)) && '\r' !in Assignment(field, value)
  {
    var line := Assignment(field, value);
    forall i | 0 <= i < |line| ensures line[i] != '\n' && line[i] != '\r' {
      if i < |field| {
        assert line[i] == field[i];
      } else if i >= |field| + 2 {
        assert line[i] == value[i - |field| - 2];
      }
    }
  }

  lemma {:induction false} RecordLinesAre(name: Naming, source: Source, keys: seq<Key>)
    requires Spells(name) && SingleLine(name, source, keys)
    ensures var lines := RecordLines(name, source, keys);
            |lines| == |keys| && AllLines(lines) && forall i | 0 <= i < |lines| :: '\r' !in lines[i]
  {
    hide ValueOf, Assignment;
    if keys != [] {
      var init, last := keys[..|keys| - 1], keys[|keys| - 1];
      RecordLinesAre(name, source, init);
      AssignmentIsLine(name(last), ValueOf(name, source, last));
    }
  }

  lemma {:induction false} LastWinsAppend(entries: seq<Entry>, e: Entry)
    ensures LastWins(entries + [e]) == LastWins(entries)[e.field := e.value]
  {
    assert (entries + [e])[..|entries + [e]| - 1] == entries;
  }

  lemma {:induction false} LinesReadBack(name: Naming, source: Source, keys: seq<Key>, k: Key)
    requires Spells(name) && SingleLine(name, source, keys)
    ensures Get(LastWins(Entries(RecordLines(name, source, keys))), name(k)) ==
            if k in keys then Some(Trim(ValueOf(name, source, k))) else None
  {
    hide ValueOf, Assignment, Trim, LastWins, Entries;
    if keys == [] {
      NothingReadsBack();
    } else {
      var init, last := keys[..|keys| - 1], keys[|keys| - 1];
      assert keys == init + [last];
      LinesReadBack(name, source, init, k);
      LineAppends(RecordLines(name, source, init), name(last), ValueOf(name, source, last));
    }
  }

  lemma NothingReadsBack()
    ensures LastWins(Entries([])) == map[]
  {
  }

  lemma {:induction false} LineAppends(lines: seq<string>, field: string, value: string)
    requires IsFieldName(field) && NoTerminator(value)
    ensures LastWins(Entries(lines + [Assignment(field, value)])) == LastWins(Entries(lines))[field := Trim(value)]
  {
    hide Assignment, Trim, EntryOf, LastWins;
    var line := Assignment(field, value);
    AssignmentEntry(field, value);
    EntriesConcat(lines, [line]);
    assert Entries([line]) == [Entry(field, Trim(value))] by { assert [line][1..] == []; }
    LastWinsAppend(Entries(lines), Entry(field, Trim(value)));
  }

  /** Reading a written record gives each of its keys its value, trimmed, and no other key a value. */
  lemma {:induction false} RecordReadsBack(name: Naming, source: Source, keys: seq<Key>, k: Key)
    requires Spells(name) && SingleLine(name, source, keys) && keys != []
    ensures Get(Fields(RecordText(name, source, keys)), name(k)) ==
            if k in keys then Some(Trim(ValueOf(name, source, k))) else None
  {
    hide ValueOf, Assignment, EntryOf, Trim, Split, Join, LastWins;
    var lines := RecordLines(name, source, keys);
    RecordLinesAre(name, source, keys);
    SplitEnded(lines);
    EntriesConcat(lines, [""]);
    EmptyHasNoEntry();
    assert Entries(lines) + [] == Entries(lines);
    LinesReadBack(name, source, keys, k);
  }

  lemma EmptyHasNoEntry()
    ensures Entries([""]) == []
  {
    assert [""][1..] == [];
  }

  // --- the review ----------------------------------------------------------------------------------------------------------

  /** The tests on the source commit and the digests. */
  method ReviewImages(name: Naming, fields: map<string, string>) returns (issues: seq<Issue>)
    ensures forall issue :: issue in issues <==>
              (issue.BadSourceCommit? || issue.BadSignerDigest? || issue.BadControlPlaneDigest?) && Raised(name, fields, issue)
  {
    hide IsGitSha, IsImageDigest, TextOf;
    issues := [];
    var sourceCommit := TextOf(fields, name(SourceCommit));
    if sourceCommit != "" && !IsGitSha(sourceCommit) { issues := issues + [BadSourceCommit]; }
    var signerDigest := TextOf(fields, name(SignerImageDigest));
    if signerDigest != "" && !IsImageDigest(signerDigest) { issues := issues + [BadSignerDigest]; }
    var planeDigest := TextOf(fields, name(ControlPlaneImageDigest));
    if planeDigest != "" && !IsImageDigest(planeDigest) { issues := issues + [BadControlPlaneDigest]; }
  }

  /** The tests on the network and the funding wallet. */
  method ReviewNetwork(name: Naming, fields: map<string, string>) returns (issues: seq<Issue>)
    ensures forall issue :: issue in issues <==>
              (issue.BadPolicyNetwork? || issue.OtherNetwork? || issue.OtherFundingWallet?) && Raised(name, fields, issue)
  {
    hide IsSolanaNetwork, TextOf;
    issues := [];
    var policyNetwork, network := TextOf(fields, name(SignerPolicyNetwork)), TextOf(fields, name(Network));
    if policyNetwork != "" && !IsSolanaNetwork(policyNetwork) { issues := issues + [BadPolicyNetwork]; }
    if policyNetwork != "" && network != "" && policyNetwork != network { issues := issues + [OtherNetwork]; }
    var policyWallet, wallet := TextOf(fields, name(SignerPolicyFundingWallet)), TextOf(fields, name(FundingWallet));
    if policyWallet != "" && wallet != "" && policyWallet != wallet { issues := issues + [OtherFundingWallet]; }
  }

  /** The tests on the token programs and the maximum amount. */
  method ReviewLimits(name: Naming, fields: map<string, string>) returns (issues: seq<Issue>)
    ensures forall issue :: issue in issues <==> (issue.NoTokenProgram? || issue.BadMaxAmount?) && Raised(name, fields, issue)
  {
    hide IsPositiveAmount, EveryItemBlank, TextOf;
    issues := [];
    var programs := TextOf(fields, name(SignerPolicyAllowedTokenProgramIds));
    if programs != "" && EveryItemBlank(programs) { issues := issues + [NoTokenProgram]; }
    var amount := TextOf(fields, name(SignerPolicyMaxTransactionAmountAtomic));
    if amount != "" && !IsPositiveAmount(amount) { issues := issues + [BadMaxAmount]; }
  }

  /** The tests of `validatePhase6CustodyEvidence` on commit, policy and digests. */
  method ReviewBundle(name: Naming, evidenceText: string) returns (issues: seq<Issue>)
    ensures forall issue :: issue in issues <==> Raised(name, Fields(evidenceText), issue)
    ensures forall issue :: issue in issues <==> Wrong(name, Fields(evidenceText), issue)
  {
    hide LastWins, ParseRecordFields, Raised, Wrong;
    var fields := ParseProofRecord(evidenceText);
    var images := ReviewImages(name, fields);
    var network := ReviewNetwork(name, fields);
    var limits := ReviewLimits(name, fields);
    issues := images + network + limits;
    forall issue ensures Raised(name, fields, issue) <==> Wrong(name, fields, issue) { RaisedIff(name, fields, issue); }
  }

  // --- commas and white space -------------------------------------------------------------------------------------------------

  /** Nothing but commas and white space. */
  predicate OnlyCommas(s: string) {
    forall i | 0 <= i < |s| :: s[i] == ',' || IsSpace(s[i])
  }

  lemma {:induction false} EveryItemBlankIff(text: string)
    ensures EveryItemBlank(text) <==> OnlyCommas(text)
    decreases |text|
  {
    hide IsSpace;
    var k := |UpToComma(text)|;
    assert forall i | 0 <= i < k :: UpToComma(text)[i] == text[i] && text[i] != ',';
    if k < |text| {
      EveryItemBlankIff(text[k + 1..]);
      assert text == text[..k] + [','] + text[k + 1..];
      OnlyCommasConcat(text[..k] + [','], text[k + 1..]);
      OnlyCommasConcat(text[..k], [',']);
    }
  }

  lemma OnlyCommasConcat(a: string, b: string)
    ensures OnlyCommas(a + b) <==> OnlyCommas(a) && OnlyCommas(b)
  {
    hide IsSpace;
    if OnlyCommas(a + b) {
      assert forall i | 0 <= i < |a| :: a[i] == (a + b)[i];
      assert forall i | 0 <= i < |b| :: b[i] == (a + b)[|a| + i];
    }
  }

  /** Trimming only takes white space away. */
  lemma {:induction false} TrimParts(s: string) returns (before: string, after: string)
    ensures s == before + Trim(s) + after && AllSpace(before) && AllSpace(after)
  {
    TrimStartIs(s);
    var a := TrimStart(s);
    TrimEndIs(a);
    before, after := s[..|s| - |a|], a[|TrimEnd(a)|..];
  }

  lemma OnlyCommasTrim(s: string)
    ensures OnlyCommas(Trim(s)) <==> OnlyCommas(s)
  {
    hide Trim;
    var before, after := TrimParts(s);
    OnlyCommasConcat(before + Trim(s), after);
    OnlyCommasConcat(before, Trim(s));
  }

  lemma TrimKeepsLine(s: string)
    requires NoTerminator(s)
    ensures NoTerminator(Trim(s))
  {
    hide Trim, IsTerminator;
    var before, after := TrimParts(s);
    var t := before + Trim(s);
    assert forall i | 0 <= i < |Trim(s)| :: Trim(s)[i] == t[|before| + i] && t[|before| + i] == s[|before| + i];
  }

  lemma TrimTwice(s: string)
    ensures Trim(Trim(s)) == Trim(s)
  {
    hide Trim, IsSpace;
    TrimIsTrimmed(s);
    TrimOfTrimmed(Trim(s));
  }

  predicate AllOnlyCommas(items: seq<string>) {
    forall i | 0 <= i < |items| :: OnlyCommas(items[i])
  }

  lemma AllConcat(item: string, rest: seq<string>)
    ensures AllOnlyCommas([item] + rest) <==> OnlyCommas(item) && AllOnlyCommas(rest)
  {
    hide OnlyCommas;
    var all := [item] + rest;
    if AllOnlyCommas(all) {
      assert all[0] == item && forall i | 0 <= i < |rest| :: rest[i] == all[i + 1];
    }
  }

  lemma {:induction false} OnlyCommasJoin(items: seq<string>)
    ensures OnlyCommas(JoinCommas(items)) <==> AllOnlyCommas(items)
    decreases |items|
  {
    hide OnlyCommas;
    if items == [] {
      assert OnlyCommas("") by { OnlyCommasOf(""); }
    } else if |items| > 1 {
      OnlyCommasJoin(items[1..]);
      OnlyCommasConcat(items[0] + ",", JoinCommas(items[1..]));
      OnlyCommasConcat(items[0], ",");
      OnlyCommasOf(",");
      assert items == [items[0]] + items[1..];
    }
  }

  lemma OnlyCommasOf(s: string)
    requires s == "" || s == ","
    ensures OnlyCommas(s)
  {
  }

  lemma {:induction false} OnlyCommasItems(items: seq<string>)
    ensures AllOnlyCommas(TrimmedItems(items)) <==> AllOnlyCommas(items)
    decreases |items|
  {
    hide OnlyCommas, Trim;
    if items != [] {
      OnlyCommasItems(items[1..]);
      OnlyCommasTrim(items[0]);
      assert items == [items[0]] + items[1..];
      AllConcat(items[0], items[1..]);
      var rest := TrimmedItems(items[1..]);
      if Trim(items[0]) == "" {
        OnlyCommasOf("");
        assert TrimmedItems(items) == rest;
      } else {
        AllConcat(Trim(items[0]), rest);
        assert TrimmedItems(items) == [Trim(items[0])] + rest;
      }
    }
  }

  lemma {:induction false} TrimmedItemsAre(items: seq<string>)
    ensures forall i | 0 <= i < |TrimmedItems(items)| :: TrimmedItems(items)[i] != "" && Trimmed(TrimmedItems(items)[i])
    decreases |items|
  {
    hide Trim, Trimmed;
    if items != [] {
      TrimmedItemsAre(items[1..]);
      TrimIsTrimmed(items[0]);
    }
  }

  lemma JoinIsNotBlank(items: seq<string>)
    requires items != [] && items[0] != "" && Trimmed(items[0])
    ensures Trim(JoinCommas(items)) != ""
  {
    hide Trim, IsSpace;
    TrimIsTrimmed(JoinCommas(items));
    assert JoinCommas(items)[0] == items[0][0];
  }

  // --- the pipeline --------------------------------------------------------------------------------------------------------------

  lemma ImageKeysAre()
    ensures ReviewDate in IMAGE_KEYS && Reviewers in IMAGE_KEYS && SourceCommit in IMAGE_KEYS && SignerImageDigest in IMAGE_KEYS
    ensures ControlPlaneImageDigest in IMAGE_KEYS && SignerImageBuildCommand in IMAGE_KEYS && DependencyAuditOutput in IMAGE_KEYS
  {
    var keys := IMAGE_KEYS;
    assert keys[1] == ReviewDate && keys[2] == Reviewers && keys[3] == SourceCommit && keys[4] == SignerImageDigest;
    assert keys[5] == ControlPlaneImageDigest && keys[6] == SignerImageBuildCommand && keys[9] == DependencyAuditOutput;
  }

  lemma PolicyKeysAre()
    ensures Network in POLICY_KEYS && FundingWallet in POLICY_KEYS && SourceTokenAccount in POLICY_KEYS && Mint in POLICY_KEYS
    ensures AllowedTokenProgramIds in POLICY_KEYS && MaxTransactionAmountAtomic in POLICY_KEYS
  {
    var keys := POLICY_KEYS;
    assert keys[3] == Network && keys[4] == FundingWallet && keys[5] == SourceTokenAccount && keys[6] == Mint;
    assert keys[7] == AllowedTokenProgramIds && keys[8] == MaxTransactionAmountAtomic;
  }

  lemma BundleKeysAre()
    ensures SourceCommit in BUNDLE_KEYS && SignerImageDigest in BUNDLE_KEYS && ControlPlaneImageDigest in BUNDLE_KEYS
    ensures Network in BUNDLE_KEYS && FundingWallet in BUNDLE_KEYS
  {
    var keys := BUNDLE_KEYS;
    assert keys[3] == SourceCommit && keys[4] == SignerImageDigest && keys[7] == ControlPlaneImageDigest;
    assert keys[9] == FundingWallet && keys[10] == Network;
  }

  lemma BundlePolicyKeysAre()
    ensures SignerPolicyNetwork in BUNDLE_KEYS && SignerPolicyFundingWallet in BUNDLE_KEYS
    ensures SignerPolicyAllowedTokenProgramIds in BUNDLE_KEYS && SignerPolicyMaxTransactionAmountAtomic in BUNDLE_KEYS
  {
    var keys := BUNDLE_KEYS;
    assert keys[13] == SignerPolicyNetwork && keys[14] == SignerPolicyFundingWallet;
    assert keys[17] == SignerPolicyAllowedTokenProgramIds && keys[18] == SignerPolicyMaxTransactionAmountAtomic;
  }

  predicate InputsOk(name: Naming, i: ImageInput, p: PolicyInput, attachments: map<Key, string>) {
    && Spells(name) && ImageInputOk(i) && PolicyInputOk(p)
    && SingleLine(name, FromImage(i), IMAGE_KEYS) && SingleLine(name, FromPolicy(p), POLICY_KEYS)
    && forall k | k in attachments :: NoTerminator(attachments[k])
  }

  /** The assembly of two written records without overrides. */
  function Assembled(name: Naming, i: ImageInput, p: PolicyInput, attachments: map<Key, string>, current: Option<string>): Assembly {
    Assembly(Fields(RecordText(name, FromImage(i), IMAGE_KEYS)), Fields(RecordText(name, FromPolicy(p), POLICY_KEYS)),
             attachments, current)
  }

  /** The text of `assemblePhase6CustodyEvidenceBundle`. */
  function BundleText(name: Naming, i: ImageInput, p: PolicyInput, attachments: map<Key, string>, current: Option<string>): string {
    RecordText(name, FromAssembly(Assembled(name, i, p, attachments, current)), BUNDLE_KEYS)
  }

  lemma ImageReads(name: Naming, i: ImageInput, p: PolicyInput, attachments: map<Key, string>, k: Key)
    requires InputsOk(name, i, p, attachments) && k in IMAGE_KEYS
    ensures Get(Fields(RecordText(name, FromImage(i), IMAGE_KEYS)), name(k)) == Some(Trim(ImageValue(i, k)))
    ensures NoTerminator(Trim(ImageValue(i, k)))
  {
    hide ImageInputOk, PolicyInputOk, ImageValue, Trim, Fields, RecordText, NoTerminator;
    RecordReadsBack(name, FromImage(i), IMAGE_KEYS, k);
    assert NoTerminator(ValueOf(name, FromImage(i), k));
    TrimKeepsLine(ImageValue(i, k));
  }

  lemma PolicyReads(name: Naming, i: ImageInput, p: PolicyInput, attachments: map<Key, string>, k: Key)
    requires InputsOk(name, i, p, attachments) && k in POLICY_KEYS
    ensures Get(Fields(RecordText(name, FromPolicy(p), POLICY_KEYS)), name(k)) == Some(Trim(PolicyValue(p, k)))
    ensures NoTerminator(Trim(PolicyValue(p, k)))
  {
    hide ImageInputOk, PolicyInputOk, PolicyValue, Trim, Fields, RecordText, NoTerminator;
    RecordReadsBack(name, FromPolicy(p), POLICY_KEYS, k);
    assert NoTerminator(ValueOf(name, FromPolicy(p), k));
    TrimKeepsLine(PolicyValue(p, k));
  }

  lemma OriginIsKey(k: Key)
    ensures var r := Origin(k); r.Some? ==> if r.value.0 then r.value.1 in IMAGE_KEYS else r.value.1 in POLICY_KEYS
  {
    hide IMAGE_KEYS, POLICY_KEYS;
    ImageKeysAre();
    PolicyKeysAre();
  }

  /** The text that a bundle key gets from the inputs. */
  function FilledWith(i: ImageInput, p: PolicyInput, k: Key): string
    requires Origin(k).Some?
  {
    if Origin(k).value.0 then Trim(ImageValue(i, Origin(k).value.1)) else Trim(PolicyValue(p, Origin(k).value.1))
  }

  lemma ImageIsFilled(name: Naming, i: ImageInput, p: PolicyInput, attachments: map<Key, string>, current: Option<string>, k: Key)
    requires InputsOk(name, i, p, attachments) && Origin(k).Some? && Origin(k).value.0
    ensures Derived(name, Assembled(name, i, p, attachments, current), k) == Some(FilledWith(i, p, k)) && NoTerminator(FilledWith(i, p, k))
  {
    hide InputsOk, ImageValue, PolicyValue, Trim, Fields, RecordText, NoTerminator, IMAGE_KEYS, POLICY_KEYS, Origin;
    OriginIsKey(k);
    ImageReads(name, i, p, attachments, Origin(k).value.1);
  }

  lemma PolicyIsFilled(name: Naming, i: ImageInput, p: PolicyInput, attachments: map<Key, string>, current: Option<string>, k: Key)
    requires InputsOk(name, i, p, attachments) && Origin(k).Some? && !Origin(k).value.0
    ensures Derived(name, Assembled(name, i, p, attachments, current), k) == Some(FilledWith(i, p, k)) && NoTerminator(FilledWith(i, p, k))
  {
    hide InputsOk, ImageValue, PolicyValue, Trim, Fields, RecordText, NoTerminator, IMAGE_KEYS, POLICY_KEYS, Origin;
    OriginIsKey(k);
    PolicyReads(name, i, p, attachments, Origin(k).value.1);
  }

  lemma OtherIsAttached(name: Naming, i: ImageInput, p: PolicyInput, attachments: map<Key, string>, current: Option<string>, k: Key)
    requires InputsOk(name, i, p, attachments) && Origin(k).None?
    ensures var d := Derived(name, Assembled(name, i, p, attachments, current), k); d.Some? ==> NoTerminator(d.value)
  {
    hide InputsOk, Trim, NoTerminator, Assembled, Origin, Derived;
    OtherIsDerived(name, Assembled(name, i, p, attachments, current), k);
    AssembledAttachments(name, i, p, attachments, current);
    if k in attachments { AttachedIsLine(name, i, p, attachments, k); }
  }

  lemma OtherIsDerived(name: Naming, a: Assembly, k: Key)
    requires Origin(k).None?
    ensures var d := Derived(name, a, k); d.Some? ==> k in a.attachments && d.value == "attached: " + Trim(a.attachments[k])
  {
    hide Trim, Origin;
  }

  lemma AssembledAttachments(name: Naming, i: ImageInput, p: PolicyInput, attachments: map<Key, string>, current: Option<string>)
    ensures Assembled(name, i, p, attachments, current).attachments == attachments
  {
    hide Fields, RecordText;
  }

  lemma DerivedIsFilled(name: Naming, i: ImageInput, p: PolicyInput, attachments: map<Key, string>, current: Option<string>, k: Key)
    requires InputsOk(name, i, p, attachments)
    ensures var d := Derived(name, Assembled(name, i, p, attachments, current), k);
            if Origin(k).Some? then d == Some(FilledWith(i, p, k)) && NoTerminator(FilledWith(i, p, k))
            else d.Some? ==> NoTerminator(d.value)
  {
    hide InputsOk, Derived, Assembled, Origin, FilledWith, NoTerminator;
    if Origin(k).None? {
      OtherIsAttached(name, i, p, attachments, current, k);
    } else if Origin(k).value.0 {
      ImageIsFilled(name, i, p, attachments, current, k);
    } else {
      PolicyIsFilled(name, i, p, attachments, current, k);
    }
  }

  lemma AttachedIsLine(name: Naming, i: ImageInput, p: PolicyInput, attachments: map<Key, string>, k: Key)
    requires InputsOk(name, i, p, attachments) && k in attachments
    ensures NoTerminator("attached: " + Trim(attachments[k]))
  {
    hide ImageInputOk, PolicyInputOk, SingleLine, Trim, Spells;
    TrimKeepsLine(attachments[k]);
  }

  lemma BundleIsSingleLine(name: Naming, i: ImageInput, p: PolicyInput, attachments: map<Key, string>, current: Option<string>, k: Key)
    requires InputsOk(name, i, p, attachments)
    ensures NoTerminator(BundleValue(name, Assembled(name, i, p, attachments, current), k))
    ensures Origin(k).Some? ==> BundleValue(name, Assembled(name, i, p, attachments, current), k) == FilledWith(i, p, k)
  {
    hide ImageValue, PolicyValue, Trim, Derived, Assembled, PolicyInputOk, ImageInputOk, SingleLine, Spells;
    DerivedIsFilled(name, i, p, attachments, current, k);
    if k == SourceCommit {
      FilledCommit(i, p);
    }
  }

  lemma FilledCommit(i: ImageInput, p: PolicyInput)
    requires ImageInputOk(i)
    ensures Trim(FilledWith(i, p, SourceCommit)) != ""
  {
    hide Trim;
    TrimTwice(i.sourceCommit);
  }

  /** A filled bundle key reads back as the text it was filled with. */
  lemma BundleReads(name: Naming, i: ImageInput, p: PolicyInput, attachments: map<Key, string>, current: Option<string>, k: Key)
    requires InputsOk(name, i, p, attachments) && k in BUNDLE_KEYS && Origin(k).Some?
    ensures TextOf(Fields(BundleText(name, i, p, attachments, current)), name(k)) == FilledWith(i, p, k)
  {
    hide ImageValue, PolicyValue, Trim, Derived, Assembled, PolicyInputOk, ImageInputOk, Spells, BundleValue, Fields, RecordText, NoTerminator;
    var source := FromAssembly(Assembled(name, i, p, attachments, current));
    forall j | j in BUNDLE_KEYS ensures NoTerminator(ValueOf(name, source, j)) {
      BundleIsSingleLine(name, i, p, attachments, current, j);
    }
    BundleIsSingleLine(name, i, p, attachments, current, k);
    RecordReadsBack(name, source, BUNDLE_KEYS, k);
    var s := if Origin(k).value.0 then ImageValue(i, Origin(k).value.1) else PolicyValue(p, Origin(k).value.1);
    TrimTwice(s);
  }

  lemma ImageOrigins()
    ensures Origin(SourceCommit) == Some((true, SourceCommit)) && Origin(SignerImageDigest) == Some((true, SignerImageDigest))
    ensures Origin(ControlPlaneImageDigest) == Some((true, ControlPlaneImageDigest))
  {
  }

  lemma PolicyOrigins()
    ensures Origin(Network) == Some((false, Network)) && Origin(SignerPolicyNetwork) == Some((false, Network))
    ensures Origin(FundingWallet) == Some((false, FundingWallet)) && Origin(SignerPolicyFundingWallet) == Some((false, FundingWallet))
    ensures Origin(SignerPolicyMaxTransactionAmountAtomic) == Some((false, MaxTransactionAmountAtomic))
    ensures Origin(SignerPolicyAllowedTokenProgramIds) == Some((false, AllowedTokenProgramIds))
  {
  }

  lemma RecordTexts(i: ImageInput, p: PolicyInput)
    ensures Trim(ImageValue(i, SourceCommit)) == Trim(i.sourceCommit)
    ensures Trim(ImageValue(i, SignerImageDigest)) == Trim(i.signerImageDigest)
    ensures Trim(ImageValue(i, ControlPlaneImageDigest)) == Trim(i.controlPlaneImageDigest)
    ensures Trim(PolicyValue(p, Network)) == Trim(p.network)
    ensures Trim(PolicyValue(p, MaxTransactionAmountAtomic)) == Trim(p.maxTransactionAmountAtomic)
    ensures PolicyValue(p, AllowedTokenProgramIds) == JoinCommas(TrimmedItems(p.allowedTokenProgramIds))
  {
    hide Trim, JoinCommas, TrimmedItems;
    TrimTwice(i.sourceCommit);
    TrimTwice(i.signerImageDigest);
    TrimTwice(i.controlPlaneImageDigest);
    TrimTwice(p.network);
    TrimTwice(p.maxTransactionAmountAtomic);
  }

  lemma FilledTexts(i: ImageInput, p: PolicyInput)
    ensures forall k | k in {SourceCommit, SignerImageDigest, ControlPlaneImageDigest, Network, FundingWallet, SignerPolicyNetwork,
                             SignerPolicyFundingWallet, SignerPolicyAllowedTokenProgramIds,
                             SignerPolicyMaxTransactionAmountAtomic} :: Origin(k).Some?
    ensures FilledWith(i, p, SourceCommit) == Trim(i.sourceCommit)
    ensures FilledWith(i, p, SignerImageDigest) == Trim(i.signerImageDigest)
    ensures FilledWith(i, p, ControlPlaneImageDigest) == Trim(i.controlPlaneImageDigest)
    ensures FilledWith(i, p, Network) == FilledWith(i, p, SignerPolicyNetwork) == Trim(p.network)
    ensures FilledWith(i, p, FundingWallet) == FilledWith(i, p, SignerPolicyFundingWallet)
    ensures FilledWith(i, p, SignerPolicyMaxTransactionAmountAtomic) == Trim(p.maxTransactionAmountAtomic)
    ensures FilledWith(i, p, SignerPolicyAllowedTokenProgramIds) == Trim(JoinCommas(TrimmedItems(p.allowedTokenProgramIds)))
  {
    hide Trim, Origin, ImageValue, PolicyValue, JoinCommas, TrimmedItems;
    ImageOrigins();
    PolicyOrigins();
    RecordTexts(i, p);
  }

  lemma ProgramsAreBlankIff(p: PolicyInput)
    requires PolicyInputOk(p)
    ensures var programs := Trim(JoinCommas(TrimmedItems(p.allowedTokenProgramIds)));
            programs != "" && (EveryItemBlank(programs) <==> AllOnlyCommas(p.allowedTokenProgramIds))
  {
    hide Trim, OnlyCommas, EveryItemBlank, TrimmedItems;
    var items := TrimmedItems(p.allowedTokenProgramIds);
    TrimmedItemsAre(p.allowedTokenProgramIds);
    JoinIsNotBlank(items);
    EveryItemBlankIff(Trim(JoinCommas(items)));
    OnlyCommasTrim(JoinCommas(items));
    OnlyCommasJoin(items);
    OnlyCommasItems(p.allowedTokenProgramIds);
  }

  /** For all single-line inputs that the two creators accept, whatever the attachments and the commit of the
      checkout: the review of the assembled bundle raises no issue about the source commit, the digests, the
      policy network, the funding wallet or the maximum amount; and it misses a token program if and only if
      no item of the list has anything but commas and white space, which the creator lets through. */
  lemma PipelineIssues(name: Naming, i: ImageInput, p: PolicyInput, attachments: map<Key, string>, current: Option<string>, issue: Issue)
    requires InputsOk(name, i, p, attachments)
    ensures Raised(name, Fields(BundleText(name, i, p, attachments, current)), issue) <==>
            issue.NoTokenProgram? && AllOnlyCommas(p.allowedTokenProgramIds)
  {
    hide ImageValue, PolicyValue, Trim, Derived, Assembled, Spells, BundleValue, Fields, BundleText, NoTerminator, FilledWith, TextOf,
         EveryItemBlank, IsGitSha, IsImageDigest, IsSolanaNetwork, IsPositiveAmount, AllOnlyCommas, SingleLine;
    BundleKeysAre();
    BundlePolicyKeysAre();
    FilledTexts(i, p);
    BundleReads(name, i, p, attachments, current, SourceCommit);
    BundleReads(name, i, p, attachments, current, SignerImageDigest);
    BundleReads(name, i, p, attachments, current, ControlPlaneImageDigest);
    BundleReads(name, i, p, attachments, current, Network);
    BundleReads(name, i, p, attachments, current, SignerPolicyNetwork);
    BundleReads(name, i, p, attachments, current, FundingWallet);
    BundleReads(name, i, p, attachments, current, SignerPolicyFundingWallet);
    BundleReads(name, i, p, attachments, current, SignerPolicyAllowedTokenProgramIds);
    BundleReads(name, i, p, attachments, current, SignerPolicyMaxTransactionAmountAtomic);
    ProgramsAreBlankIff(p);
  }

  /** What a bundle shows of the two inputs and the attachments. */
  function Shown(i: ImageInput, p: PolicyInput, attachments: map<Key, string>, k: Key): string {
    match k
    case ReviewDate => Trim(i.reviewDate)
    case Reviewers => Trim(i.reviewers)
    case SourceCommit => Trim(i.sourceCommit)
    case SignerImageDigest => Trim(i.signerImageDigest)
    case SignerImageBuildCommand => Trim(i.signerImageBuildCommand)
    case SignerImageDependencyAuditOutput => Trim(i.dependencyAuditOutput)
    case ControlPlaneImageDigest => Trim(i.controlPlaneImageDigest)
    case Network => Trim(p.network)
    case FundingWallet => Trim(p.fundingWallet)
    case SignerPolicyNetwork => Trim(p.network)
    case SignerPolicyFundingWallet => Trim(p.fundingWallet)
    case SignerPolicySourceTokenAccount => Trim(p.sourceTokenAccount)
    case SignerPolicyMint => Trim(p.mint)
    case SignerPolicyAllowedTokenProgramIds => Trim(JoinCommas(TrimmedItems(p.allowedTokenProgramIds)))
    case SignerPolicyMaxTransactionAmountAtomic => Trim(p.maxTransactionAmountAtomic)
    case _ =>
      if k in attachments && Trim(attachments[k]) != "" then "attached: " + Trim(attachments[k])
      else if k == ApprovalDecision then "no-go"
      else ""
  }

  lemma ImageIsShown(i: ImageInput, p: PolicyInput, attachments: map<Key, string>, k: Key)
    requires Origin(k).Some? && Origin(k).value.0
    ensures Trim(ImageValue(i, Origin(k).value.1)) == Shown(i, p, attachments, k)
  {
    hide Trim, JoinCommas, TrimmedItems;
    TrimTwice(i.reviewDate);
    TrimTwice(i.reviewers);
    TrimTwice(i.dependencyAuditOutput);
    RecordTexts(i, p);
  }

  lemma PolicyIsShown(i: ImageInput, p: PolicyInput, attachments: map<Key, string>, k: Key)
    requires Origin(k).Some? && !Origin(k).value.0
    ensures Trim(PolicyValue(p, Origin(k).value.1)) == Shown(i, p, attachments, k)
  {
    hide Trim, JoinCommas, TrimmedItems;
    TrimTwice(p.fundingWallet);
    TrimTwice(p.sourceTokenAccount);
    TrimTwice(p.mint);
    RecordTexts(i, p);
  }

  lemma ShownIsFilled(i: ImageInput, p: PolicyInput, attachments: map<Key, string>, k: Key)
    requires Origin(k).Some?
    ensures FilledWith(i, p, k) == Shown(i, p, attachments, k)
  {
    hide Trim, Origin, Shown, ImageValue, PolicyValue;
    if Origin(k).value.0 { ImageIsShown(i, p, attachments, k); } else { PolicyIsShown(i, p, attachments, k); }
  }

  lemma TrimAttached(s: string)
    requires Trim(s) != ""
    ensures Trim("attached: " + Trim(s)) == "attached: " + Trim(s)
  {
    hide Trim, IsSpace;
    TrimIsTrimmed(s);
    var t := "attached: " + Trim(s);
    assert !IsSpace('a') by { NotSpace(); }
    assert t[|t| - 1] == Trim(s)[|Trim(s)| - 1];
    TrimOfTrimmed(t);
  }

  lemma NotSpace()
    ensures !IsSpace('a') && Trim("no-go") == "no-go" && Trim("") == ""
  {
    TrimOfTrimmed("no-go");
  }

  lemma OtherValue(name: Naming, a: Assembly, k: Key)
    requires Origin(k).None?
    ensures BundleValue(name, a, k) ==
              if k in a.attachments && Trim(a.attachments[k]) != "" then "attached: " + Trim(a.attachments[k])
              else if k == ApprovalDecision then "no-go"
              else ""
  {
    hide Trim;
  }

  /** For all single-line inputs that the two creators accept, the assembled bundle reads, key by key, as the input
      that belongs there, through two records and their parsing: nothing is lost, swapped or taken from
      anywhere else, and without an attachment the decision is no-go. */
  lemma PipelineCarries(name: Naming, i: ImageInput, p: PolicyInput, attachments: map<Key, string>, current: Option<string>, k: Key)
    requires InputsOk(name, i, p, attachments) && k in BUNDLE_KEYS
    ensures TextOf(Fields(BundleText(name, i, p, attachments, current)), name(k)) == Shown(i, p, attachments, k)
  {
    hide Trim, Assembled, PolicyInputOk, ImageInputOk, Spells, BundleValue, Fields, RecordText, NoTerminator, FilledWith, BUNDLE_KEYS,
         Origin, Shown;
    if Origin(k).Some? {
      BundleReads(name, i, p, attachments, current, k);
      ShownIsFilled(i, p, attachments, k);
    } else {
      var source := FromAssembly(Assembled(name, i, p, attachments, current));
      forall j | j in BUNDLE_KEYS ensures NoTerminator(ValueOf(name, source, j)) {
        BundleIsSingleLine(name, i, p, attachments, current, j);
      }
      RecordReadsBack(name, source, BUNDLE_KEYS, k);
      OtherValue(name, source.assembly, k);
      AssembledAttachments(name, i, p, attachments, current);
      OtherIsShown(i, p, attachments, k);
      NotSpace();
      if k in attachments && Trim(attachments[k]) != "" { TrimAttached(attachments[k]); }
    }
  }

  lemma OtherIsShown(i: ImageInput, p: PolicyInput, attachments: map<Key, string>, k: Key)
    requires Origin(k).None?
    ensures Shown(i, p, attachments, k) ==
              if k in attachments && Trim(attachments[k]) != "" then "attached: " + Trim(attachments[k])
              else if k == ApprovalDecision then "no-go"
              else ""
  {
    hide Trim;
  }

  const DIGEST: string := DIGEST_PREFIX + seq(64, i => 'a')

  const COMMIT: string := seq(7, i => 'a')

  const EXAMPLE_IMAGE :=
    ImageInput("x", "x", "x", COMMIT, DIGEST, DIGEST, "x", "x", "x", "x", "x", "x", "x", "x")

  /** A policy whose only token program is a comma. */
  const COMMA_POLICY :=
    PolicyInput("x", "x", "x", NETWORK_PREFIX + "x", "x", "x", "x", [","], "1", "1", "x", true, "x", "x", "x")

  /** Texts without white space and line terminators. */
  predicate Plain(s: string) {
    Trimmed(s) && NoTerminator(s)
  }

  lemma PlainTexts()
    ensures Plain("x") && Plain("1") && Plain(",") && Plain(COMMIT) && Plain(DIGEST) && Plain(NETWORK_PREFIX + "x")
    ensures IsGitSha(COMMIT) && IsImageDigest(DIGEST) && IsSolanaNetwork(NETWORK_PREFIX + "x") && IsPositiveAmount("1")
  {
  }

  lemma CommaItems()
    ensures TrimmedItems([","]) == [","] && JoinCommas([","]) == "," && AllOnlyCommas([","])
  {
    assert Trimmed(",") && [","][1..] == [];
    TrimOfTrimmed(",");
  }

  lemma PlainIsTrimmed(s: string)
    requires Plain(s)
    ensures Trim(s) == s
  {
    TrimOfTrimmed(s);
  }

  lemma ExampleImage(name: Naming)
    ensures ImageInputOk(EXAMPLE_IMAGE) && SingleLine(name, FromImage(EXAMPLE_IMAGE), IMAGE_KEYS)
  {
    hide Trim, IsGitSha, IsImageDigest, Trimmed, NoTerminator, COMMIT, DIGEST, IMAGE_KEYS;
    PlainTexts();
    PlainIsTrimmed("x");
    PlainIsTrimmed(COMMIT);
    PlainIsTrimmed(DIGEST);
  }

  lemma ExamplePolicy(name: Naming)
    ensures PolicyInputOk(COMMA_POLICY) && SingleLine(name, FromPolicy(COMMA_POLICY), POLICY_KEYS)
  {
    hide Trim, IsSolanaNetwork, IsPositiveAmount, Trimmed, TrimmedItems, JoinCommas, POLICY_KEYS, NETWORK_PREFIX, IsTerminator;
    PlainTexts();
    CommaItems();
    PlainIsTrimmed("x");
    PlainIsTrimmed("1");
    PlainIsTrimmed(NETWORK_PREFIX + "x");
    TrueIsLine();
  }

  lemma TrueIsLine()
    ensures NoTerminator("true")
  {
  }

  lemma ExampleIsOk(name: Naming)
    requires Spells(name)
    ensures InputsOk(name, EXAMPLE_IMAGE, COMMA_POLICY, map[])
  {
    hide Spells, ImageInputOk, PolicyInputOk, SingleLine;
    ExampleImage(name);
    ExamplePolicy(name);
  }

  /** The creator accepts a policy whose only token program is a comma, and the review of the assembled bundle
      misses a token program in it. */
  lemma CommaIsATokenProgram(name: Naming, current: Option<string>)
    requires Spells(name)
    ensures InputsOk(name, EXAMPLE_IMAGE, COMMA_POLICY, map[])
    ensures Raised(name, Fields(BundleText(name, EXAMPLE_IMAGE, COMMA_POLICY, map[], current)), NoTokenProgram)
  {
    hide InputsOk, Spells, Raised, Fields, BundleText, TrimmedItems, AllOnlyCommas, JoinCommas;
    ExampleIsOk(name);
    CommaItems();
    PipelineIssues(name, EXAMPLE_IMAGE, COMMA_POLICY, map[], current, NoTokenProgram);
  }
}
