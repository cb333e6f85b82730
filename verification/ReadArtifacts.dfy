/** The six read artifacts: what the collector accepts before it writes anything, and what the status checker
    accepts of what was written.  The two share their tests but not how they read texts and summaries. */
module ReadArtifacts {
  import opened Text
  import opened Json
  import opened JsonLines
  import opened JsonRead
  import opened JsonReformat
  import Recorder

  datatype Side = Collector | Checker

  datatype Artifact =
    | AgentDiscovery | ReferrerBalance | DashboardSummary | WebhookDelivery | PayoutObligation | FundingBalance

  // --- the two readers that differ ----------------------------------------------------------------------------------

  /** `readNonEmptyString`: the collector also refuses texts of white space. */
  predicate HasText(side: Side, v: Option<Json>) {
    && v.Some? && v.value.Str?
    && (if side.Collector? then Trim(v.value.s) != "" else v.value.s != "")
  }

  lemma TextOnBothSides(v: Option<Json>)
    ensures HasText(Collector, v) ==> HasText(Checker, v)
  {
  }

  /** `readMerchantObligationSummary`: the collector takes the artifact itself when `summary` is no record,
      the checker only when it is absent or null. */
  function SummaryOf(side: Side, v: Option<Json>): Option<Json> {
    if !IsRecord(v) then None
    else
      var summary := At(v, "summary");
      if IsRecord(summary) then summary
      else if side.Collector? || summary in {None, Some(Null)} then v
      else None
  }

  // --- what is accepted ----------------------------------------------------------------------------------------------

  predicate RouteOk(side: Side, route: Option<Json>) {
    && IsRecord(route)
    && HasText(side, At(route, "campaignId")) && HasText(side, At(route, "referrerWallet")) && HasText(side, At(route, "payoutWallet"))
    && (HasText(side, At(route, "id")) || HasText(side, At(route, "routeId")))
  }

  predicate DiscoveryOk(side: Side, v: Option<Json>) {
    var routes := Elements(At(v, "routes"));
    && (forall i | 0 <= i < |routes| :: RouteOk(side, Some(routes[i])))
    && exists i | 0 <= i < |routes| :: At(Some(routes[i]), "status") == Some(Str("active"))
  }

  predicate EventOk(side: Side, event: Option<Json>) {
    IsRecord(event) && HasText(side, At(event, "eventType")) && HasText(side, At(event, "status"))
  }

  predicate DeliveryOk(side: Side, v: Option<Json>) {
    var events := Elements(At(v, "events"));
    && (forall i | 0 <= i < |events| :: EventOk(side, Some(events[i])))
    && exists i | 0 <= i < |events| :: At(Some(events[i]), "status") == Some(Str("delivered"))
  }

  predicate AllAmounts(record: Option<Json>, keys: seq<string>) {
    forall key | key in keys :: AtomicAt(At(record, key)).Some?
  }

  predicate SomePositive(record: Option<Json>, keys: seq<string>) {
    exists key | key in keys :: PositiveAt(At(record, key)).Some?
  }

  const EARNING_KEYS: seq<string> := ["totalEarnedAmountAtomic"]
  const BALANCE_KEYS: seq<string> :=
    ["pendingAmountAtomic", "availableAmountAtomic", "heldAmountAtomic", "inFlightAmountAtomic", "paidAmountAtomic",
     "totalEarnedAmountAtomic"]
  const OBLIGATION_KEYS: seq<string> := ["outstandingAmountAtomic", "totalAccruedAmountAtomic"]
  const PAYOUT_KEYS: seq<string> :=
    ["outstandingAmountAtomic", "totalAccruedAmountAtomic", "pendingAmountAtomic", "availableAmountAtomic",
     "heldAmountAtomic", "inFlightAmountAtomic", "paidAmountAtomic"]

  predicate BalanceOk(side: Side, v: Option<Json>) {
    var summary := At(v, "summary");
    var assets := Elements(At(summary, "assets"));
    && HasText(side, At(summary, "referrerWallet"))
    && (forall i | 0 <= i < |assets| ::
          IsRecord(Some(assets[i])) && HasText(side, At(Some(assets[i]), "asset")) && AllAmounts(Some(assets[i]), BALANCE_KEYS))
    && exists i | 0 <= i < |assets| :: SomePositive(Some(assets[i]), EARNING_KEYS)
  }

  predicate DashboardOk(v: Option<Json>) {
    var summary := At(v, "summary");
    var campaigns, routes := At(summary, "campaigns"), At(summary, "routes");
    && At(summary, "schema") == Some(Str(DashboardSchema())) && IsRecord(At(summary, "merchant"))
    && Count(At(campaigns, "total")).Some? && Count(At(campaigns, "total")).value > 0
    && Count(At(routes, "total")).Some? && Count(At(routes, "total")).value > 0
    && Elements(At(campaigns, "activeCampaignIds")) != [] && Elements(At(routes, "activeRouteIds")) != []
  }

  function DashboardSchema(): string {
    "split402.merchant_dashboard_summary.v1"
  }

  function ObligationSchema(): string {
    "split402.merchant_obligation_summary.v1"
  }

  predicate PayoutOk(summary: Option<Json>) {
    var assets := Elements(At(summary, "assets"));
    && At(summary, "schema") == Some(Str(ObligationSchema()))
    && (forall i | 0 <= i < |assets| :: IsRecord(Some(assets[i])) && AllAmounts(Some(assets[i]), PAYOUT_KEYS))
    && exists i | 0 <= i < |assets| :: SomePositive(Some(assets[i]), OBLIGATION_KEYS)
  }

  /** A funded asset is covered without a deficit, or has a deficit. */
  predicate FundingAssetOk(asset: Option<Json>) {
    var deficit := AtomicAt(At(asset, "fundingDeficitAtomic"));
    && At(asset, "fundingStatus") in {Some(Str("covered")), Some(Str("deficit"))}
    && AtomicAt(At(asset, "fundingAmountAtomic")).Some? && deficit.Some?
    && (At(asset, "fundingStatus") == Some(Str("covered")) <==> deficit.value == 0)
  }

  predicate FundingOk(summary: Option<Json>) {
    var assets := Elements(At(summary, "assets"));
    && At(summary, "schema") == Some(Str(ObligationSchema()))
    && assets != []
    && forall i | 0 <= i < |assets| :: FundingAssetOk(Some(assets[i]))
  }

  /** Exactly the artifacts that a side has nothing against. */
  predicate ArtifactOk(side: Side, artifact: Artifact, v: Json) {
    match artifact
    case AgentDiscovery => DiscoveryOk(side, Some(v))
    case ReferrerBalance => BalanceOk(side, Some(v))
    case DashboardSummary => DashboardOk(Some(v))
    case WebhookDelivery => DeliveryOk(side, Some(v))
    case PayoutObligation => PayoutOk(SummaryOf(side, Some(v)))
    case FundingBalance => FundingOk(SummaryOf(side, Some(v)))
  }

  // --- the validators -------------------------------------------------------------------------------------------------

  datatype Problem = Missing(key: string) | Invalid(key: string) | BadAt(index: nat, key: string) | Lacks(what: string)

  lemma NoKey(v: Option<Json>, key: string)
    requires !IsRecord(v)
    ensures At(v, key).None?
  {
  }

  /** `validateAgentDiscoveryArtifact`. */
  method ValidateDiscovery(side: Side, artifact: Option<Json>) returns (blockers: seq<Problem>)
    ensures blockers == [] <==> DiscoveryOk(side, artifact)
  {
    hide At, HasText;
    var routes := Elements(At(artifact, "routes"));
    if routes == [] {
      return [Missing("routes")];
    }
    var hasActiveRoute := false;
    blockers := [];
    for i := 0 to |routes|
      invariant blockers == [] <==> forall j | 0 <= j < i :: RouteOk(side, Some(routes[j]))
      invariant hasActiveRoute <==> exists j | 0 <= j < i :: IsRecord(Some(routes[j])) && At(Some(routes[j]), "status") == Some(Str("active"))
    {
      var route := Some(routes[i]);
      if !IsRecord(route) {
        blockers := blockers + [BadAt(i, "route")];
      } else {
        if At(route, "status") == Some(Str("active")) { hasActiveRoute := true; }
        if !HasText(side, At(route, "campaignId")) { blockers := blockers + [BadAt(i, "campaignId")]; }
        if !HasText(side, At(route, "referrerWallet")) { blockers := blockers + [BadAt(i, "referrerWallet")]; }
        if !HasText(side, At(route, "payoutWallet")) { blockers := blockers + [BadAt(i, "payoutWallet")]; }
        if !HasText(side, At(route, "id")) && !HasText(side, At(route, "routeId")) { blockers := blockers + [BadAt(i, "id")]; }
      }
    }
    if !hasActiveRoute { blockers := blockers + [Lacks("active")]; }
  }

  /** `validateWebhookDeliveryArtifact`. */
  method ValidateDelivery(side: Side, artifact: Option<Json>) returns (blockers: seq<Problem>)
    ensures blockers == [] <==> DeliveryOk(side, artifact)
  {
    hide At, HasText;
    var events := Elements(At(artifact, "events"));
    if events == [] {
      return [Missing("events")];
    }
    var hasDeliveredEvent := false;
    blockers := [];
    for i := 0 to |events|
      invariant blockers == [] <==> forall j | 0 <= j < i :: EventOk(side, Some(events[j]))
      invariant hasDeliveredEvent <==> exists j | 0 <= j < i :: IsRecord(Some(events[j])) && At(Some(events[j]), "status") == Some(Str("delivered"))
    {
      var event := Some(events[i]);
      if !IsRecord(event) {
        blockers := blockers + [BadAt(i, "event")];
      } else {
        if At(event, "status") == Some(Str("delivered")) { hasDeliveredEvent := true; }
        if !HasText(side, At(event, "eventType")) { blockers := blockers + [BadAt(i, "eventType")]; }
        if !HasText(side, At(event, "status")) { blockers := blockers + [BadAt(i, "status")]; }
      }
    }
    if !hasDeliveredEvent { blockers := blockers + [Lacks("delivered")]; }
  }

  /** The loop over the amounts of an asset; positive counted amounts are noted. */
  method CheckAmounts(index: nat, record: Option<Json>, keys: seq<string>, counted: seq<string>)
    returns (added: seq<Problem>, positive: bool)
    requires forall key | key in counted :: key in keys
    ensures added == [] <==> AllAmounts(record, keys)
    ensures positive <==> SomePositive(record, counted)
  {
    hide At, AtomicAt;
    added, positive := [], false;
    for i := 0 to |keys|
      invariant added == [] <==> forall j | 0 <= j < i :: AtomicAt(At(record, keys[j])).Some?
      invariant positive <==> exists j | 0 <= j < i :: keys[j] in counted && PositiveAt(At(record, keys[j])).Some?
    {
      var amount := AtomicAt(At(record, keys[i]));
      if amount.None? {
        added := added + [BadAt(index, keys[i])];
      } else if keys[i] in counted && amount.value > 0 {
        positive := true;
      }
    }
    if SomePositive(record, counted) {
      var key :| key in counted && PositiveAt(At(record, key)).Some?;
      var j :| 0 <= j < |keys| && keys[j] == key;
    }
  }

  lemma CountedKeys()
    ensures (forall key | key in EARNING_KEYS :: key in BALANCE_KEYS) && (forall key | key in OBLIGATION_KEYS :: key in PAYOUT_KEYS)
  {
    assert BALANCE_KEYS[5] == EARNING_KEYS[0] && PAYOUT_KEYS[0] == OBLIGATION_KEYS[0] && PAYOUT_KEYS[1] == OBLIGATION_KEYS[1];
  }

  predicate BalanceAssetOk(side: Side, asset: Option<Json>) {
    IsRecord(asset) && HasText(side, At(asset, "asset")) && AllAmounts(asset, BALANCE_KEYS)
  }

  /** `validateReferrerBalanceArtifact`. */
  method ValidateBalance(side: Side, artifact: Option<Json>) returns (blockers: seq<Problem>)
    ensures blockers == [] <==> BalanceOk(side, artifact)
  {
    hide At, HasText, AllAmounts, SomePositive;
    var summary := At(artifact, "summary");
    if !IsRecord(summary) {
      NoKey(summary, "referrerWallet");
      NoText(side);
      return [Missing("summary")];
    }
    blockers := [];
    if !HasText(side, At(summary, "referrerWallet")) { blockers := blockers + [Missing("referrerWallet")]; }
    var assets := Elements(At(summary, "assets"));
    if assets == [] {
      return blockers + [Missing("assets")];
    }
    var hasPositiveEarning := false;
    ghost var before := blockers == [];
    CountedKeys();
    for i := 0 to |assets|
      invariant blockers == [] <==> before && forall j | 0 <= j < i :: BalanceAssetOk(side, Some(assets[j]))
      invariant hasPositiveEarning <==> exists j | 0 <= j < i :: IsRecord(Some(assets[j])) && SomePositive(Some(assets[j]), EARNING_KEYS)
    {
      var asset := Some(assets[i]);
      if !IsRecord(asset) {
        blockers := blockers + [BadAt(i, "asset")];
      } else {
        if !HasText(side, At(asset, "asset")) { blockers := blockers + [BadAt(i, "asset")]; }
        var added, positive := CheckAmounts(i, asset, BALANCE_KEYS, EARNING_KEYS);
        blockers := blockers + added;
        hasPositiveEarning := hasPositiveEarning || positive;
      }
    }
    if !hasPositiveEarning { blockers := blockers + [Lacks("earning")]; }
  }

  lemma NoText(side: Side)
    ensures !HasText(side, None)
  {
  }

  /** `validateDashboardSummaryArtifact`. */
  method ValidateDashboard(artifact: Option<Json>) returns (blockers: seq<Problem>)
    ensures blockers == [] <==> DashboardOk(artifact)
  {
    hide At, DashboardSchema;
    var summary := At(artifact, "summary");
    if !IsRecord(summary) {
      NoKey(summary, "schema");
      return [Missing("summary")];
    }
    blockers := [];
    if At(summary, "schema") != Some(Str(DashboardSchema())) { blockers := blockers + [Invalid("schema")]; }
    if !IsRecord(At(summary, "merchant")) { blockers := blockers + [Missing("merchant")]; }
    var campaigns, routes := At(summary, "campaigns"), At(summary, "routes");
    var campaignTotal, routeTotal := Count(At(campaigns, "total")), Count(At(routes, "total"));
    if campaignTotal.None? {
      blockers := blockers + [Missing("campaigns")];
    } else if campaignTotal.value == 0 {
      blockers := blockers + [Lacks("campaign")];
    }
    if routeTotal.None? {
      blockers := blockers + [Missing("routes")];
    } else if routeTotal.value == 0 {
      blockers := blockers + [Lacks("route")];
    }
    if Elements(At(campaigns, "activeCampaignIds")) == [] { blockers := blockers + [Missing("activeCampaignIds")]; }
    if Elements(At(routes, "activeRouteIds")) == [] { blockers := blockers + [Missing("activeRouteIds")]; }
  }

  predicate PayoutAssetOk(asset: Option<Json>) {
    IsRecord(asset) && AllAmounts(asset, PAYOUT_KEYS)
  }

  /** `validatePayoutObligationArtifact`, after its summary was read. */
  method ValidatePayout(summary: Option<Json>) returns (blockers: seq<Problem>)
    ensures blockers == [] <==> PayoutOk(summary)
  {
    hide At, AllAmounts, SomePositive, ObligationSchema;
    if summary.None? {
      NoKey(summary, "schema");
      return [Missing("summary")];
    }
    blockers := [];
    if At(summary, "schema") != Some(Str(ObligationSchema())) { blockers := blockers + [Invalid("schema")]; }
    var assets := Elements(At(summary, "assets"));
    if assets == [] {
      return blockers + [Missing("assets")];
    }
    var hasObligation := false;
    ghost var before := blockers == [];
    CountedKeys();
    for i := 0 to |assets|
      invariant blockers == [] <==> before && forall j | 0 <= j < i :: PayoutAssetOk(Some(assets[j]))
      invariant hasObligation <==> exists j | 0 <= j < i :: IsRecord(Some(assets[j])) && SomePositive(Some(assets[j]), OBLIGATION_KEYS)
    {
      var asset := Some(assets[i]);
      if !IsRecord(asset) {
        blockers := blockers + [BadAt(i, "asset")];
      } else {
        var added, positive := CheckAmounts(i, asset, PAYOUT_KEYS, OBLIGATION_KEYS);
        blockers := blockers + added;
        hasObligation := hasObligation || positive;
      }
    }
    if !hasObligation { blockers := blockers + [Lacks("obligation")]; }
  }

  /** The tests of one funded asset; `funded` notes a covered or deficit status. */
  method CheckFunding(index: nat, asset: Option<Json>) returns (added: seq<Problem>, funded: bool)
    ensures added == [] <==> FundingAssetOk(asset)
    ensures added == [] ==> funded
  {
    hide At, AtomicAt;
    var status := At(asset, "fundingStatus");
    added, funded := [], false;
    if !IsRecord(asset) {
      NoKey(asset, "fundingStatus");
      return [BadAt(index, "asset")], false;
    }
    if status != Some(Str("covered")) && status != Some(Str("deficit")) {
      return [BadAt(index, "fundingStatus")], false;
    }
    funded := true;
    if AtomicAt(At(asset, "fundingAmountAtomic")).None? { added := added + [BadAt(index, "fundingAmountAtomic")]; }
    var deficit := AtomicAt(At(asset, "fundingDeficitAtomic"));
    if deficit.None? {
      added := added + [BadAt(index, "fundingDeficitAtomic")];
      return;
    }
    assert "covered"[0] != "deficit"[0];
    if status == Some(Str("covered")) && deficit.value != 0 { added := added + [BadAt(index, "covered")]; }
    if status == Some(Str("deficit")) && deficit.value <= 0 { added := added + [BadAt(index, "deficit")]; }
  }

  /** `validateFundingBalanceArtifact` and `createFundingBalanceStatus`, after the summary was read. */
  method ValidateFunding(summary: Option<Json>) returns (blockers: seq<Problem>)
    ensures blockers == [] <==> FundingOk(summary)
  {
    hide At, FundingAssetOk, ObligationSchema;
    if summary.None? {
      NoKey(summary, "schema");
      return [Missing("summary")];
    }
    blockers := [];
    if At(summary, "schema") != Some(Str(ObligationSchema())) { blockers := blockers + [Invalid("schema")]; }
    if !IsArray(At(summary, "assets")) {
      return blockers + [Missing("assets")];
    }
    var assets := Elements(At(summary, "assets"));
    if assets == [] { blockers := blockers + [Lacks("asset")]; }
    var hasCoveredOrDeficit := false;
    ghost var before := blockers == [];
    for i := 0 to |assets|
      invariant blockers == [] <==> before && forall j | 0 <= j < i :: FundingAssetOk(Some(assets[j]))
      invariant blockers == [] && i > 0 ==> hasCoveredOrDeficit
    {
      var added, funded := CheckFunding(i, Some(assets[i]));
      blockers := blockers + added;
      hasCoveredOrDeficit := hasCoveredOrDeficit || funded;
    }
    if !hasCoveredOrDeficit { blockers := blockers + [Lacks("funding")]; }
  }

  /** The test that a side makes of an artifact. */
  method Validate(side: Side, artifact: Artifact, v: Json) returns (blockers: seq<Problem>)
    ensures blockers == [] <==> ArtifactOk(side, artifact, v)
  {
    hide At, DiscoveryOk, BalanceOk, DashboardOk, DeliveryOk, PayoutOk, FundingOk, SummaryOf;
    match artifact
    case AgentDiscovery => blockers := ValidateDiscovery(side, Some(v));
    case ReferrerBalance => blockers := ValidateBalance(side, Some(v));
    case DashboardSummary => blockers := ValidateDashboard(Some(v));
    case WebhookDelivery => blockers := ValidateDelivery(side, Some(v));
    case PayoutObligation => blockers := ValidatePayout(SummaryOf(side, Some(v)));
    case FundingBalance => blockers := ValidateFunding(SummaryOf(side, Some(v)));
  }

  // --- the two sides agree -----------------------------------------------------------------------------------------------

  /** `summary` is absent, null or an object. */
  predicate SummaryReadable(v: Json) {
    At(Some(v), "summary") in {None, Some(Null)} || IsRecord(At(Some(v), "summary"))
  }

  predicate ReadsSummary(artifact: Artifact) {
    artifact.PayoutObligation? || artifact.FundingBalance?
  }

  lemma DiscoveryOnBothSides(v: Option<Json>)
    ensures DiscoveryOk(Collector, v) ==> DiscoveryOk(Checker, v)
  {
    hide At, HasText;
    if DiscoveryOk(Collector, v) {
      var routes := Elements(At(v, "routes"));
      forall i | 0 <= i < |routes| ensures RouteOk(Checker, Some(routes[i])) {
        var route := Some(routes[i]);
        assert RouteOk(Collector, route);
        TextOnBothSides(At(route, "campaignId"));
        TextOnBothSides(At(route, "referrerWallet"));
        TextOnBothSides(At(route, "payoutWallet"));
        TextOnBothSides(At(route, "id"));
        TextOnBothSides(At(route, "routeId"));
      }
    }
  }

  lemma DeliveryOnBothSides(v: Option<Json>)
    ensures DeliveryOk(Collector, v) ==> DeliveryOk(Checker, v)
  {
    hide At, HasText;
    if DeliveryOk(Collector, v) {
      var events := Elements(At(v, "events"));
      forall i | 0 <= i < |events| ensures EventOk(Checker, Some(events[i])) {
        assert EventOk(Collector, Some(events[i]));
        TextOnBothSides(At(Some(events[i]), "eventType"));
        TextOnBothSides(At(Some(events[i]), "status"));
      }
    }
  }

  lemma BalanceOnBothSides(v: Option<Json>)
    ensures BalanceOk(Collector, v) ==> BalanceOk(Checker, v)
  {
    hide At, HasText, AllAmounts, SomePositive;
    if BalanceOk(Collector, v) {
      var summary := At(v, "summary");
      var assets := Elements(At(summary, "assets"));
      TextOnBothSides(At(summary, "referrerWallet"));
      forall i | 0 <= i < |assets| ensures HasText(Checker, At(Some(assets[i]), "asset")) {
        TextOnBothSides(At(Some(assets[i]), "asset"));
      }
    }
  }

  lemma SummaryOnBothSides(v: Json)
    ensures SummaryReadable(v) ==> SummaryOf(Checker, Some(v)) == SummaryOf(Collector, Some(v))
    ensures !SummaryReadable(v) ==> SummaryOf(Checker, Some(v)).None?
  {
  }

  lemma NothingIsOk()
    ensures !PayoutOk(None) && !FundingOk(None)
  {
  }

  /** An artifact that the collector accepts is accepted by the checker if and only if, for the two
      artifacts that hold an obligation summary, `summary` is absent, null or an object. */
  lemma AcceptedOnBothSides(artifact: Artifact, v: Json)
    requires ArtifactOk(Collector, artifact, v)
    ensures ArtifactOk(Checker, artifact, v) <==> (ReadsSummary(artifact) ==> SummaryReadable(v))
  {
    hide At, DiscoveryOk, BalanceOk, DashboardOk, DeliveryOk, PayoutOk, FundingOk, SummaryOf, SummaryReadable;
    DiscoveryOnBothSides(Some(v));
    DeliveryOnBothSides(Some(v));
    BalanceOnBothSides(Some(v));
    SummaryOnBothSides(v);
    NothingIsOk();
  }

  /** Any accepted obligation summary, given a `summary` of its own that is a plain value, is still accepted
      by the collector but not by the checker. */
  lemma {:induction false} PlainSummaryDivides(members: seq<Member>)
    requires PayoutOk(Some(Obj(members)))
    ensures var v := Obj(members + [Member("summary", Bool(true))]);
            ArtifactOk(Collector, PayoutObligation, v) && !ArtifactOk(Checker, PayoutObligation, v)
  {
    hide Lookup, ObligationSchema, AllAmounts, SomePositive;
    var last := [Member("summary", Bool(true))];
    var v := Obj(members + last);
    LookupConcat(members, last, "summary");
    LookupConcat(members, last, "assets");
    LookupConcat(members, last, "schema");
    LookupAbsent(last, "assets");
    LookupAbsent(last, "schema");
    LookupLast(last, 0);
    NothingIsOk();
  }

  // --- reading a value after numbers that are too large became null ------------------------------------------------------------

  function NulledAt(v: Option<Json>): Option<Json> {
    match v
    case None => None
    case Some(value) => Some(Nulled(value))
  }

  lemma {:induction false} LookupNulled(members: seq<Member>, key: string)
    ensures Lookup(NulledMembers(members), key) == NulledAt(Lookup(members, key))
  {
    hide Nulled, NulledMembers;
    if members != [] {
      var init := members[..|members| - 1];
      LookupNulled(init, key);
      assert NulledMembers(members)[..|members| - 1] == NulledMembers(init);
    }
  }

  /** What the validators read is read alike in both values. */
  lemma ReadNulled(v: Option<Json>, key: string)
    ensures At(NulledAt(v), key) == NulledAt(At(v, key))
  {
    hide Lookup;
    if v.Some? && v.value.Obj? { LookupNulled(v.value.members, key); }
  }

  lemma SameKinds(v: Option<Json>)
    ensures IsRecord(NulledAt(v)) == IsRecord(v) && IsArray(NulledAt(v)) == IsArray(v)
    ensures HasText(Collector, NulledAt(v)) == HasText(Collector, v)
    ensures Count(NulledAt(v)) == Count(v) && AtomicAt(NulledAt(v)) == AtomicAt(v)
    ensures Elements(NulledAt(v)) == NulledItems(Elements(v))
    ensures forall s: string :: NulledAt(v) == Some(Str(s)) <==> v == Some(Str(s))
  {
    hide Trim, Atomic;
  }

  lemma TextNulled(v: Option<Json>, key: string)
    ensures HasText(Collector, At(NulledAt(v), key)) == HasText(Collector, At(v, key))
    ensures AtomicAt(At(NulledAt(v), key)) == AtomicAt(At(v, key)) && Count(At(NulledAt(v), key)) == Count(At(v, key))
    ensures forall s: string :: At(NulledAt(v), key) == Some(Str(s)) <==> At(v, key) == Some(Str(s))
    ensures Elements(At(NulledAt(v), key)) == NulledItems(Elements(At(v, key)))
    ensures IsRecord(At(NulledAt(v), key)) == IsRecord(At(v, key))
  {
    hide At, HasText, AtomicAt, Nulled;
    ReadNulled(v, key);
    SameKinds(At(v, key));
  }

  lemma AmountsNulled(v: Option<Json>, keys: seq<string>)
    ensures AllAmounts(NulledAt(v), keys) == AllAmounts(v, keys) && SomePositive(NulledAt(v), keys) == SomePositive(v, keys)
  {
    hide At, HasText, AtomicAt, NulledAt;
    forall key | key in keys ensures AtomicAt(At(NulledAt(v), key)) == AtomicAt(At(v, key)) { TextNulled(v, key); }
    if SomePositive(NulledAt(v), keys) {
      var key :| key in keys && PositiveAt(At(NulledAt(v), key)).Some?;
      assert PositiveAt(At(v, key)).Some?;
    }
    if SomePositive(v, keys) {
      var key :| key in keys && PositiveAt(At(v, key)).Some?;
      assert PositiveAt(At(NulledAt(v), key)).Some?;
    }
  }

  lemma RouteNulled(route: Option<Json>)
    ensures RouteOk(Collector, NulledAt(route)) == RouteOk(Collector, route)
  {
    hide At, HasText, AtomicAt, NulledAt;
    RecordNulled(route);
    TextNulled(route, "campaignId");
    TextNulled(route, "referrerWallet");
    TextNulled(route, "payoutWallet");
    TextNulled(route, "id");
    TextNulled(route, "routeId");
  }

  lemma RecordNulled(v: Option<Json>)
    ensures IsRecord(NulledAt(v)) == IsRecord(v)
  {
    SameKinds(v);
  }

  lemma EventNulled(event: Option<Json>)
    ensures EventOk(Collector, NulledAt(event)) == EventOk(Collector, event)
  {
    hide At, HasText, AtomicAt, NulledAt;
    RecordNulled(event);
    TextNulled(event, "eventType");
    TextNulled(event, "status");
  }

  lemma BalanceAssetNulled(asset: Option<Json>)
    ensures BalanceAssetOk(Collector, NulledAt(asset)) == BalanceAssetOk(Collector, asset)
  {
    hide At, HasText, AtomicAt, NulledAt, AllAmounts, SomePositive;
    RecordNulled(asset);
    TextNulled(asset, "asset");
    AmountsNulled(asset, BALANCE_KEYS);
  }

  lemma PayoutAssetNulled(asset: Option<Json>)
    ensures PayoutAssetOk(NulledAt(asset)) == PayoutAssetOk(asset)
  {
    hide At, HasText, AtomicAt, NulledAt, AllAmounts, SomePositive;
    RecordNulled(asset);
    AmountsNulled(asset, PAYOUT_KEYS);
  }

  lemma FundingAssetNulled(asset: Option<Json>)
    ensures FundingAssetOk(NulledAt(asset)) == FundingAssetOk(asset)
  {
    hide At, HasText, AtomicAt, NulledAt;
    TextNulled(asset, "fundingStatus");
    TextNulled(asset, "fundingAmountAtomic");
    TextNulled(asset, "fundingDeficitAtomic");
  }

  lemma ItemNulled(items: seq<Json>, i: nat)
    requires i < |items|
    ensures Some(NulledItems(items)[i]) == NulledAt(Some(items[i]))
  {
  }

  lemma DiscoveryNulled(v: Option<Json>)
    ensures DiscoveryOk(Collector, NulledAt(v)) == DiscoveryOk(Collector, v)
  {
    hide At, RouteOk, NulledAt, NulledItems;
    TextNulled(v, "routes");
    var routes := Elements(At(v, "routes"));
    var nulled := NulledItems(routes);
    forall i | 0 <= i < |routes|
      ensures RouteOk(Collector, Some(nulled[i])) == RouteOk(Collector, Some(routes[i]))
      ensures At(Some(nulled[i]), "status") == Some(Str("active")) <==> At(Some(routes[i]), "status") == Some(Str("active"))
    {
      ItemNulled(routes, i);
      RouteNulled(Some(routes[i]));
      TextNulled(Some(routes[i]), "status");
    }
  }

  lemma DeliveryNulled(v: Option<Json>)
    ensures DeliveryOk(Collector, NulledAt(v)) == DeliveryOk(Collector, v)
  {
    hide At, EventOk, NulledAt, NulledItems;
    TextNulled(v, "events");
    var events := Elements(At(v, "events"));
    var nulled := NulledItems(events);
    forall i | 0 <= i < |events|
      ensures EventOk(Collector, Some(nulled[i])) == EventOk(Collector, Some(events[i]))
      ensures At(Some(nulled[i]), "status") == Some(Str("delivered")) <==> At(Some(events[i]), "status") == Some(Str("delivered"))
    {
      ItemNulled(events, i);
      EventNulled(Some(events[i]));
      TextNulled(Some(events[i]), "status");
    }
  }

  lemma BalanceNulled(v: Option<Json>)
    ensures BalanceOk(Collector, NulledAt(v)) == BalanceOk(Collector, v)
  {
    hide At, HasText, AllAmounts, SomePositive, NulledAt, NulledItems;
    ReadNulled(v, "summary");
    var summary := At(v, "summary");
    TextNulled(summary, "referrerWallet");
    TextNulled(summary, "assets");
    var assets := Elements(At(summary, "assets"));
    var nulled := NulledItems(assets);
    forall i | 0 <= i < |assets|
      ensures BalanceAssetOk(Collector, Some(nulled[i])) == BalanceAssetOk(Collector, Some(assets[i]))
      ensures SomePositive(Some(nulled[i]), EARNING_KEYS) == SomePositive(Some(assets[i]), EARNING_KEYS)
    {
      ItemNulled(assets, i);
      BalanceAssetNulled(Some(assets[i]));
      AmountsNulled(Some(assets[i]), EARNING_KEYS);
    }
  }

  lemma DashboardNulled(v: Option<Json>)
    ensures DashboardOk(NulledAt(v)) == DashboardOk(v)
  {
    hide At, NulledAt, NulledItems, Count, DashboardSchema;
    ReadNulled(v, "summary");
    var summary := At(v, "summary");
    TextNulled(summary, "schema");
    TextNulled(summary, "merchant");
    ReadNulled(summary, "campaigns");
    ReadNulled(summary, "routes");
    TextNulled(At(summary, "campaigns"), "total");
    TextNulled(At(summary, "campaigns"), "activeCampaignIds");
    TextNulled(At(summary, "routes"), "total");
    TextNulled(At(summary, "routes"), "activeRouteIds");
  }

  lemma PayoutNulled(summary: Option<Json>)
    ensures PayoutOk(NulledAt(summary)) == PayoutOk(summary)
  {
    hide At, AllAmounts, SomePositive, NulledAt, NulledItems, ObligationSchema;
    TextNulled(summary, "schema");
    TextNulled(summary, "assets");
    var assets := Elements(At(summary, "assets"));
    var nulled := NulledItems(assets);
    forall i | 0 <= i < |assets|
      ensures PayoutAssetOk(Some(nulled[i])) == PayoutAssetOk(Some(assets[i]))
      ensures SomePositive(Some(nulled[i]), OBLIGATION_KEYS) == SomePositive(Some(assets[i]), OBLIGATION_KEYS)
    {
      ItemNulled(assets, i);
      PayoutAssetNulled(Some(assets[i]));
      AmountsNulled(Some(assets[i]), OBLIGATION_KEYS);
    }
  }

  lemma FundingNulled(summary: Option<Json>)
    ensures FundingOk(NulledAt(summary)) == FundingOk(summary)
  {
    hide At, FundingAssetOk, NulledAt, NulledItems, ObligationSchema;
    TextNulled(summary, "schema");
    TextNulled(summary, "assets");
    var assets := Elements(At(summary, "assets"));
    var nulled := NulledItems(assets);
    forall i | 0 <= i < |assets| ensures FundingAssetOk(Some(nulled[i])) == FundingAssetOk(Some(assets[i])) {
      ItemNulled(assets, i);
      FundingAssetNulled(Some(assets[i]));
    }
  }

  lemma SummaryNulled(v: Option<Json>)
    ensures SummaryOf(Collector, NulledAt(v)) == NulledAt(SummaryOf(Collector, v))
  {
    hide At;
    RecordNulled(v);
    ReadNulled(v, "summary");
    RecordNulled(At(v, "summary"));
  }

  /** What the collector thinks of an artifact does not depend on numbers that are too large. */
  lemma CollectorIgnoresNulls(artifact: Artifact, v: Json)
    ensures ArtifactOk(Collector, artifact, Nulled(v)) == ArtifactOk(Collector, artifact, v)
  {
    hide At, DiscoveryOk, BalanceOk, DashboardOk, DeliveryOk, PayoutOk, FundingOk, SummaryOf;
    DiscoveryNulled(Some(v));
    BalanceNulled(Some(v));
    DashboardNulled(Some(v));
    DeliveryNulled(Some(v));
    SummaryNulled(Some(v));
    PayoutNulled(SummaryOf(Collector, Some(v)));
    FundingNulled(SummaryOf(Collector, Some(v)));
  }

  /** `summary` is absent, null, an object, or a number that will be written as null. */
  predicate SummarySurvives(v: Json) {
    SummaryReadable(v) || (At(Some(v), "summary").Some? && At(Some(v), "summary").value.Infinite?)
  }

  lemma SummaryReadableNulled(v: Json)
    ensures SummaryReadable(Nulled(v)) <==> SummarySurvives(v)
  {
    hide At;
    ReadNulled(Some(v), "summary");
  }

  // --- a run of the collector ------------------------------------------------------------------------------------------------

  const ARTIFACTS: seq<Artifact> :=
    [AgentDiscovery, ReferrerBalance, DashboardSummary, WebhookDelivery, PayoutObligation, FundingBalance]

  datatype Input = Input(baseUrlIsHttp: bool, merchantId: string, referrerWallet: string, webhookStatus: Option<string>)

  /** What the collector demands of its input before it fetches. */
  predicate InputOk(input: Input) {
    && input.baseUrlIsHttp && Trim(input.merchantId) != "" && Trim(input.referrerWallet) != ""
    && (input.webhookStatus.None? || Trim(input.webhookStatus.value) in {"", "pending", "processing", "delivered", "dead_letter"})
  }

  ghost predicate NotBlank(s: string) {
    exists i | 0 <= i < |s| :: !IsSpace(s[i])
  }

  /** The base URL is one, both identities are given, and a webhook status, if it is given, is a known one. */
  lemma InputIff(input: Input)
    ensures InputOk(input) <==>
              && input.baseUrlIsHttp && NotBlank(input.merchantId) && NotBlank(input.referrerWallet)
              && (input.webhookStatus.Some? && NotBlank(input.webhookStatus.value) ==>
                    exists status | status in ["pending", "processing", "delivered", "dead_letter"] :: Trim(input.webhookStatus.value) == status)
  {
    hide Trim;
    TrimIsTrimmed(input.merchantId);
    TrimIsTrimmed(input.referrerWallet);
    if input.webhookStatus.Some? {
      TrimIsTrimmed(input.webhookStatus.value);
      Statuses(Trim(input.webhookStatus.value));
    }
  }

  lemma Statuses(s: string)
    ensures s in ["pending", "processing", "delivered", "dead_letter"] <==> s in {"pending", "processing", "delivered", "dead_letter"}
  {
  }

  datatype Response = Response(ok: bool, text: string)

  /** `formatArtifact`. */
  function Format(text: string): string {
    match Parse(text)
    case Some(v) => Print(v, "  ", "") + "\n"
    case None => if text != "" && text[|text| - 1] == '\n' then text else text + "\n"
  }

  /** An answer that the collector can use. */
  predicate Useful(artifact: Artifact, response: Response) {
    response.ok && Parse(response.text).Some? && ArtifactOk(Collector, artifact, Parse(response.text).value)
  }

  function Written(files: map<string, string>, artifacts: seq<Artifact>, fetch: Artifact -> Response, pathOf: Artifact -> string)
    : map<string, string>
  {
    if artifacts == [] then files
    else
      var last := artifacts[|artifacts| - 1];
      Written(files, artifacts[..|artifacts| - 1], fetch, pathOf)[pathOf(last) := Format(fetch(last).text)]
  }

  /** `collectPhase7ReadArtifacts`: every answer is judged before the first file is written, so a run writes
      all six artifacts or none. */
  method CollectReads(input: Input, fetch: Artifact -> Response, pathOf: Artifact -> string, fs: Recorder.FileSystem)
    returns (done: bool)
    modifies fs
    ensures done <==> InputOk(input) && forall artifact | artifact in ARTIFACTS :: Useful(artifact, fetch(artifact))
    ensures fs.files == if done then Written(old(fs.files), ARTIFACTS, fetch, pathOf) else old(fs.files)
  {
    hide Useful, InputOk, Format, ArtifactOk, Parse;
    if !InputOk(input) {
      return false;
    }
    var pending: seq<(string, string)> := [];
    for i := 0 to |ARTIFACTS|
      invariant |pending| == i
      invariant forall j | 0 <= j < i ::
                  && Useful(ARTIFACTS[j], fetch(ARTIFACTS[j]))
                  && pending[j] == (pathOf(ARTIFACTS[j]), Format(fetch(ARTIFACTS[j]).text))
      invariant fs.files == old(fs.files)
    {
      var artifact := ARTIFACTS[i];
      var response := fetch(artifact);
      var useful := JudgeResponse(artifact, response);
      if !useful {
        return false;
      }
      pending := pending + [(pathOf(artifact), Format(response.text))];
    }
    assert ARTIFACTS[..|ARTIFACTS|] == ARTIFACTS;
    for i := 0 to |pending|
      invariant fs.files == Written(old(fs.files), ARTIFACTS[..i], fetch, pathOf)
    {
      assert ARTIFACTS[..i + 1][..i] == ARTIFACTS[..i];
      fs.WriteText(pending[i].0, pending[i].1);
    }
    done := true;
  }

  /** `response.ok` and `assertUsefulReadArtifact`. */
  method JudgeResponse(artifact: Artifact, response: Response) returns (useful: bool)
    ensures useful <==> Useful(artifact, response)
  {
    hide ArtifactOk, Parse;
    if !response.ok {
      return false;
    }
    var v := Parse(response.text);
    if v.None? {
      return false;
    }
    var blockers := Validate(Collector, artifact, v.value);
    useful := blockers == [];
  }

  /** An artifact is written with null for every number that is too large for a double; its value is kept if
      and only if there is none. */
  lemma FormatNulls(text: string)
    requires Parse(text).Some?
    ensures Parse(Format(text)) == Some(Nulled(Parse(text).value))
    ensures Parse(Format(text)) == Parse(text) <==> Finite(Parse(text).value)
  {
    hide Parse, Print, Nulled, Finite;
    assert Blank("  ") && Blank("\n");
    ReformatNulls(text, "  ", "\n");
    ReformatKeepsValueIff(text, "  ", "\n");
  }

  lemma {:induction false} WrittenAt(files: map<string, string>, artifacts: seq<Artifact>, fetch: Artifact -> Response,
                                     pathOf: Artifact -> string, artifact: Artifact)
    requires artifact in artifacts && forall a, b | a in artifacts && b in artifacts && pathOf(a) == pathOf(b) :: a == b
    ensures var after := Written(files, artifacts, fetch, pathOf);
            pathOf(artifact) in after && after[pathOf(artifact)] == Format(fetch(artifact).text)
  {
    hide Format;
    var init, last := artifacts[..|artifacts| - 1], artifacts[|artifacts| - 1];
    assert artifacts == init + [last];
    if artifact != last { WrittenAt(files, init, fetch, pathOf, artifact); }
  }

  /** After a run that was done, with distinct paths, every artifact on file has the value that was fetched,
      with null for numbers that are too large, and the checker accepts it if and only if its obligation
      summary, if it is to hold one, is absent, null, an object or such a number. */
  lemma CollectedIsChecked(files: map<string, string>, fetch: Artifact -> Response, pathOf: Artifact -> string, artifact: Artifact)
    requires forall a | a in ARTIFACTS :: Useful(a, fetch(a))
    requires forall a, b | a in ARTIFACTS && b in ARTIFACTS && pathOf(a) == pathOf(b) :: a == b
    requires artifact in ARTIFACTS
    ensures var after, fetched := Written(files, ARTIFACTS, fetch, pathOf), Parse(fetch(artifact).text);
            && pathOf(artifact) in after && fetched.Some?
            && Parse(after[pathOf(artifact)]) == Some(Nulled(fetched.value))
            && (ArtifactOk(Checker, artifact, Nulled(fetched.value)) <==> (ReadsSummary(artifact) ==> SummarySurvives(fetched.value)))
  {
    hide Format, ArtifactOk, SummaryReadable, SummarySurvives, Parse, ReadsSummary, Nulled;
    WrittenAt(files, ARTIFACTS, fetch, pathOf, artifact);
    assert Useful(artifact, fetch(artifact));
    FormatNulls(fetch(artifact).text);
    var v := Parse(fetch(artifact).text).value;
    CollectorIgnoresNulls(artifact, v);
    AcceptedOnBothSides(artifact, Nulled(v));
    SummaryReadableNulled(v);
  }
}
