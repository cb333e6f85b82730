/** The economics of the MCP demo bundle. */
module Bundle {
  import opened Text
  import opened Json
  import opened JsonLines
  import opened JsonRead

  // --- the split of a payment -------------------------------------------------------------------------------------

  /** Commission and fee are basis-point shares rounded down; what is left of the commission is the
      referrer's credit, what is left of the payment stays with the merchant. */
  predicate IsSplit(payment: nat, bps: nat, feeBps: nat, commission: nat, fee: nat, credit: nat, merchant: nat) {
    && commission * BPS_DENOMINATOR <= payment * bps < (commission + 1) * BPS_DENOMINATOR
    && fee * BPS_DENOMINATOR <= commission * feeBps < (fee + 1) * BPS_DENOMINATOR
    && credit + fee == commission
    && merchant + commission == payment
  }

  lemma ShareIsFloor(amount: nat, bps: nat, share: nat)
    ensures share == amount * bps / BPS_DENOMINATOR <==>
            share * BPS_DENOMINATOR <= amount * bps < (share + 1) * BPS_DENOMINATOR
  {
    var product := amount * bps;
    assert product == product / BPS_DENOMINATOR * BPS_DENOMINATOR + product % BPS_DENOMINATOR;
  }

  /** For a payment and rates in range there is exactly one split. */
  lemma SplitIsUnique(payment: nat, bps: nat, feeBps: nat)
    returns (commission: nat, fee: nat, credit: nat, merchant: nat)
    requires bps <= BPS_DENOMINATOR && feeBps <= BPS_DENOMINATOR
    ensures IsSplit(payment, bps, feeBps, commission, fee, credit, merchant)
    ensures forall c: nat, f: nat, r: nat, m: nat :: IsSplit(payment, bps, feeBps, c, f, r, m) ==>
              c == commission && f == fee && r == credit && m == merchant
  {
    commission := payment * bps / BPS_DENOMINATOR;
    ShareIsFloor(payment, bps, commission);
    ShareBound(payment, bps);
    fee := commission * feeBps / BPS_DENOMINATOR;
    ShareIsFloor(commission, feeBps, fee);
    ShareBound(commission, feeBps);
    credit, merchant := commission - fee, payment - commission;
    forall c: nat, f: nat, r: nat, m: nat | IsSplit(payment, bps, feeBps, c, f, r, m)
      ensures c == commission && f == fee && r == credit && m == merchant
    {
      ShareIsFloor(payment, bps, c);
      ShareIsFloor(commission, feeBps, f);
    }
  }

  lemma ShareBound(amount: nat, bps: nat)
    requires bps <= BPS_DENOMINATOR
    ensures amount * bps / BPS_DENOMINATOR <= amount
  {
    assert amount * bps <= amount * BPS_DENOMINATOR;
  }

  // --- the bundle ---------------------------------------------------------------------------------------------------------

  /** The first tool with this name. */
  function ToolNamed(tools: seq<Json>, name: string): Option<Json> {
    if tools == [] then None
    else if At(Some(tools[0]), "name") == Some(Str(name)) then Some(tools[0])
    else ToolNamed(tools[1..], name)
  }

  function PaidTool(): string {
    "split402.walletRiskScore"
  }

  function PaidToolOf(bundle: Json): Option<Json> {
    ToolNamed(Elements(At(At(Some(bundle), "mcp"), "tools")), PaidTool())
  }

  predicate HeaderOk(bundle: Json) {
    && At(Some(bundle), "schemaVersion") == Some(Str("split402.mcp-demo-bundle.v1"))
    && At(Some(bundle), "project") == Some(Str("Split402"))
  }

  predicate PaidToolOk(tool: Option<Json>) {
    var call, x402, split402 := At(tool, "paidHttpCall"), At(tool, "x402"), At(tool, "split402");
    && At(call, "method") == Some(Str("POST")) && NonEmpty(At(call, "url")).Some?
    && At(x402, "scheme") == Some(Str("exact"))
    && NonEmpty(At(x402, "network")).Some? && NonEmpty(At(x402, "asset")).Some?
    && PositiveAt(At(x402, "amountAtomic")).Some?
    && NonEmpty(At(split402, "campaignId")).Some? && NonEmpty(At(split402, "operationId")).Some?
    && BasisPoints(At(split402, "commissionBps")).Some?
    && BasisPoints(At(split402, "protocolFeeBpsOfCommission")).Some?
  }

  /** The five amounts are the split of the amount that the tool asks for at the rates of the tool. */
  predicate EconomicsOk(economics: Option<Json>, tool: Option<Json>) {
    var price := PositiveAt(At(At(tool, "x402"), "amountAtomic"));
    var bps := BasisPoints(At(At(tool, "split402"), "commissionBps"));
    var feeBps := BasisPoints(At(At(tool, "split402"), "protocolFeeBpsOfCommission"));
    var payment, commission := AtomicAt(At(economics, "paymentAmountAtomic")), AtomicAt(At(economics, "commissionAmountAtomic"));
    var fee, credit := AtomicAt(At(economics, "protocolFeeAtomic")), AtomicAt(At(economics, "referrerCreditAtomic"));
    var merchant := AtomicAt(At(economics, "merchantRetainsAtomic"));
    && payment.Some? && commission.Some? && fee.Some? && credit.Some? && merchant.Some? && bps.Some? && feeBps.Some?
    && payment == price
    && At(economics, "referrerCommissionBps") == At(At(tool, "split402"), "commissionBps")
    && At(economics, "protocolFeeBpsOfCommission") == At(At(tool, "split402"), "protocolFeeBpsOfCommission")
    && IsSplit(payment.value, bps.value, feeBps.value, commission.value, fee.value, credit.value, merchant.value)
  }

  /** Exactly the bundles without a blocker. */
  predicate BundleOk(bundle: Json) {
    && HeaderOk(bundle) && PaidToolOf(bundle).Some? && PaidToolOk(PaidToolOf(bundle))
    && EconomicsOk(At(Some(bundle), "expectedEconomics"), PaidToolOf(bundle))
  }

  datatype Problem = BadHeader(key: string) | NoPaidTool | BadTool(key: string) | BadEconomics(key: string)

  method CheckPaidTool(tool: Option<Json>) returns (added: seq<Problem>)
    ensures added == [] <==> PaidToolOk(tool)
  {
    hide At, NonEmpty, PositiveAt, BasisPoints;
    var call, x402, split402 := At(tool, "paidHttpCall"), At(tool, "x402"), At(tool, "split402");
    added := [];
    if At(call, "method") != Some(Str("POST")) || NonEmpty(At(call, "url")).None? { added := added + [BadTool("paidHttpCall")]; }
    if At(x402, "scheme") != Some(Str("exact")) { added := added + [BadTool("scheme")]; }
    if NonEmpty(At(x402, "network")).None? { added := added + [BadTool("network")]; }
    if NonEmpty(At(x402, "asset")).None? { added := added + [BadTool("asset")]; }
    if PositiveAt(At(x402, "amountAtomic")).None? { added := added + [BadTool("amountAtomic")]; }
    if NonEmpty(At(split402, "campaignId")).None? { added := added + [BadTool("campaignId")]; }
    if NonEmpty(At(split402, "operationId")).None? { added := added + [BadTool("operationId")]; }
    if BasisPoints(At(split402, "commissionBps")).None? { added := added + [BadTool("commissionBps")]; }
    if BasisPoints(At(split402, "protocolFeeBpsOfCommission")).None? {
      added := added + [BadTool("protocolFeeBpsOfCommission")];
    }
  }

  /** The comparison of the five amounts with the shares computed by division. */
  method CheckAmounts(payment: nat, bps: nat, feeBps: nat, commission: nat, fee: nat, credit: nat, merchant: nat)
    returns (added: seq<Problem>)
    requires bps <= BPS_DENOMINATOR && feeBps <= BPS_DENOMINATOR
    ensures added == [] <==> IsSplit(payment, bps, feeBps, commission, fee, credit, merchant)
  {
    var expectedCommission := payment * bps / BPS_DENOMINATOR;
    var expectedFee := expectedCommission * feeBps / BPS_DENOMINATOR;
    added := [];
    if commission != expectedCommission { added := added + [BadEconomics("commissionAmountAtomic")]; }
    if fee != expectedFee { added := added + [BadEconomics("protocolFeeAtomic")]; }
    if credit != expectedCommission - expectedFee { added := added + [BadEconomics("referrerCreditAtomic")]; }
    if merchant != payment - expectedCommission { added := added + [BadEconomics("merchantRetainsAtomic")]; }
    ShareIsFloor(payment, bps, commission);
    if commission == expectedCommission { ShareIsFloor(commission, feeBps, fee); }
  }

  const AMOUNTS: seq<string> :=
    ["paymentAmountAtomic", "commissionAmountAtomic", "protocolFeeAtomic", "referrerCreditAtomic", "merchantRetainsAtomic"]

  predicate AllAmounts(economics: Option<Json>) {
    forall i | 0 <= i < |AMOUNTS| :: AtomicAt(At(economics, AMOUNTS[i])).Some?
  }

  lemma AmountsAre(economics: Option<Json>)
    ensures AllAmounts(economics) <==>
            && AtomicAt(At(economics, "paymentAmountAtomic")).Some? && AtomicAt(At(economics, "commissionAmountAtomic")).Some?
            && AtomicAt(At(economics, "protocolFeeAtomic")).Some? && AtomicAt(At(economics, "referrerCreditAtomic")).Some?
            && AtomicAt(At(economics, "merchantRetainsAtomic")).Some?
  {
    hide At, AtomicAt;
    var k := AMOUNTS;
    assert k[0] == "paymentAmountAtomic" && k[1] == "commissionAmountAtomic" && k[2] == "protocolFeeAtomic";
    assert k[3] == "referrerCreditAtomic" && k[4] == "merchantRetainsAtomic";
  }

  method CheckEconomics(economics: Option<Json>, tool: Option<Json>) returns (added: seq<Problem>)
    ensures PaidToolOk(tool) ==> (added == [] <==> EconomicsOk(economics, tool))
  {
    hide At, NonEmpty, PositiveAt, AtomicAt, IsSplit, BasisPoints;
    AmountsAre(economics);
    if !IsRecord(economics) {
      NoAmounts(economics);
      return [BadEconomics("expectedEconomics")];
    }
    added := [];
    for i := 0 to |AMOUNTS|
      invariant added == [] <==> forall j | 0 <= j < i :: AtomicAt(At(economics, AMOUNTS[j])).Some?
    {
      if AtomicAt(At(economics, AMOUNTS[i])).None? { added := added + [BadEconomics(AMOUNTS[i])]; }
    }
    var payment, commission := AtomicAt(At(economics, "paymentAmountAtomic")), AtomicAt(At(economics, "commissionAmountAtomic"));
    var fee, credit := AtomicAt(At(economics, "protocolFeeAtomic")), AtomicAt(At(economics, "referrerCreditAtomic"));
    var merchant := AtomicAt(At(economics, "merchantRetainsAtomic"));
    var price := PositiveAt(At(At(tool, "x402"), "amountAtomic"));
    var rate, feeRate := At(At(tool, "split402"), "commissionBps"), At(At(tool, "split402"), "protocolFeeBpsOfCommission");
    var bps, feeBps := BasisPoints(rate), BasisPoints(feeRate);
    if payment.Some? && price.Some? && payment != price { added := added + [BadEconomics("paymentAmountAtomic")]; }
    if bps.Some? && At(economics, "referrerCommissionBps") != rate { added := added + [BadEconomics("referrerCommissionBps")]; }
    if feeBps.Some? && At(economics, "protocolFeeBpsOfCommission") != feeRate { added := added + [BadEconomics("protocolFeeBpsOfCommission")]; }
    if payment.None? || bps.None? || feeBps.None? || commission.None? || fee.None? || credit.None? || merchant.None? {
      return;
    }
    var amounts := CheckAmounts(payment.value, bps.value, feeBps.value, commission.value, fee.value, credit.value, merchant.value);
    added := added + amounts;
  }

  lemma NoAmounts(economics: Option<Json>)
    requires !IsRecord(economics)
    ensures AtomicAt(At(economics, "paymentAmountAtomic")).None?
  {
  }

  /** `validateMcpBundleArtifact`. */
  method ValidateBundle(bundle: Json) returns (blockers: seq<Problem>)
    ensures blockers == [] <==> BundleOk(bundle)
  {
    hide At, PaidToolOk, EconomicsOk, ToolNamed;
    if !IsRecord(Some(bundle)) {
      NotARecord(bundle);
      return [BadHeader("bundle")];
    }
    blockers := [];
    if At(Some(bundle), "schemaVersion") != Some(Str("split402.mcp-demo-bundle.v1")) {
      blockers := blockers + [BadHeader("schemaVersion")];
    }
    if At(Some(bundle), "project") != Some(Str("Split402")) { blockers := blockers + [BadHeader("project")]; }
    var tools := Elements(At(At(Some(bundle), "mcp"), "tools"));
    if tools == [] {
      NoneNamed(PaidTool());
      blockers := blockers + [NoPaidTool];
      return;
    }
    var tool := ToolNamed(tools, PaidTool());
    if tool.None? {
      blockers := blockers + [NoPaidTool];
      return;
    }
    var sold := CheckPaidTool(tool);
    var economics := CheckEconomics(At(Some(bundle), "expectedEconomics"), tool);
    blockers := blockers + sold + economics;
  }

  lemma NotARecord(bundle: Json)
    requires !IsRecord(Some(bundle))
    ensures !BundleOk(bundle)
  {
  }

  lemma NoneNamed(name: string)
    ensures ToolNamed([], name).None?
  {
  }

  /** A bundle without a blocker conserves money: the payment that the tool asks for is what the merchant,
      the referrer and the protocol receive, and no other split would have been accepted. */
  lemma BundleConserves(bundle: Json)
    requires BundleOk(bundle)
    ensures var economics, tool := At(Some(bundle), "expectedEconomics"), PaidToolOf(bundle);
            var payment, merchant := AtomicAt(At(economics, "paymentAmountAtomic")).value, AtomicAt(At(economics, "merchantRetainsAtomic")).value;
            var credit, fee := AtomicAt(At(economics, "referrerCreditAtomic")).value, AtomicAt(At(economics, "protocolFeeAtomic")).value;
            var bps, feeBps := BasisPoints(At(At(tool, "split402"), "commissionBps")).value,
                               BasisPoints(At(At(tool, "split402"), "protocolFeeBpsOfCommission")).value;
            && payment == merchant + credit + fee
            && (credit + fee) * BPS_DENOMINATOR <= payment * bps < (credit + fee + 1) * BPS_DENOMINATOR
            && forall c: nat, f: nat, r: nat, m: nat :: IsSplit(payment, bps, feeBps, c, f, r, m) ==>
                 f == fee && r == credit && m == merchant
  {
    hide At, PaidToolOk, HeaderOk, ToolNamed, AtomicAt, PositiveAt;
    var economics, tool := At(Some(bundle), "expectedEconomics"), PaidToolOf(bundle);
    var payment := AtomicAt(At(economics, "paymentAmountAtomic")).value;
    var bps, feeBps := BasisPoints(At(At(tool, "split402"), "commissionBps")).value,
                       BasisPoints(At(At(tool, "split402"), "protocolFeeBpsOfCommission")).value;
    var c, f, r, m := SplitIsUnique(payment, bps, feeBps);
  }

  // --- bundles built from their fields -----------------------------------------------------------------------------------

  /** A tool with any values under its keys. */
  datatype Tool = Tool(
    name: Json, callMethod: Json, url: Json, scheme: Json, network: Json, asset: Json, amount: Json,
    campaignId: Json, operationId: Json, commissionBps: Json, feeBps: Json)
  {
    function Call(): seq<Member> {
      [Member("method", callMethod), Member("url", url)]
    }

    function Terms(): seq<Member> {
      [Member("scheme", scheme), Member("network", network), Member("asset", asset), Member("amountAtomic", amount)]
    }

    function Campaign(): seq<Member> {
      [Member("campaignId", campaignId), Member("operationId", operationId), Member("commissionBps", commissionBps),
       Member("protocolFeeBpsOfCommission", feeBps)]
    }

    function Members(): seq<Member> {
      [Member("name", name), Member("paidHttpCall", Obj(Call())), Member("x402", Obj(Terms())), Member("split402", Obj(Campaign()))]
    }

    ghost predicate Sells() {
      && callMethod == Str("POST") && IsText(url) && scheme == Str("exact") && IsText(network) && IsText(asset) && IsAbove(amount)
      && IsText(campaignId) && IsText(operationId) && IsRate(commissionBps) && IsRate(feeBps)
    }
  }

  predicate IsText(v: Json) {
    v.Str? && v.s != ""
  }

  predicate IsRate(v: Json) {
    v.Int? && 0 <= v.n <= 10_000
  }

  /** Expected economics with any values under their keys. */
  datatype Economics = Economics(
    payment: Json, bps: Json, feeBps: Json, commission: Json, fee: Json, credit: Json, merchant: Json)
  {
    function Members(): seq<Member> {
      [Member("paymentAmountAtomic", payment), Member("referrerCommissionBps", bps), Member("protocolFeeBpsOfCommission", feeBps),
       Member("commissionAmountAtomic", commission), Member("protocolFeeAtomic", fee), Member("referrerCreditAtomic", credit),
       Member("merchantRetainsAtomic", merchant)]
    }

    /** The rates and the price are those of the tool; both shares are rounded down, and the rest goes to the
        referrer and the merchant. */
    ghost predicate OfBy(t: Tool, p: nat, c: nat, f: nat, r: nat, m: nat)
      requires t.Sells()
    {
      && payment == t.amount && bps == t.commissionBps && feeBps == t.feeBps
      && payment == Str(Digits(p)) && commission == Str(Digits(c)) && fee == Str(Digits(f)) && credit == Str(Digits(r))
      && merchant == Str(Digits(m))
      && Shares(p, t.commissionBps.n, t.feeBps.n, c, f, r, m)
    }

    ghost predicate Of(t: Tool)
      requires t.Sells()
    {
      exists p, c, f, r, m :: OfBy(t, p, c, f, r, m)
    }
  }

  ghost predicate Shares(p: nat, rate: int, feeRate: int, c: nat, f: nat, r: nat, m: nat) {
    && c * 10_000 <= p * rate < (c + 1) * 10_000
    && f * 10_000 <= c * feeRate < (f + 1) * 10_000
    && r == c - f && m == p - c
  }

  function ToolList(tools: seq<Tool>): (r: seq<Json>)
    ensures |r| == |tools| && forall i | 0 <= i < |r| :: r[i] == Obj(tools[i].Members())
  {
    if tools == [] then [] else [Obj(tools[0].Members())] + ToolList(tools[1..])
  }

  function Built(schemaVersion: Json, project: Json, tools: seq<Tool>, e: Economics): Json {
    Obj([Member("schemaVersion", schemaVersion), Member("project", project),
         Member("mcp", Obj([Member("tools", Arr(ToolList(tools)))])), Member("expectedEconomics", Obj(e.Members()))])
  }

  /** The first tool that is sold. */
  ghost predicate IsPaidTool(tools: seq<Tool>, i: int) {
    && 0 <= i < |tools| && tools[i].name == Str("split402.walletRiskScore")
    && forall j | 0 <= j < i :: tools[j].name != Str("split402.walletRiskScore")
  }

  lemma {:induction false} ToolAt(t: Tool)
    ensures var v := Some(Obj(t.Members()));
            && At(v, "name") == Some(t.name) && At(v, "paidHttpCall") == Some(Obj(t.Call()))
            && At(v, "x402") == Some(Obj(t.Terms())) && At(v, "split402") == Some(Obj(t.Campaign()))
  {
    hide Lookup;
    ByShape(t.Members(), [(4, 'n'), (12, 'p'), (4, 'x'), (8, 's')]);
    LookupDistinct(t.Members(), 0);
    LookupDistinct(t.Members(), 1);
    LookupDistinct(t.Members(), 2);
    LookupDistinct(t.Members(), 3);
  }

  lemma {:induction false} TermsAt(t: Tool)
    ensures var call, terms := Some(Obj(t.Call())), Some(Obj(t.Terms()));
            && At(call, "method") == Some(t.callMethod) && At(call, "url") == Some(t.url)
            && At(terms, "scheme") == Some(t.scheme) && At(terms, "network") == Some(t.network)
            && At(terms, "asset") == Some(t.asset) && At(terms, "amountAtomic") == Some(t.amount)
  {
    hide Lookup;
    ByShape(t.Call(), [(6, 'm'), (3, 'u')]);
    LookupDistinct(t.Call(), 0);
    LookupDistinct(t.Call(), 1);
    ByShape(t.Terms(), [(6, 's'), (7, 'n'), (5, 'a'), (12, 'a')]);
    LookupDistinct(t.Terms(), 0);
    LookupDistinct(t.Terms(), 1);
    LookupDistinct(t.Terms(), 2);
    LookupDistinct(t.Terms(), 3);
  }

  lemma {:induction false} CampaignAt(t: Tool)
    ensures var campaign := Some(Obj(t.Campaign()));
            && At(campaign, "campaignId") == Some(t.campaignId) && At(campaign, "operationId") == Some(t.operationId)
            && At(campaign, "commissionBps") == Some(t.commissionBps)
            && At(campaign, "protocolFeeBpsOfCommission") == Some(t.feeBps)
  {
    hide Lookup;
    ByShape(t.Campaign(), [(10, 'c'), (11, 'o'), (13, 'c'), (26, 'p')]);
    LookupDistinct(t.Campaign(), 0);
    LookupDistinct(t.Campaign(), 1);
    LookupDistinct(t.Campaign(), 2);
    LookupDistinct(t.Campaign(), 3);
  }

  lemma {:induction false} EconomicsKeys(e: Economics)
    ensures DistinctKeys(e.Members())
  {
    ByShape(e.Members(), [(19, 'p'), (21, 'r'), (26, 'p'), (22, 'c'), (17, 'p'), (20, 'r'), (21, 'm')]);
  }

  lemma {:induction false} EconomicsAt(e: Economics)
    ensures var v := Some(Obj(e.Members()));
            && At(v, "paymentAmountAtomic") == Some(e.payment) && At(v, "referrerCommissionBps") == Some(e.bps)
            && At(v, "protocolFeeBpsOfCommission") == Some(e.feeBps) && At(v, "commissionAmountAtomic") == Some(e.commission)
            && At(v, "protocolFeeAtomic") == Some(e.fee) && At(v, "referrerCreditAtomic") == Some(e.credit)
            && At(v, "merchantRetainsAtomic") == Some(e.merchant)
  {
    hide Lookup, DistinctKeys;
    var members := e.Members();
    EconomicsKeys(e);
    LookupDistinct(members, 0);
    LookupDistinct(members, 1);
    LookupDistinct(members, 2);
    LookupDistinct(members, 3);
    LookupDistinct(members, 4);
    LookupDistinct(members, 5);
    LookupDistinct(members, 6);
  }

  lemma {:induction false} BuiltAt(schemaVersion: Json, project: Json, tools: seq<Tool>, e: Economics)
    ensures var v := Some(Built(schemaVersion, project, tools, e));
            && At(v, "schemaVersion") == Some(schemaVersion) && At(v, "project") == Some(project)
            && At(At(v, "mcp"), "tools") == Some(Arr(ToolList(tools))) && At(v, "expectedEconomics") == Some(Obj(e.Members()))
  {
    hide Lookup;
    var members := Built(schemaVersion, project, tools, e).members;
    ByShape(members, [(13, 's'), (7, 'p'), (3, 'm'), (17, 'e')]);
    LookupDistinct(members, 0);
    LookupDistinct(members, 1);
    LookupDistinct(members, 2);
    LookupDistinct(members, 3);
    LookupLast([Member("tools", Arr(ToolList(tools)))], 0);
  }

  lemma {:induction false} SellsIff(t: Tool)
    ensures PaidToolOk(Some(Obj(t.Members()))) <==> t.Sells()
  {
    hide At, PositiveAt, IsAbove, Tool.Members, Tool.Call, Tool.Terms, Tool.Campaign;
    ToolAt(t);
    TermsAt(t);
    CampaignAt(t);
    AmountIff(t.amount);
  }

  lemma {:induction false} ToolIsFound(tools: seq<Tool>, i: nat)
    requires IsPaidTool(tools, i)
    ensures ToolNamed(ToolList(tools), PaidTool()) == Some(Obj(tools[i].Members()))
    decreases i
  {
    hide At, Tool.Members;
    ToolAt(tools[0]);
    assert ToolList(tools)[1..] == ToolList(tools[1..]);
    if i > 0 { ToolIsFound(tools[1..], i - 1); }
  }

  lemma {:induction false} NoToolIsFound(tools: seq<Tool>)
    requires forall i | 0 <= i < |tools| :: tools[i].name != Str("split402.walletRiskScore")
    ensures ToolNamed(ToolList(tools), PaidTool()).None?
  {
    hide At, Tool.Members;
    if tools != [] {
      ToolAt(tools[0]);
      assert ToolList(tools)[1..] == ToolList(tools[1..]);
      NoToolIsFound(tools[1..]);
    }
  }

  lemma {:induction false} ValueOf(v: Json, n: nat)
    requires v == Str(Digits(n))
    ensures AtomicAt(Some(v)) == Some(n)
  {
    hide Digits, NatOf;
    NatOfDigits(n);
  }

  lemma {:induction false} ShapeOf(v: Json)
    requires AtomicAt(Some(v)).Some?
    ensures v == Str(Digits(AtomicAt(Some(v)).value))
  {
    hide Digits, NatOf;
    DigitsOfNat(v.s);
  }

  lemma {:induction false} SharesIff(p: nat, rate: nat, feeRate: nat, c: nat, f: nat, r: nat, m: nat)
    ensures Shares(p, rate, feeRate, c, f, r, m) <==> IsSplit(p, rate, feeRate, c, f, r, m)
  {
  }

  /** The amounts of the economics, as numbers. */
  ghost predicate Read(t: Tool, e: Economics)
    requires t.Sells()
  {
    && e.payment == t.amount && e.bps == t.commissionBps && e.feeBps == t.feeBps
    && AtomicAt(Some(e.payment)).Some? && AtomicAt(Some(e.commission)).Some? && AtomicAt(Some(e.fee)).Some?
    && AtomicAt(Some(e.credit)).Some? && AtomicAt(Some(e.merchant)).Some?
    && IsSplit(AtomicAt(Some(e.payment)).value, t.commissionBps.n, t.feeBps.n, AtomicAt(Some(e.commission)).value,
               AtomicAt(Some(e.fee)).value, AtomicAt(Some(e.credit)).value, AtomicAt(Some(e.merchant)).value)
  }

  lemma {:induction false} ReadIsOf(t: Tool, e: Economics)
    requires t.Sells() && Read(t, e)
    ensures e.Of(t)
  {
    hide AtomicAt, Digits, Shares, IsSplit, IsAbove;
    var p, c, f := AtomicAt(Some(e.payment)).value, AtomicAt(Some(e.commission)).value, AtomicAt(Some(e.fee)).value;
    var r, m := AtomicAt(Some(e.credit)).value, AtomicAt(Some(e.merchant)).value;
    ShapeOf(e.payment);
    ShapeOf(e.commission);
    ShapeOf(e.fee);
    ShapeOf(e.credit);
    ShapeOf(e.merchant);
    SharesIff(p, t.commissionBps.n, t.feeBps.n, c, f, r, m);
    assert e.OfBy(t, p, c, f, r, m);
  }

  lemma {:induction false} OfIsRead(t: Tool, e: Economics)
    requires t.Sells() && e.Of(t)
    ensures Read(t, e)
  {
    hide AtomicAt, Digits, Shares, IsSplit, IsAbove;
    var p, c, f, r, m :| e.OfBy(t, p, c, f, r, m);
    ValueOf(e.payment, p);
    ValueOf(e.commission, c);
    ValueOf(e.fee, f);
    ValueOf(e.credit, r);
    ValueOf(e.merchant, m);
    SharesIff(p, t.commissionBps.n, t.feeBps.n, c, f, r, m);
  }

  lemma {:induction false} EconomicsIff(t: Tool, e: Economics)
    requires t.Sells()
    ensures EconomicsOk(Some(Obj(e.Members())), Some(Obj(t.Members()))) <==> e.Of(t)
  {
    hide At, AtomicAt, PositiveAt, IsSplit, IsAbove, Economics.Of, Economics.Members, Tool.Members, Tool.Call, Tool.Terms, Tool.Campaign;
    ToolAt(t);
    TermsAt(t);
    CampaignAt(t);
    EconomicsAt(e);
    PriceIsAmount(t);
    RateIs(t.commissionBps);
    RateIs(t.feeBps);
    if AtomicAt(Some(e.payment)) == AtomicAt(Some(t.amount)) {
      ShapeOf(e.payment);
      ShapeOf(t.amount);
    }
    assert EconomicsOk(Some(Obj(e.Members())), Some(Obj(t.Members()))) <==> Read(t, e);
    if Read(t, e) { ReadIsOf(t, e); }
    if e.Of(t) { OfIsRead(t, e); }
  }

  lemma RateIs(v: Json)
    requires IsRate(v)
    ensures BasisPoints(Some(v)) == Some(v.n)
  {
  }

  lemma PriceIsAmount(t: Tool)
    requires t.Sells()
    ensures PositiveAt(Some(t.amount)).Some? && PositiveAt(Some(t.amount)) == AtomicAt(Some(t.amount))
  {
    hide AtomicAt, IsAbove;
    AmountIff(t.amount);
  }

  /** A bundle with any values under its keys is accepted if and only if schema version and project are those of the
      demo, some tool is the paid one, the first such tool sells for a positive amount at rates in range, and
      the expected economics are the shares of that amount at those rates. */
  lemma {:induction false} BuiltIff(schemaVersion: Json, project: Json, tools: seq<Tool>, e: Economics)
    ensures BundleOk(Built(schemaVersion, project, tools, e)) <==>
              && schemaVersion == Str("split402.mcp-demo-bundle.v1") && project == Str("Split402")
              && exists i | IsPaidTool(tools, i) :: tools[i].Sells() && e.Of(tools[i])
  {
    hide At, ToolNamed, PaidTool, PaidToolOk, EconomicsOk, Built, Tool.Sells, Economics.Of, Tool.Members, Economics.Members;
    BuiltAt(schemaVersion, project, tools, e);
    if exists i :: IsPaidTool(tools, i) {
      var i :| IsPaidTool(tools, i);
      ToolIsFound(tools, i);
      SellsIff(tools[i]);
      if tools[i].Sells() { EconomicsIff(tools[i], e); }
      forall j | IsPaidTool(tools, j) ensures j == i { PaidToolOnce(tools, i, j); }
    } else {
      FirstOf(tools);
      NoToolIsFound(tools);
    }
  }

  lemma PaidToolOnce(tools: seq<Tool>, i: int, j: int)
    requires IsPaidTool(tools, i) && IsPaidTool(tools, j)
    ensures i == j
  {
  }

  lemma {:induction false} FirstOf(tools: seq<Tool>)
    requires forall i :: !IsPaidTool(tools, i)
    ensures forall i | 0 <= i < |tools| :: tools[i].name != Str("split402.walletRiskScore")
  {
    if tools != [] {
      var init := tools[..|tools| - 1];
      forall i ensures !IsPaidTool(init, i) { assert IsPaidTool(init, i) ==> IsPaidTool(tools, i); }
      FirstOf(init);
      assert forall i | 0 <= i < |init| :: init[i] == tools[i];
      assert !IsPaidTool(tools, |tools| - 1);
    }
  }
}
