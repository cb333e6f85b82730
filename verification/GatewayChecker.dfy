/** The checker of the MCP gateway transcript: it decides from the log alone, with other code. */
module GatewayChecker {
  import opened Text
  import opened Json
  import opened JsonRead
  import opened GatewayMessages
  import Lines

  // --- finding messages ------------------------------------------------------------------------------------------

  /** The tests of a request that the checker searches by. */
  datatype Query = ByMethod(step: Step) | ByTool(step: Step) | ByReceipt(receiptId: string)

  /** `readToolCallName`. */
  function ToolCallName(message: Json): Option<Json> {
    if At(Some(message), "method") != Some(Str(MethodOf(Search))) then None
    else At(At(Some(message), "params"), "name")
  }

  /** `readToolCallArguments`. */
  function ToolCallArguments(message: Json): Option<Json> {
    if At(Some(message), "method") != Some(Str(MethodOf(Search))) then None
    else At(At(Some(message), "params"), "arguments")
  }

  predicate Matches(message: Json, q: Query) {
    match q
    case ByMethod(step) => At(Some(message), "method") == Some(Str(MethodOf(step)))
    case ByTool(step) => IsToolCall(step) && ToolCallName(message) == Some(Str(ToolName(step)))
    case ByReceipt(id) =>
      && ToolCallName(message) == Some(Str(ToolName(GetReceipt)))
      && At(ToolCallArguments(message), "receiptId") == Some(Str(id))
  }

  /** `findRequest`. */
  function FindRequest(lines: seq<Line>, q: Query): Option<Json> {
    if lines == [] then None
    else if lines[0].Request? && Matches(lines[0].message, q) then Some(lines[0].message)
    else FindRequest(lines[1..], q)
  }

  /** `a === b`; objects and arrays of different lines are never the same. */
  predicate Same(a: Option<Json>, b: Option<Json>) {
    a == b && (a.Some? ==> !a.value.Obj? && !a.value.Arr?)
  }

  predicate Answers(line: Line, id: Option<Json>) {
    line.Response? && Same(At(Some(line.message), "id"), id) && NoError(line.message)
  }

  /** `findResponse`. */
  function FindResponse(lines: seq<Line>, id: Option<Json>): Option<Json> {
    if lines == [] then None
    else if Answers(lines[0], id) then Some(lines[0].message)
    else FindResponse(lines[1..], id)
  }

  function Reply(lines: seq<Line>, q: Query): Option<Json> {
    match FindRequest(lines, q)
    case None => None
    case Some(message) => FindResponse(lines, At(Some(message), "id"))
  }

  // --- what a request and its answer hold ----------------------------------------------------------------------------

  function RequestArguments(request: Option<Json>): Option<Json> {
    match request
    case None => None
    case Some(message) => ToolCallArguments(message)
  }

  function CapabilityOf(request: Option<Json>): Option<string> {
    NonEmpty(At(RequestArguments(request), "capability"))
  }

  function BudgetOf(request: Option<Json>): Option<string> {
    NonEmpty(At(At(RequestArguments(request), "budget"), "maxAmountAtomic"))
  }

  /** The capabilities of the search answer. */
  function Capabilities(lines: seq<Line>): seq<Json> {
    Elements(At(Content(Reply(lines, ByTool(Search))), "capabilities"))
  }

  /** The last capability with this provider id. */
  function LastById(capabilities: seq<Json>, providerId: string): (r: Option<Json>)
    ensures r.Some? ==> NonEmpty(At(r, "providerId")) == Some(providerId)
  {
    if capabilities == [] then None
    else if NonEmpty(At(Some(capabilities[|capabilities| - 1]), "providerId")) == Some(providerId)
    then Some(capabilities[|capabilities| - 1])
    else LastById(capabilities[..|capabilities| - 1], providerId)
  }

  /** The first entry ranked 1. */
  function FirstRanked(ranked: seq<Json>): Option<Json> {
    if ranked == [] then None
    else if At(Some(ranked[0]), "rank") == Some(Int(1)) then Some(ranked[0])
    else FirstRanked(ranked[1..])
  }

  predicate OffersTool(tools: seq<Json>, step: Step)
    requires IsToolCall(step)
  {
    exists i | 0 <= i < |tools| :: At(Some(tools[i]), "name") == Some(Str(ToolName(step)))
  }

  /** The amount of a provider record, if it is positive. */
  function AmountOf(provider: Option<Json>): Option<nat> {
    PositiveAt(At(provider, KeyOf(Amount)))
  }

  /** A provider record with every field and a positive amount. */
  predicate Usable(provider: Option<Json>) {
    ReadProvider(provider).Some? && AmountOf(provider).Some?
  }

  predicate AgreeOn(a: Option<Json>, b: Option<Json>, f: Field) {
    f != Amount && FieldAt(a, f).Some? && FieldAt(b, f).Some? ==> FieldAt(a, f) == FieldAt(b, f)
  }

  /** How the checker compares two provider records: where both sides can be read, amounts as numbers. */
  predicate AgreeWhereReadable(a: Option<Json>, b: Option<Json>) {
    && (forall f: Field :: AgreeOn(a, b, f))
    && (AmountOf(a).Some? && AmountOf(b).Some? ==> AmountOf(a) == AmountOf(b))
  }

  /** An amount that, if it can be read, is n. */
  predicate ReadsAs(amount: Option<nat>, n: Option<nat>) {
    amount.Some? && n.Some? ==> amount == n
  }

  /** The field of a usable record. */
  lemma UsableAmount(v: Option<Json>)
    requires Usable(v)
    ensures var amount := ReadProvider(v).value[Amount];
            IsCanonical(amount) && AmountOf(v) == Some(NatOf(amount)) && amount == Digits(NatOf(amount))
  {
    hide At, KeyOf, NatOf;
    assert FieldAt(v, Amount) == Some(ReadProvider(v).value[Amount]);
    DigitsOfNat(ReadProvider(v).value[Amount]);
  }

  /** Between usable records the guarded comparisons are equality of the summaries, texts and all. */
  lemma AgreementIsEquality(a: Option<Json>, b: Option<Json>)
    requires Usable(a) && Usable(b)
    ensures AgreeWhereReadable(a, b) <==> ReadProvider(a) == ReadProvider(b)
  {
    hide At, KeyOf, NatOf, PositiveAt, Digits, FieldAt, ReadProvider, IsCanonical;
    var x, y := ReadProvider(a).value, ReadProvider(b).value;
    UsableAmount(a);
    UsableAmount(b);
    if AgreeWhereReadable(a, b) {
      forall f: Field ensures x[f] == y[f] {
        assert AgreeOn(a, b, f) && FieldAt(a, f) == Some(x[f]) && FieldAt(b, f) == Some(y[f]);
      }
      assert x == y;
    }
  }

  // --- what the checker accepts ----------------------------------------------------------------------------------------

  predicate ToolsOk(lines: seq<Line>) {
    var answer := Reply(lines, ByMethod(ListTools));
    && answer.Some?
    && forall step | step in TOOL_CALLS && IsToolCall(step) :: OffersTool(Elements(At(At(answer, "result"), "tools")), step)
  }

  /** Some capability has a provider id. */
  predicate HasProviders(lines: seq<Line>) {
    exists i | 0 <= i < |Capabilities(lines)| :: NonEmpty(At(Some(Capabilities(lines)[i]), "providerId")).Some?
  }

  predicate SearchOk(lines: seq<Line>) {
    var request := FindRequest(lines, ByTool(Search));
    && request.Some? && CapabilityOf(request).Some? && BudgetOf(request).Some?
    && HasProviders(lines)
  }

  /** A request with a capability and a budget: those of the search, where the search has them. */
  predicate SameTerms(lines: seq<Line>, step: Step) {
    var request, search := FindRequest(lines, ByTool(step)), FindRequest(lines, ByTool(Search));
    && request.Some? && CapabilityOf(request).Some? && BudgetOf(request).Some?
    && (CapabilityOf(search).Some? ==> CapabilityOf(request) == CapabilityOf(search))
    && (BudgetOf(search).Some? ==> BudgetOf(request) == BudgetOf(search))
  }

  function ContentOf(lines: seq<Line>, step: Step): Option<Json> {
    Content(Reply(lines, ByTool(step)))
  }

  predicate QuoteContentOk(content: Option<Json>) {
    var providerId, provider := NonEmpty(At(content, "providerId")), At(content, "provider");
    var quoted := PositiveAt(At(content, "quotedAmountAtomic"));
    && providerId.Some? && NonEmpty(At(content, "quotedAmountAtomic")).Some?
    && At(content, "executionMode") == Some(Str(ModeText(LiveSdk)))
    && Count(At(content, "maxAttempts")).Some?
    && Usable(provider) && FieldAt(provider, ProviderId) == providerId
    && ReadsAs(quoted, AmountOf(provider))
    && RankedOk(Elements(At(content, "rankedProviders")), providerId, quoted)
  }

  predicate RankedOk(ranked: seq<Json>, providerId: Option<string>, quoted: Option<nat>) {
    var first := FirstRanked(ranked);
    && first.Some?
    && (providerId.Some? ==> NonEmpty(At(first, "providerId")) == providerId)
    && ReadsAs(PositiveAt(At(first, "amountAtomic")), quoted)
  }

  predicate QuoteOk(lines: seq<Line>) {
    SameTerms(lines, Quote) && QuoteContentOk(ContentOf(lines, Quote))
  }

  /** The receipt was verified and recorded by the buyer. */
  predicate RecordingOk(content: Option<Json>) {
    && At(content, "receiptVerificationStatus") == Some(Str("verified"))
    && At(content, "receiptRecordingStatus") in {Some(Str("created")), Some(Str("duplicate"))}
    && At(content, "receiptRecordingSource") == Some(Str("buyer"))
  }

  predicate ExecuteContentOk(content: Option<Json>) {
    && NonEmpty(At(content, "providerId")).Some? && NonEmpty(At(content, "amountPaidAtomic")).Some?
    && NonEmpty(At(content, "receiptId")).Some? && PositiveAt(At(content, "referrerCreditAtomic")).Some?
    && RecordingOk(content)
    && At(content, "executionMode") == Some(Str(ModeText(LiveSdk)))
    && Usable(At(content, "provider"))
    && FieldAt(At(content, "provider"), ProviderId) == NonEmpty(At(content, "providerId"))
  }

  /** The capability of the provider that was executed. */
  function Selected(lines: seq<Line>): Option<Json> {
    match NonEmpty(At(ContentOf(lines, Execute), "providerId"))
    case None => None
    case Some(id) => LastById(Capabilities(lines), id)
  }

  predicate ProvidersOk(lines: seq<Line>) {
    var quoted, executed, selected :=
      At(ContentOf(lines, Quote), "provider"), At(ContentOf(lines, Execute), "provider"), Selected(lines);
    Usable(selected) && ReadProvider(executed) == ReadProvider(selected) && ReadProvider(quoted) == ReadProvider(selected)
  }

  predicate PaymentOk(lines: seq<Line>) {
    var paid := AtomicAt(At(ContentOf(lines, Execute), "amountPaidAtomic"));
    var quoted := PositiveAt(At(ContentOf(lines, Quote), "quotedAmountAtomic"));
    var budget := BudgetOf(FindRequest(lines, ByTool(Execute)));
    && ReadsAs(quoted, paid)
    && (paid.Some? && budget.Some? && Atomic(budget.value).Some? ==> paid.value <= Atomic(budget.value).value)
  }

  predicate ExecuteOk(lines: seq<Line>) {
    SameTerms(lines, Execute) && ExecuteContentOk(ContentOf(lines, Execute)) && ProvidersOk(lines) && PaymentOk(lines)
  }

  function ReceiptContent(lines: seq<Line>): Option<Json> {
    match NonEmpty(At(ContentOf(lines, Execute), "receiptId"))
    case None => None
    case Some(id) => Content(Reply(lines, ByReceipt(id)))
  }

  /** The fields the checker compares between receipt and providers. */
  const RAW_TERMS: seq<Field> := [Network, Asset, PayToWallet, MerchantOrigin, OperationId, CampaignId]
  const READ_TERMS: seq<Field> := [RouteId, ReferrerWallet, PayoutWallet]

  predicate TermsOk(receipt: Option<Json>, provider: Option<Json>) {
    forall f | f in RAW_TERMS + READ_TERMS :: NonEmpty(At(receipt, KeyOf(f))) == FieldAt(provider, f)
  }

  predicate EconomicsOk(receipt: Option<Json>) {
    var commission, fee := PositiveAt(At(receipt, "commissionAmountAtomic")), AtomicAt(At(receipt, "protocolFeeAtomic"));
    var bps, feeBps := BasisPoints(At(receipt, "commissionBps")), BasisPoints(At(receipt, "protocolFeeBpsOfCommission"));
    var required, credit := AtomicAt(At(receipt, "requiredAmountAtomic")), AtomicAt(At(receipt, "referrerCreditAtomic"));
    && commission.Some? && bps.Some? && bps.value != 0 && feeBps.Some? && fee.Some?
    && (required.Some? ==> commission.value == required.value * bps.value / BPS_DENOMINATOR)
    && fee.value == commission.value * feeBps.value / BPS_DENOMINATOR
    && (credit.Some? ==> commission.value - fee.value == credit.value)
  }

  predicate ReceiptRecordOk(execute: Option<Json>, receipt: Option<Json>) {
    && At(receipt, "receiptId") == At(execute, "receiptId")
    && At(receipt, "referrerCreditAtomic") == At(execute, "referrerCreditAtomic")
    && At(receipt, "requiredAmountAtomic") == At(execute, "amountPaidAtomic")
    && ReadsAs(AtomicAt(At(execute, "amountPaidAtomic")), AmountOf(At(execute, "provider")))
    && TermsOk(receipt, At(execute, "provider"))
    && EconomicsOk(receipt)
  }

  predicate ReceiptOk(lines: seq<Line>) {
    var execute := ContentOf(lines, Execute);
    && At(ReceiptContent(lines), "receiptId") == At(execute, "receiptId")
    && ReceiptRecordOk(execute, At(ReceiptContent(lines), "receipt"))
  }

  /** Exactly the transcripts without a blocker. */
  predicate Accepted(lines: seq<Line>) {
    && Reply(lines, ByMethod(Initialize)).Some? && ToolsOk(lines) && SearchOk(lines)
    && QuoteOk(lines) && ExecuteOk(lines) && ReceiptOk(lines)
  }

  // --- the checker --------------------------------------------------------------------------------------------------------

  method CheckInitialize(lines: seq<Line>) returns (added: seq<Blocker>)
    ensures added == [] <==> Reply(lines, ByMethod(Initialize)).Some?
  {
    var request := FindRequest(lines, ByMethod(Initialize));
    if request.None? {
      added := [NoRequest(Initialize)];
    } else if FindResponse(lines, At(request, "id")).None? {
      added := [NoResponse(Initialize)];
    } else {
      added := [];
    }
  }

  method CheckTools(lines: seq<Line>) returns (added: seq<Blocker>)
    ensures added == [] <==> ToolsOk(lines)
  {
    hide FindRequest, FindResponse, OffersTool;
    var request := FindRequest(lines, ByMethod(ListTools));
    if request.None? {
      return [NoRequest(ListTools)];
    }
    var answer := FindResponse(lines, At(request, "id"));
    if answer.None? {
      return [NoResponse(ListTools)];
    }
    var tools := Elements(At(At(answer, "result"), "tools"));
    added := [];
    for i := 0 to |TOOL_CALLS|
      invariant added == [] <==> forall j | 0 <= j < i :: OffersTool(tools, TOOL_CALLS[j])
    {
      if !OffersTool(tools, TOOL_CALLS[i]) { added := added + [NoTool(TOOL_CALLS[i])]; }
    }
  }

  ghost predicate Indexed(capabilities: seq<Json>, providers: map<string, Json>) {
    && (forall id :: LastById(capabilities, id).Some? ==> id in providers)
    && (forall id | id in providers :: LastById(capabilities, id) == Some(providers[id]))
  }

  /** The capabilities by provider id; a later one replaces an earlier one. */
  method ProvidersById(capabilities: seq<Json>) returns (providers: map<string, Json>)
    ensures Indexed(capabilities, providers)
    ensures providers != map[] <==> exists i | 0 <= i < |capabilities| :: NonEmpty(At(Some(capabilities[i]), "providerId")).Some?
  {
    hide At, NonEmpty;
    providers := map[];
    for i := 0 to |capabilities|
      invariant Indexed(capabilities[..i], providers)
      invariant providers != map[] <==> exists j | 0 <= j < i :: NonEmpty(At(Some(capabilities[j]), "providerId")).Some?
    {
      var id := NonEmpty(At(Some(capabilities[i]), "providerId"));
      assert capabilities[..i + 1][..i] == capabilities[..i];
      if id.Some? {
        providers := providers[id.value := capabilities[i]];
        assert id.value in providers;
      }
    }
    assert capabilities[..|capabilities|] == capabilities;
  }

  lemma NoneIndexed()
    ensures Indexed([], map[])
  {
  }

  lemma NoCapabilities(lines: seq<Line>)
    requires FindRequest(lines, ByTool(Search)).None?
    ensures Capabilities(lines) == []
  {
  }

  method CheckSearch(lines: seq<Line>) returns (added: seq<Blocker>, providers: map<string, Json>)
    ensures added == [] <==> SearchOk(lines)
    ensures Indexed(Capabilities(lines), providers) && (providers != map[] <==> HasProviders(lines))
  {
    hide FindRequest, FindResponse, At, NonEmpty, CapabilityOf, BudgetOf, LastById;
    added, providers := [], map[];
    var request := FindRequest(lines, ByTool(Search));
    NoneIndexed();
    if request.None? {
      NoCapabilities(lines);
      added := [NoRequest(Search)];
      return;
    }
    if CapabilityOf(request).None? { added := added + [Missing(Arguments(Search), "capability")]; }
    if BudgetOf(request).None? { added := added + [Missing(Arguments(Search), "maxAmountAtomic")]; }
    var capabilities := Elements(At(Content(FindResponse(lines, At(request, "id"))), "capabilities"));
    assert capabilities == Capabilities(lines);
    if capabilities == [] {
      added := added + [Missing(Answer(Search), "capabilities")];
    } else {
      providers := ProvidersById(capabilities);
      if providers == map[] { added := added + [Missing(Answer(Search), "providerId")]; }
    }
  }

  /** The tests that quote and execute requests ask for what the search asked for. */
  method CheckTerms(lines: seq<Line>, step: Step, request: Json) returns (added: seq<Blocker>)
    requires FindRequest(lines, ByTool(step)) == Some(request)
    ensures added == [] <==> SameTerms(lines, step)
  {
    hide FindRequest, CapabilityOf, BudgetOf, Capabilities;
    var search := FindRequest(lines, ByTool(Search));
    var capability, searched := CapabilityOf(Some(request)), CapabilityOf(search);
    added := [];
    if capability.None? {
      added := added + [Missing(Arguments(step), "capability")];
    } else if searched.Some? && capability != searched {
      added := added + [Unequal(Arguments(step), "capability", Arguments(Search))];
    }
    var budget, searchedBudget := BudgetOf(Some(request)), BudgetOf(search);
    if budget.None? {
      added := added + [Missing(Arguments(step), "maxAmountAtomic")];
    } else if searchedBudget.Some? && budget != searchedBudget {
      added := added + [Unequal(Arguments(step), "maxAmountAtomic", Arguments(Search))];
    }
  }

  /** The tests of a provider record: every field can be read and the amount is positive. */
  method CheckProvider(provider: Option<Json>, subject: Subject) returns (added: seq<Blocker>)
    ensures added == [] <==> Usable(provider)
  {
    hide KeyOf, FieldAt;
    if !IsRecord(provider) {
      NotARecord(provider);
      return [Missing(subject, "provider")];
    }
    added := [];
    for i := 0 to |FIELDS|
      invariant added == [] <==> forall j | 0 <= j < i ::
                  if FIELDS[j] == Amount then AmountOf(provider).Some? else FieldAt(provider, FIELDS[j]).Some?
    {
      if FIELDS[i] == Amount {
        if AmountOf(provider).None? { added := added + [Rejected(subject, KeyOf(Amount))]; }
      } else if FieldAt(provider, FIELDS[i]).None? {
        added := added + [Missing(subject, KeyOf(FIELDS[i]))];
      }
    }
    FieldsAreAll();
    assert FIELDS[6] == Amount;
    if added == [] {
      AmountIsField(provider);
      forall f: Field ensures FieldAt(provider, f).Some? { assert f in FIELDS; }
    }
  }

  lemma NotARecord(provider: Option<Json>)
    requires !IsRecord(provider)
    ensures !Usable(provider)
  {
    assert FieldAt(provider, Network).None?;
  }

  lemma AmountIsField(provider: Option<Json>)
    ensures AmountOf(provider).Some? ==> FieldAt(provider, Amount).Some?
  {
  }

  /** The loop over the fields of two provider records, and the comparison of their amounts. */
  method CompareRecords(a: Option<Json>, b: Option<Json>, left: Subject, right: Subject) returns (added: seq<Blocker>)
    ensures added == [] <==> AgreeWhereReadable(a, b)
  {
    hide KeyOf, FieldAt, PositiveAt;
    added := [];
    for i := 0 to |FIELDS|
      invariant added == [] <==> forall j | 0 <= j < i :: AgreeOn(a, b, FIELDS[j])
    {
      var f := FIELDS[i];
      if f != Amount && FieldAt(a, f).Some? && FieldAt(b, f).Some? && FieldAt(a, f) != FieldAt(b, f) {
        added := added + [Unequal(left, KeyOf(f), right)];
      }
    }
    FieldsAreAll();
    if added == [] {
      forall f: Field ensures AgreeOn(a, b, f) { assert f in FIELDS; }
    }
    if AmountOf(a).Some? && AmountOf(b).Some? && AmountOf(a) != AmountOf(b) {
      added := added + [Unequal(left, KeyOf(Amount), right)];
    }
  }

  /** The tests of the ranked entries of a quote. */
  method CheckRanked(content: Option<Json>, providerId: Option<string>, quoted: Option<nat>) returns (added: seq<Blocker>)
    ensures added == [] <==> RankedOk(Elements(At(content, "rankedProviders")), providerId, quoted)
  {
    hide At, NonEmpty, PositiveAt;
    var ranked := Elements(At(content, "rankedProviders"));
    var first := FirstRanked(ranked);
    if ranked == [] {
      return [Missing(Answer(Quote), "rankedProviders")];
    } else if first.None? {
      return [Rejected(RankedProvider, "rank")];
    }
    added := [];
    var amount := PositiveAt(At(first, "amountAtomic"));
    if providerId.Some? && NonEmpty(At(first, "providerId")) != providerId {
      added := added + [Missing(RankedProvider, "providerId")];
    }
    if quoted.Some? && amount.Some? && amount.value != quoted.value {
      added := added + [Unequal(RankedProvider, "amountAtomic", Answer(Quote))];
    }
  }

  method CheckQuoteContent(content: Option<Json>) returns (added: seq<Blocker>)
    ensures added == [] <==> QuoteContentOk(content)
  {
    hide NonEmpty, PositiveAt, ModeText, Count, Usable, FieldAt, RankedOk, At;
    var subject := Answer(Quote);
    if !IsRecord(content) {
      NoRecordNoKey(content, "providerId");
      return [Missing(subject, "structuredContent")];
    }
    var providerId, provider := NonEmpty(At(content, "providerId")), At(content, "provider");
    var quoted := PositiveAt(At(content, "quotedAmountAtomic"));
    added := [];
    if providerId.None? { added := added + [Missing(subject, "providerId")]; }
    if NonEmpty(At(content, "quotedAmountAtomic")).None? { added := added + [Missing(subject, "quotedAmountAtomic")]; }
    if At(content, "executionMode") != Some(Str(ModeText(LiveSdk))) { added := added + [Rejected(subject, "executionMode")]; }
    if Count(At(content, "maxAttempts")).None? { added := added + [Missing(subject, "maxAttempts")]; }
    var fields := CheckProvider(provider, QuoteProvider);
    added := added + fields;
    UsableFields(provider);
    var id := FieldAt(provider, ProviderId);
    if id.Some? && providerId.Some? && id != providerId { added := added + [Unequal(QuoteProvider, "providerId", subject)]; }
    var amount := AmountOf(provider);
    if quoted.Some? && amount.Some? && quoted.value != amount.value {
      added := added + [Unequal(subject, "quotedAmountAtomic", QuoteProvider)];
    }
    var ranked := CheckRanked(content, providerId, quoted);
    added := added + ranked;
  }

  lemma NoRecordNoKey(content: Option<Json>, key: string)
    requires !IsRecord(content)
    ensures NonEmpty(At(content, key)).None?
  {
  }

  lemma UsableFields(provider: Option<Json>)
    ensures Usable(provider) ==> FieldAt(provider, ProviderId).Some? && AmountOf(provider).Some?
  {
  }

  method CheckQuote(lines: seq<Line>) returns (added: seq<Blocker>)
    ensures added == [] <==> QuoteOk(lines)
  {
    hide QuoteContentOk, FindRequest, FindResponse, Content, CapabilityOf, BudgetOf;
    var request := FindRequest(lines, ByTool(Quote));
    if request.None? {
      return [NoRequest(Quote)];
    }
    var terms := CheckTerms(lines, Quote, request.value);
    var content := CheckQuoteContent(Content(FindResponse(lines, At(request, "id"))));
    added := terms + content;
  }

  method CheckRecording(content: Option<Json>) returns (added: seq<Blocker>)
    ensures added == [] <==> RecordingOk(content)
  {
    hide At;
    var subject := Answer(Execute);
    added := [];
    if At(content, "receiptVerificationStatus") != Some(Str("verified")) {
      added := added + [Rejected(subject, "receiptVerificationStatus")];
    }
    if At(content, "receiptRecordingStatus") !in {Some(Str("created")), Some(Str("duplicate"))} {
      added := added + [Rejected(subject, "receiptRecordingStatus")];
    }
    if At(content, "receiptRecordingSource") != Some(Str("buyer")) {
      added := added + [Rejected(subject, "receiptRecordingSource")];
    }
  }

  method CheckExecuteContent(content: Option<Json>) returns (added: seq<Blocker>)
    ensures added == [] <==> ExecuteContentOk(content)
  {
    hide NonEmpty, PositiveAt, ModeText, Usable, FieldAt, At, AtomicAt, RecordingOk;
    var subject := Answer(Execute);
    if !IsRecord(content) {
      NoRecordNoKey(content, "providerId");
      return [Missing(subject, "structuredContent")];
    }
    added := [];
    var providerId, provider := NonEmpty(At(content, "providerId")), At(content, "provider");
    if providerId.None? { added := added + [Missing(subject, "providerId")]; }
    if NonEmpty(At(content, "amountPaidAtomic")).None? { added := added + [Missing(subject, "amountPaidAtomic")]; }
    if NonEmpty(At(content, "receiptId")).None? { added := added + [Missing(subject, "receiptId")]; }
    var credit := At(content, "referrerCreditAtomic");
    PositiveIsText(credit);
    if NonEmpty(credit).None? { added := added + [Missing(subject, "referrerCreditAtomic")]; }
    if PositiveAt(credit).None? { added := added + [Rejected(subject, "referrerCreditAtomic")]; }
    var recording := CheckRecording(content);
    added := added + recording;
    if At(content, "executionMode") != Some(Str(ModeText(LiveSdk))) { added := added + [Rejected(subject, "executionMode")]; }
    var fields := CheckProvider(provider, ExecuteProvider);
    added := added + fields;
    UsableFields(provider);
    var id := FieldAt(provider, ProviderId);
    if id.Some? && providerId.Some? && id != providerId { added := added + [Unequal(ExecuteProvider, "providerId", subject)]; }
  }

  lemma PositiveIsText(v: Option<Json>)
    ensures PositiveAt(v).Some? ==> NonEmpty(v).Some? && PositiveAt(v) == AtomicAt(v)
  {
  }

  /** The three provider records are not found to differ, whatever was found before. */
  predicate ProvidersPass(lines: seq<Line>) {
    var quoted, executed, selected :=
      At(ContentOf(lines, Quote), "provider"), At(ContentOf(lines, Execute), "provider"), Selected(lines);
    && (HasProviders(lines) && NonEmpty(At(ContentOf(lines, Execute), "providerId")).Some? ==> selected.Some?)
    && (selected.Some? ==> Usable(selected) && AgreeWhereReadable(executed, selected) && AgreeWhereReadable(quoted, selected))
    && AgreeWhereReadable(quoted, executed)
  }

  /** The tests of the three provider records against each other. */
  method CheckProviders(lines: seq<Line>, providers: map<string, Json>) returns (added: seq<Blocker>)
    requires Indexed(Capabilities(lines), providers) && (providers != map[] <==> HasProviders(lines))
    ensures added == [] <==> ProvidersPass(lines)
  {
    hide At, NonEmpty, Capabilities, LastById, ContentOf, FieldAt, Usable, ReadProvider, AgreeWhereReadable, HasProviders, Indexed;
    var quoteProvider, executeProvider := At(ContentOf(lines, Quote), "provider"), At(ContentOf(lines, Execute), "provider");
    var id := NonEmpty(At(ContentOf(lines, Execute), "providerId"));
    var selected := FindSelected(lines, providers);
    added := [];
    if id.Some? && selected.None? && providers != map[] { added := added + [Missing(SelectedProvider, "providerId")]; }
    if selected.Some? {
      var fields := CheckProvider(selected, SelectedProvider);
      var executed := CompareRecords(executeProvider, selected, ExecuteProvider, SelectedProvider);
      var quoted := CompareRecords(quoteProvider, selected, QuoteProvider, SelectedProvider);
      added := added + fields + executed + quoted;
    }
    var both := CompareRecords(quoteProvider, executeProvider, QuoteProvider, ExecuteProvider);
    added := added + both;
  }

  /** After accepted search, quote and execute contents, that is equality of the three summaries. */
  lemma ProvidersPassIff(lines: seq<Line>)
    requires SearchOk(lines) && QuoteOk(lines) && ExecuteContentOk(ContentOf(lines, Execute))
    ensures ProvidersPass(lines) <==> ProvidersOk(lines)
  {
    hide At, NonEmpty, Capabilities, LastById, ContentOf, FieldAt, Usable, ReadProvider, AgreeWhereReadable, RankedOk, ModeText,
         RecordingOk, SameTerms, FindRequest, CapabilityOf, BudgetOf, PositiveAt, AmountOf, Selected;
    var quoted, executed, selected :=
      At(ContentOf(lines, Quote), "provider"), At(ContentOf(lines, Execute), "provider"), Selected(lines);
    if selected.Some? && Usable(selected) {
      AgreementIsEquality(executed, selected);
      AgreementIsEquality(quoted, selected);
      AgreementIsEquality(quoted, executed);
    } else if selected.None? {
      UnusableNone();
    }
  }

  lemma UnusableNone()
    ensures !Usable(None)
  {
    NotARecord(None);
  }

  /** Quote and execution do not name different providers. */
  predicate SameProviderId(lines: seq<Line>) {
    var quoted, executed := NonEmpty(At(ContentOf(lines, Quote), "providerId")), NonEmpty(At(ContentOf(lines, Execute), "providerId"));
    quoted.Some? && executed.Some? ==> quoted == executed
  }

  /** The tests of the paid amount, and of the provider that was paid. */
  method CheckPayment(lines: seq<Line>) returns (added: seq<Blocker>)
    ensures added == [] <==> SameProviderId(lines) && PaymentOk(lines)
  {
    hide At, NonEmpty, ContentOf, PositiveAt, AtomicAt, Atomic, FindRequest, BudgetOf;
    var quote, execute := ContentOf(lines, Quote), ContentOf(lines, Execute);
    var paid := AtomicAt(At(execute, "amountPaidAtomic"));
    var budget := BudgetOf(FindRequest(lines, ByTool(Execute)));
    var limit := if budget.None? then None else Atomic(budget.value);
    added := [];
    if paid.Some? && limit.Some? && paid.value > limit.value {
      added := added + [Rejected(Answer(Execute), "amountPaidAtomic")];
    }
    var quotedId, id := NonEmpty(At(quote, "providerId")), NonEmpty(At(execute, "providerId"));
    if quotedId.Some? && id.Some? && quotedId != id {
      added := added + [Unequal(Answer(Execute), "providerId", Answer(Quote))];
    }
    var quoted := PositiveAt(At(quote, "quotedAmountAtomic"));
    if quoted.Some? && paid.Some? && quoted.value != paid.value {
      added := added + [Unequal(Answer(Execute), "amountPaidAtomic", Answer(Quote))];
    }
  }

  /** Equal provider records name the same provider. */
  lemma ProvidersNameOne(lines: seq<Line>)
    requires QuoteOk(lines) && ExecuteContentOk(ContentOf(lines, Execute)) && ProvidersOk(lines)
    ensures SameProviderId(lines)
  {
    hide At, NonEmpty, ContentOf, FieldAt, AmountOf, ReadProvider, Selected, PositiveAt, RankedOk, ModeText, SameTerms, RecordingOk;
    SameSummarySameId(At(ContentOf(lines, Quote), "provider"), At(ContentOf(lines, Execute), "provider"));
  }

  lemma SameSummarySameId(a: Option<Json>, b: Option<Json>)
    requires ReadProvider(a).Some? && ReadProvider(a) == ReadProvider(b)
    ensures forall f: Field :: FieldAt(a, f) == FieldAt(b, f) && FieldAt(a, f).Some?
  {
    hide FieldAt, ReadProvider;
    forall f: Field ensures FieldAt(a, f) == FieldAt(b, f) && FieldAt(a, f).Some? {
      assert FieldAt(a, f) == Some(ReadProvider(a).value[f]) && FieldAt(b, f) == Some(ReadProvider(b).value[f]);
    }
  }

  /** The execution passes its tests, whatever was found before. */
  predicate ExecutePass(lines: seq<Line>) {
    && SameTerms(lines, Execute) && ExecuteContentOk(ContentOf(lines, Execute))
    && ProvidersPass(lines) && SameProviderId(lines) && PaymentOk(lines)
  }

  method CheckExecute(lines: seq<Line>, providers: map<string, Json>) returns (added: seq<Blocker>)
    requires Indexed(Capabilities(lines), providers) && (providers != map[] <==> HasProviders(lines))
    ensures added == [] <==> ExecutePass(lines)
  {
    hide ExecuteContentOk, FindRequest, FindResponse, Content, ProvidersPass, PaymentOk, SameProviderId, LastById, Capabilities,
         CapabilityOf, BudgetOf, SameTerms, HasProviders;
    var request := FindRequest(lines, ByTool(Execute));
    if request.None? {
      NotAsked(lines, Execute);
      return [NoRequest(Execute)];
    }
    var terms := CheckTerms(lines, Execute, request.value);
    var content := CheckExecuteContent(Content(FindResponse(lines, At(request, "id"))));
    assert Content(FindResponse(lines, At(request, "id"))) == ContentOf(lines, Execute);
    added := terms + content;
    if IsRecord(ContentOf(lines, Execute)) {
      var records := CheckProviders(lines, providers);
      var payment := CheckPayment(lines);
      added := added + records + payment;
    } else {
      ContentIsRecord(ContentOf(lines, Execute));
    }
  }

  /** After an accepted search and quote, the guards of the source are met. */
  lemma ExecutePassIff(lines: seq<Line>)
    requires SearchOk(lines) && QuoteOk(lines)
    ensures ExecutePass(lines) <==> ExecuteOk(lines)
  {
    hide SearchOk, QuoteOk, ExecuteContentOk, ProvidersPass, ProvidersOk, PaymentOk, SameProviderId, SameTerms, ContentOf;
    if ExecuteContentOk(ContentOf(lines, Execute)) {
      ProvidersPassIff(lines);
      if ProvidersOk(lines) { ProvidersNameOne(lines); }
    }
  }

  lemma NotAsked(lines: seq<Line>, step: Step)
    requires FindRequest(lines, ByTool(step)).None?
    ensures !SameTerms(lines, step)
  {
  }

  lemma ContentIsRecord(content: Option<Json>)
    ensures ExecuteContentOk(content) ==> IsRecord(content)
  {
    if !IsRecord(content) { NoRecordNoKey(content, "providerId"); }
  }

  // --- the receipt ----------------------------------------------------------------------------------------------------------

  /** A receipt field has the text that can be read in the provider. */
  predicate RawAgrees(receipt: Option<Json>, provider: Option<Json>, f: Field) {
    FieldAt(provider, f).Some? ==> At(receipt, KeyOf(f)) == Some(Str(FieldAt(provider, f).value))
  }

  lemma RawIsRead(receipt: Option<Json>, provider: Option<Json>, f: Field)
    requires FieldAt(provider, f).Some?
    ensures RawAgrees(receipt, provider, f) <==> NonEmpty(At(receipt, KeyOf(f))) == FieldAt(provider, f)
  {
    hide At, KeyOf;
  }

  /** The receipt is not found to differ from the two provider records. */
  predicate TermsPass(receipt: Option<Json>, executed: Option<Json>, selected: Option<Json>) {
    && (forall f | f in RAW_TERMS :: RawAgrees(receipt, selected, f) && RawAgrees(receipt, executed, f))
    && (forall f | f in READ_TERMS :: ReadAgrees(receipt, executed, selected, f))
  }

  method CheckReceiptTerms(receipt: Option<Json>, executed: Option<Json>, selected: Option<Json>) returns (added: seq<Blocker>)
    ensures added == [] <==> TermsPass(receipt, executed, selected)
  {
    hide At, KeyOf, FieldAt, NonEmpty, RawAgrees;
    added := [];
    for i := 0 to |RAW_TERMS|
      invariant added == [] <==> forall j | 0 <= j < i ::
                  RawAgrees(receipt, selected, RAW_TERMS[j]) && RawAgrees(receipt, executed, RAW_TERMS[j])
    {
      var f := RAW_TERMS[i];
      if !RawAgrees(receipt, selected, f) { added := added + [Unequal(Receipt, KeyOf(f), SelectedProvider)]; }
      if !RawAgrees(receipt, executed, f) { added := added + [Unequal(Receipt, KeyOf(f), ExecuteProvider)]; }
    }
    ghost var raw := added == [];
    for i := 0 to |READ_TERMS|
      invariant added == [] <==> raw && forall j | 0 <= j < i :: ReadAgrees(receipt, executed, selected, READ_TERMS[j])
    {
      var f := READ_TERMS[i];
      var value := NonEmpty(At(receipt, KeyOf(f)));
      if value.None? {
        added := added + [Missing(Receipt, KeyOf(f))];
      } else if FieldAt(selected, f).Some? && value != FieldAt(selected, f) {
        added := added + [Unequal(Receipt, KeyOf(f), SelectedProvider)];
      }
      if value.Some? && FieldAt(executed, f).Some? && value != FieldAt(executed, f) {
        added := added + [Unequal(Receipt, KeyOf(f), ExecuteProvider)];
      }
    }
  }

  /** With equal summaries on both sides, that is agreement on every compared field. */
  lemma TermsPassIff(receipt: Option<Json>, executed: Option<Json>, selected: Option<Json>)
    requires ReadProvider(executed).Some? && ReadProvider(executed) == ReadProvider(selected)
    ensures TermsPass(receipt, executed, selected) <==> TermsOk(receipt, executed)
  {
    hide At, KeyOf, FieldAt, NonEmpty, ReadProvider, RawAgrees, RAW_TERMS, READ_TERMS;
    SameSummarySameId(executed, selected);
    forall f: Field
      ensures RawAgrees(receipt, executed, f) <==> NonEmpty(At(receipt, KeyOf(f))) == FieldAt(executed, f)
      ensures RawAgrees(receipt, selected, f) <==> NonEmpty(At(receipt, KeyOf(f))) == FieldAt(executed, f)
      ensures ReadAgrees(receipt, executed, selected, f) <==> NonEmpty(At(receipt, KeyOf(f))) == FieldAt(executed, f)
    {
      RawIsRead(receipt, executed, f);
      RawIsRead(receipt, selected, f);
    }
  }

  predicate ReadAgrees(receipt: Option<Json>, executed: Option<Json>, selected: Option<Json>, f: Field) {
    var value := NonEmpty(At(receipt, KeyOf(f)));
    && value.Some?
    && (FieldAt(selected, f).Some? ==> value == FieldAt(selected, f))
    && (FieldAt(executed, f).Some? ==> value == FieldAt(executed, f))
  }

  method CheckReceiptEconomics(receipt: Option<Json>) returns (added: seq<Blocker>)
    ensures added == [] <==> EconomicsOk(receipt)
  {
    hide At, PositiveAt, AtomicAt, BasisPoints;
    added := [];
    var commission := PositiveAt(At(receipt, "commissionAmountAtomic"));
    if commission.None? { added := added + [Rejected(Receipt, "commissionAmountAtomic")]; }
    var bps := BasisPoints(At(receipt, "commissionBps"));
    if bps.None? || bps.value == 0 { added := added + [Rejected(Receipt, "commissionBps")]; }
    var feeBps := BasisPoints(At(receipt, "protocolFeeBpsOfCommission"));
    if feeBps.None? { added := added + [Rejected(Receipt, "protocolFeeBpsOfCommission")]; }
    var fee := AtomicAt(At(receipt, "protocolFeeAtomic"));
    if fee.None? { added := added + [Rejected(Receipt, "protocolFeeAtomic")]; }
    var required := AtomicAt(At(receipt, "requiredAmountAtomic"));
    if required.Some? && bps.Some? && commission.Some? && commission.value != required.value * bps.value / BPS_DENOMINATOR {
      added := added + [Unequal(Receipt, "commissionAmountAtomic", Receipt)];
    }
    if commission.Some? && feeBps.Some? && fee.Some? && fee.value != commission.value * feeBps.value / BPS_DENOMINATOR {
      added := added + [Unequal(Receipt, "protocolFeeAtomic", Receipt)];
    }
    var credit := AtomicAt(At(receipt, "referrerCreditAtomic"));
    if commission.Some? && fee.Some? && credit.Some? && commission.value - fee.value != credit.value {
      added := added + [Unequal(Receipt, "referrerCreditAtomic", Receipt)];
    }
  }

  /** The provider record that was searched for the executed id. */
  method FindSelected(lines: seq<Line>, providers: map<string, Json>) returns (selected: Option<Json>)
    requires Indexed(Capabilities(lines), providers)
    ensures selected == Selected(lines)
  {
    hide At, NonEmpty, Capabilities, LastById, ContentOf;
    var id := NonEmpty(At(ContentOf(lines, Execute), "providerId"));
    selected := if id.Some? && id.value in providers then Some(providers[id.value]) else None;
  }

  /** The receipt is not found to differ from the execute answer and the two provider records. */
  predicate RecordPass(execute: Option<Json>, receipt: Option<Json>, selected: Option<Json>) {
    var executed, paid := At(execute, "provider"), AtomicAt(At(execute, "amountPaidAtomic"));
    && At(receipt, "receiptId") == At(execute, "receiptId")
    && (NonEmpty(At(execute, "referrerCreditAtomic")).Some? ==>
          At(receipt, "referrerCreditAtomic") == At(execute, "referrerCreditAtomic"))
    && At(receipt, "requiredAmountAtomic") == At(execute, "amountPaidAtomic")
    && ReadsAs(AmountOf(executed), paid) && ReadsAs(AmountOf(selected), paid)
    && TermsPass(receipt, executed, selected) && EconomicsOk(receipt)
  }

  /** The tests of the paid amount against the amounts of the two provider records. */
  method CheckPaid(paid: Option<nat>, executed: Option<nat>, selected: Option<nat>) returns (added: seq<Blocker>)
    ensures added == [] <==> ReadsAs(executed, paid) && ReadsAs(selected, paid)
  {
    added := [];
    if executed.Some? && paid.Some? && executed != paid {
      added := added + [Unequal(Answer(Execute), "amountPaidAtomic", ExecuteProvider)];
    }
    if selected.Some? && paid.Some? && selected != paid {
      added := added + [Unequal(Answer(Execute), "amountPaidAtomic", SelectedProvider)];
    }
  }

  method CheckReceiptRecord(execute: Option<Json>, receipt: Option<Json>, selected: Option<Json>) returns (added: seq<Blocker>)
    ensures added == [] <==> RecordPass(execute, receipt, selected)
  {
    hide At, NonEmpty, PositiveAt, AtomicAt, TermsPass, EconomicsOk, AmountOf;
    added := [];
    if At(receipt, "receiptId") != At(execute, "receiptId") { added := added + [Unequal(Receipt, "receiptId", Answer(Execute))]; }
    var credit := NonEmpty(At(execute, "referrerCreditAtomic"));
    NonEmptyIs(At(execute, "referrerCreditAtomic"));
    if credit.Some? && At(receipt, "referrerCreditAtomic") != Some(Str(credit.value)) {
      added := added + [Unequal(Receipt, "referrerCreditAtomic", Answer(Execute))];
    }
    if At(receipt, "requiredAmountAtomic") != At(execute, "amountPaidAtomic") {
      added := added + [Unequal(Receipt, "requiredAmountAtomic", Answer(Execute))];
    }
    var executed := At(execute, "provider");
    var amounts := CheckPaid(AtomicAt(At(execute, "amountPaidAtomic")), AmountOf(executed), AmountOf(selected));
    var terms := CheckReceiptTerms(receipt, executed, selected);
    var economics := CheckReceiptEconomics(receipt);
    added := added + amounts + terms + economics;
  }

  /** After an accepted execution. */
  lemma RecordPassIff(execute: Option<Json>, receipt: Option<Json>, selected: Option<Json>)
    requires ExecuteContentOk(execute) && Usable(selected) && ReadProvider(At(execute, "provider")) == ReadProvider(selected)
    ensures RecordPass(execute, receipt, selected) <==> ReceiptRecordOk(execute, receipt)
  {
    hide At, NonEmpty, FieldAt, ReadProvider, PositiveAt, AtomicAt, TermsOk, TermsPass, EconomicsOk, AmountOf, ModeText, RecordingOk;
    var executed := At(execute, "provider");
    PositiveIsText(At(execute, "referrerCreditAtomic"));
    SameAmount(executed, selected);
    TermsPassIff(receipt, executed, selected);
  }

  /** The receipt passes its tests, whatever was found before; without a receipt id there are none. */
  predicate ReceiptPass(lines: seq<Line>) {
    var execute := ContentOf(lines, Execute);
    NonEmpty(At(execute, "receiptId")).Some? ==>
      && At(ReceiptContent(lines), "receiptId") == At(execute, "receiptId")
      && IsRecord(At(ReceiptContent(lines), "receipt"))
      && RecordPass(execute, At(ReceiptContent(lines), "receipt"), Selected(lines))
  }

  method CheckReceipt(lines: seq<Line>, providers: map<string, Json>) returns (added: seq<Blocker>)
    requires Indexed(Capabilities(lines), providers)
    ensures added == [] <==> ReceiptPass(lines)
  {
    hide At, NonEmpty, Capabilities, LastById, ContentOf, FindRequest, Reply, Content, RecordPass, Selected;
    var execute := ContentOf(lines, Execute);
    var id := NonEmpty(At(execute, "receiptId"));
    if id.None? {
      return [];
    }
    NonEmptyIs(At(execute, "receiptId"));
    var request := FindRequest(lines, ByReceipt(id.value));
    if request.None? {
      UnrequestedReceipt(lines, id.value);
      return [NoRequest(GetReceipt)];
    }
    var content := Content(Reply(lines, ByReceipt(id.value)));
    var receipt := At(content, "receipt");
    if At(content, "receiptId") != Some(Str(id.value)) || !IsRecord(receipt) {
      return [Unequal(Answer(GetReceipt), "receiptId", Answer(Execute))];
    }
    var selected := FindSelected(lines, providers);
    added := CheckReceiptRecord(execute, receipt, selected);
  }

  /** After an accepted execution. */
  lemma ReceiptPassIff(lines: seq<Line>)
    requires ExecuteOk(lines)
    ensures ReceiptPass(lines) <==> ReceiptOk(lines)
  {
    hide At, Capabilities, LastById, ContentOf, ReadProvider, FieldAt, PositiveAt, AmountOf, ModeText, RecordingOk, RecordPass,
         ReceiptRecordOk, SameTerms, PaymentOk, Selected, ReceiptContent, Usable, NonEmpty;
    var execute, receipt := ContentOf(lines, Execute), At(ReceiptContent(lines), "receipt");
    RecordPassIff(execute, receipt, Selected(lines));
    NoRecordNoReceipt(execute, receipt);
  }

  lemma NonEmptyIs(v: Option<Json>)
    ensures NonEmpty(v).Some? ==> v == Some(Str(NonEmpty(v).value))
  {
  }

  lemma UnrequestedReceipt(lines: seq<Line>, id: string)
    requires FindRequest(lines, ByReceipt(id)).None?
    ensures At(Content(Reply(lines, ByReceipt(id))), "receiptId").None?
  {
  }

  lemma NoRecordNoReceipt(execute: Option<Json>, receipt: Option<Json>)
    requires NonEmpty(At(execute, "receiptId")).Some?
    ensures !IsRecord(receipt) ==> !ReceiptRecordOk(execute, receipt)
  {
  }

  lemma SameAmount(a: Option<Json>, b: Option<Json>)
    requires Usable(a) && Usable(b) && ReadProvider(a) == ReadProvider(b)
    ensures AmountOf(a) == AmountOf(b)
  {
    AgreementIsEquality(a, b);
  }

  /** `validateMcpGatewayTranscript`. */
  method CheckTranscript(lines: seq<Line>) returns (blockers: seq<Blocker>)
    ensures blockers == [] <==> Accepted(lines)
  {
    hide ToolsOk, SearchOk, QuoteOk, ExecuteOk, ReceiptOk, ExecutePass, ReceiptPass, HasProviders, Indexed;
    var initialize := CheckInitialize(lines);
    var tools := CheckTools(lines);
    var search, providers := CheckSearch(lines);
    var quote := CheckQuote(lines);
    var execute := CheckExecute(lines, providers);
    var receipt := CheckReceipt(lines, providers);
    blockers := initialize + tools + search + quote + execute + receipt;
    if SearchOk(lines) && QuoteOk(lines) {
      ExecutePassIff(lines);
      if ExecuteOk(lines) { ReceiptPassIff(lines); }
    }
  }

  // --- reading the log ----------------------------------------------------------------------------------------------------------

  function TrimmedRows(rows: seq<string>): seq<string> {
    if rows == [] then []
    else (if Trim(rows[0]) == "" then [] else [Trim(rows[0])]) + TrimmedRows(rows[1..])
  }

  /** The lines of the text that are not blank, trimmed. */
  function Rows(text: string): seq<string> {
    TrimmedRows(Lines.Split(text))
  }

  function RowLine(row: string): Option<Line> {
    match Parse(row)
    case None => None
    case Some(v) => LineOf(v)
  }

  function ReadableLines(rows: seq<string>): seq<Line> {
    if rows == [] then []
    else ReadableLines(rows[..|rows| - 1])
         + match RowLine(rows[|rows| - 1]) case None => [] case Some(line) => [line]
  }

  /** `parseMcpGatewayTranscript`. */
  method ParseTranscript(text: string) returns (lines: seq<Line>, blockers: seq<Blocker>)
    ensures lines == ReadableLines(Rows(text))
    ensures blockers == [] <==> Rows(text) != [] && forall i | 0 <= i < |Rows(text)| :: RowLine(Rows(text)[i]).Some?
  {
    hide RowLine, Rows;
    var rows := Rows(text);
    if rows == [] {
      return [], [Missing(Transcript, "rows")];
    }
    lines, blockers := [], [];
    for i := 0 to |rows|
      invariant lines == ReadableLines(rows[..i])
      invariant blockers == [] <==> forall j | 0 <= j < i :: RowLine(rows[j]).Some?
    {
      assert rows[..i + 1][..i] == rows[..i];
      var line := RowLine(rows[i]);
      if line.Some? {
        lines := lines + [line.value];
      } else {
        blockers := blockers + [BadRow(i + 1)];
      }
    }
    assert rows[..|rows|] == rows;
  }

  // --- the discovery artifact -----------------------------------------------------------------------------------------------------

  /** The agent-discovery artifact that the proof record attaches, if it attaches one. */
  datatype Attachment = NotAttached | Unreadable | Attached(artifact: Json)

  /** `readMcpGatewaySelectedProvider`: the first capability of the executed provider. */
  function FirstSelected(lines: seq<Line>): Option<Json> {
    match NonEmpty(At(ContentOf(lines, Execute), "providerId"))
    case None => None
    case Some(id) => FirstById(Capabilities(lines), id)
  }

  /** The first route with this id. */
  function RouteById(routes: seq<Json>, id: string): Option<Json> {
    if routes == [] then None
    else if At(Some(routes[0]), "id") == Some(Str(id)) || At(Some(routes[0]), "routeId") == Some(Str(id)) then Some(routes[0])
    else RouteById(routes[1..], id)
  }

  const CONTINUED: seq<Field> := [CampaignId, ReferrerWallet, PayoutWallet]

  /** The route that discovery knows by the id has the campaign and the wallets of the provider. */
  predicate Continues(provider: Option<Json>, routeId: string, discovery: Attachment) {
    match discovery
    case NotAttached => true
    case Unreadable => false
    case Attached(artifact) =>
      IsArray(At(Some(artifact), "routes")) ==>
        var route := RouteById(Elements(At(Some(artifact), "routes")), routeId);
        && route.Some?
        && forall f | f in CONTINUED && NonEmpty(At(provider, KeyOf(f))).Some? ::
             NonEmpty(At(route, KeyOf(f))) == NonEmpty(At(provider, KeyOf(f)))
  }

  /** The selected provider, if it names a route, continues what discovery found. */
  predicate DiscoveryPass(lines: seq<Line>, discovery: Attachment) {
    var provider := FirstSelected(lines);
    var routeId := NonEmpty(At(provider, KeyOf(RouteId)));
    routeId.Some? ==> Continues(provider, routeId.value, discovery)
  }

  /** `validateMcpGatewayDiscoveryContinuity`. */
  method CheckDiscovery(lines: seq<Line>, discovery: Attachment) returns (added: seq<Blocker>)
    ensures added == [] <==> DiscoveryPass(lines, discovery)
  {
    hide At, NonEmpty, KeyOf, FirstSelected, RouteById;
    var provider := FirstSelected(lines);
    var routeId := NonEmpty(At(provider, KeyOf(RouteId)));
    if routeId.None? || discovery.NotAttached? {
      return [];
    } else if discovery.Unreadable? {
      return [Missing(Discovery, "routes")];
    }
    var routes := At(Some(discovery.artifact), "routes");
    if !IsArray(routes) {
      return [];
    }
    var route := RouteById(Elements(routes), routeId.value);
    if route.None? {
      return [Missing(Discovery, KeyOf(RouteId))];
    }
    added := [];
    for i := 0 to |CONTINUED|
      invariant added == [] <==> forall j | 0 <= j < i && NonEmpty(At(provider, KeyOf(CONTINUED[j]))).Some? ::
                  NonEmpty(At(route, KeyOf(CONTINUED[j]))) == NonEmpty(At(provider, KeyOf(CONTINUED[j])))
    {
      var value := NonEmpty(At(provider, KeyOf(CONTINUED[i])));
      if value.Some? && NonEmpty(At(route, KeyOf(CONTINUED[i]))) != value {
        added := added + [Unequal(SelectedProvider, KeyOf(CONTINUED[i]), Discovery)];
      }
    }
  }

  /** Every row of the text is a line of a transcript, the transcript is accepted, and its provider continues
      what discovery found. */
  predicate TextAccepted(text: string, discovery: Attachment) {
    var rows := Rows(text);
    && rows != [] && (forall i | 0 <= i < |rows| :: RowLine(rows[i]).Some?)
    && Accepted(ReadableLines(rows)) && DiscoveryPass(ReadableLines(rows), discovery)
  }

  /** What `createMcpGatewayStatus` holds against the text of the artifact: the rows first, then the lines. */
  method CheckText(text: string, discovery: Attachment) returns (blockers: seq<Blocker>)
    ensures blockers == [] <==> TextAccepted(text, discovery)
  {
    hide Rows, RowLine, ReadableLines, Accepted, DiscoveryPass;
    var lines;
    lines, blockers := ParseTranscript(text);
    if blockers == [] {
      var transcript := CheckTranscript(lines);
      var continuity := CheckDiscovery(lines, discovery);
      blockers := transcript + continuity;
    }
  }
}
