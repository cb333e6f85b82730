/** The collector of the MCP gateway transcript: it asks, records what was asked and answered, and judges. */
module GatewayCollector {
  import opened Text
  import opened Json
  import opened JsonRead
  import opened JsonLines
  import opened GatewayMessages
  import Lines

  // --- settings ----------------------------------------------------------------------------------------------------

  datatype Env = Env(capability: Option<string>, wallet: Option<string>, maxAmount: Option<string>, execute: Option<string>)

  /** `readOptionalEnv`. */
  function ReadOptional(value: Option<string>): (r: Option<string>)
    ensures r.Some? ==> r.value != ""
  {
    if value.None? || Trim(value.value) == "" then None else Some(Trim(value.value))
  }

  function WithDefault(value: Option<string>, fallback: string): string {
    match value
    case None => fallback
    case Some(s) => s
  }

  function LowerChar(c: char): char {
    if 'A' <= c <= 'Z' then (c as int - 'A' as int + 'a' as int) as char else c
  }

  function Lower(s: string): string {
    if s == "" then "" else [LowerChar(s[0])] + Lower(s[1..])
  }

  /** `shouldCaptureExecution`. */
  predicate ShouldCapture(mode: Mode, env: Env) {
    match ReadOptional(env.execute)
    case Some(flag) => Lower(flag) in {"1", "true", "yes"}
    case None => mode.DemoMock?
  }

  datatype Settings = Settings(capability: string, wallet: string, maxAmount: string, mode: Mode, capture: bool)

  /** None where the collector throws: on a maximum amount that is given and is no amount. */
  function ReadSettings(env: Env, mode: Mode): (r: Option<Settings>)
    ensures r.None? <==> ReadOptional(env.maxAmount).Some? && !IsCanonical(Trim(env.maxAmount.value))
    ensures r.Some? ==> r.value.capability != "" && IsCanonical(r.value.maxAmount)
  {
    assert IsCanonical("50000");
    var maxAmount := WithDefault(ReadOptional(env.maxAmount), "50000");
    if Atomic(maxAmount).None? then None
    else Some(Settings(WithDefault(ReadOptional(env.capability), "solana.wallet-risk"),
                       WithDefault(ReadOptional(env.wallet), "phase7-demo-wallet"),
                       maxAmount, mode, ShouldCapture(mode, env)))
  }

  // --- requests and answers ------------------------------------------------------------------------------------------

  /** What the gateway answers to each request, if it answers. */
  type Answers = Step -> Option<seq<Member>>

  function AnswerTo(a: Answers, step: Step): Option<Json> {
    match a(step)
    case None => None
    case Some(members) => Some(Obj(members))
  }

  predicate Answered(answer: Option<Json>) {
    answer.Some? && NoError(answer.value)
  }

  function Budget(c: Settings): Member {
    Member("budget", Obj([Member("maxAmountAtomic", Str(c.maxAmount))]))
  }

  function ArgumentsOf(c: Settings, receiptId: string, step: Step): seq<Member> {
    match step
    case Execute => [Member("capability", Str(c.capability)), Member("input", Obj([Member("wallet", Str(c.wallet))])), Budget(c)]
    case GetReceipt => [Member("receiptId", Str(receiptId))]
    case _ => [Member("capability", Str(c.capability)), Budget(c)]
  }

  function ParamsOf(c: Settings, receiptId: string, step: Step): seq<Member> {
    if IsToolCall(step) then
      [Member("params", Obj([Member("name", Str(ToolName(step))), Member("arguments", Obj(ArgumentsOf(c, receiptId, step)))]))]
    else []
  }

  function RequestMessage(c: Settings, receiptId: string, step: Step): Json {
    Obj([Member("jsonrpc", Str("2.0")), Member("id", Str(IdOf(step))), Member("method", Str(MethodOf(step)))]
        + ParamsOf(c, receiptId, step))
  }

  function ResponseLine(answer: Option<Json>): seq<Line> {
    match answer
    case None => []
    case Some(message) => [Response(message)]
  }

  function Exchange(c: Settings, receiptId: string, a: Answers, step: Step): seq<Line> {
    [Request(RequestMessage(c, receiptId, step))] + ResponseLine(AnswerTo(a, step))
  }

  function Exchanges(c: Settings, receiptId: string, a: Answers, steps: seq<Step>): seq<Line> {
    if steps == [] then []
    else Exchanges(c, receiptId, a, steps[..|steps| - 1]) + Exchange(c, receiptId, a, steps[|steps| - 1])
  }

  const OPENING: seq<Step> := [Initialize, ListTools, Search]

  /** The requests the collector makes. */
  function StepsOf(c: Settings, a: Answers): seq<Step> {
    if !c.capture then OPENING
    else if ExecutionOf(a).None? then OPENING + [Quote] + [Execute]
    else OPENING + [Quote] + [Execute] + [GetReceipt]
  }

  function ReceiptIdOf(a: Answers): string {
    match ExecutionOf(a)
    case None => ""
    case Some(e) => e.receiptId
  }

  function TranscriptOf(c: Settings, a: Answers): seq<Line> {
    Exchanges(c, ReceiptIdOf(a), a, StepsOf(c, a))
  }

  function Printed(lines: seq<Line>): seq<string> {
    if lines == [] then [] else [Stringify(LineJson(lines[0]))] + Printed(lines[1..])
  }

  /** The artifact text. */
  function TranscriptText(lines: seq<Line>): string {
    Lines.Join(Printed(lines)) + "\n"
  }

  // --- summaries -------------------------------------------------------------------------------------------------------

  datatype Ranked = Ranked(rank: nat, providerId: string, amount: string)

  datatype QuoteSummary = QuoteSummary(
    providerId: string, quoted: string, mode: Mode, maxAttempts: nat, provider: Provider, ranked: seq<Ranked>)

  datatype ExecutionSummary = ExecutionSummary(
    providerId: string, amountPaid: string, receiptId: string, verification: string, recordingStatus: Option<string>,
    recordingSource: Option<string>, mode: Mode, credit: string, provider: Provider)

  /** `terms` are the fields a receipt shares with a provider; its amount is `requiredAmountAtomic`. */
  datatype ReceiptSummary = ReceiptSummary(
    terms: map<Field, string>, credit: string, commissionBps: nat, feeBps: nat, commission: string, fee: string)

  /** `readRankedProviderSummary`. */
  function ReadRanked(v: Json): Option<Ranked> {
    var rank, providerId, amount :=
      Count(At(Some(v), "rank")), NonEmpty(At(Some(v), "providerId")), NonEmpty(At(Some(v), "amountAtomic"));
    if rank.None? || providerId.None? || amount.None? then None
    else Some(Ranked(rank.value, providerId.value, amount.value))
  }

  function WellFormedRanked(items: seq<Json>): seq<Ranked> {
    if items == [] then []
    else (match ReadRanked(items[0]) case None => [] case Some(r) => [r]) + WellFormedRanked(items[1..])
  }

  /** `readQuoteSummary`. */
  function ReadQuote(message: Json): Option<QuoteSummary> {
    var content := Content(Some(message));
    var providerId, quoted := NonEmpty(At(content, "providerId")), NonEmpty(At(content, "quotedAmountAtomic"));
    var mode, maxAttempts := ModeAt(At(content, "executionMode")), Count(At(content, "maxAttempts"));
    var provider := ReadProvider(At(content, "provider"));
    var ranked := WellFormedRanked(Elements(At(content, "rankedProviders")));
    if providerId.None? || quoted.None? || mode.None? || maxAttempts.None? || provider.None? || ranked == [] then None
    else Some(QuoteSummary(providerId.value, quoted.value, mode.value, maxAttempts.value, provider.value, ranked))
  }

  /** `readExecutionSummary`. */
  function ReadExecution(message: Json): Option<ExecutionSummary> {
    var content := Content(Some(message));
    var providerId, amountPaid := NonEmpty(At(content, "providerId")), NonEmpty(At(content, "amountPaidAtomic"));
    var receiptId, verification := NonEmpty(At(content, "receiptId")), NonEmpty(At(content, "receiptVerificationStatus"));
    var mode, credit := ModeAt(At(content, "executionMode")), NonEmpty(At(content, "referrerCreditAtomic"));
    var provider := ReadProvider(At(content, "provider"));
    if providerId.None? || amountPaid.None? || receiptId.None? || verification.None? || mode.None? || credit.None?
       || provider.None? then None
    else Some(ExecutionSummary(
                providerId.value, amountPaid.value, receiptId.value, verification.value,
                NonEmpty(At(content, "receiptRecordingStatus")), NonEmpty(At(content, "receiptRecordingSource")),
                mode.value, credit.value, provider.value))
  }

  /** The fields of a receipt that are compared with a provider. */
  const TERMS: seq<Field> :=
    [Network, Asset, MerchantOrigin, OperationId, CampaignId, Amount, PayToWallet, RouteId, ReferrerWallet, PayoutWallet]

  lemma TermsAre()
    ensures forall f: Field :: f in TERMS <==> f != ProviderId && f != Source
  {
    forall f: Field ensures f in TERMS <==> f != ProviderId && f != Source {
      match f
      case Network => assert TERMS[0] == f;
      case Asset => assert TERMS[1] == f;
      case MerchantOrigin => assert TERMS[2] == f;
      case OperationId => assert TERMS[3] == f;
      case CampaignId => assert TERMS[4] == f;
      case Amount => assert TERMS[5] == f;
      case PayToWallet => assert TERMS[6] == f;
      case RouteId => assert TERMS[7] == f;
      case ReferrerWallet => assert TERMS[8] == f;
      case PayoutWallet => assert TERMS[9] == f;
      case _ =>
    }
  }

  function TermKey(f: Field): string {
    if f == Amount then "requiredAmountAtomic" else KeyOf(f)
  }

  /** `readReceiptSummary`. */
  function ReadReceipt(message: Json): (r: Option<ReceiptSummary>)
    ensures r.Some? ==> forall f | f in TERMS :: f in r.value.terms
    ensures r.Some? ==> forall f | f in TERMS :: NonEmpty(At(At(Content(Some(message)), "receipt"), TermKey(f))) == Some(r.value.terms[f])
  {
    var receipt := At(Content(Some(message)), "receipt");
    var credit, commission, fee :=
      NonEmpty(At(receipt, "referrerCreditAtomic")), NonEmpty(At(receipt, "commissionAmountAtomic")),
      NonEmpty(At(receipt, "protocolFeeAtomic"));
    var commissionBps, feeBps := BasisPoints(At(receipt, "commissionBps")), BasisPoints(At(receipt, "protocolFeeBpsOfCommission"));
    if (exists f | f in TERMS :: NonEmpty(At(receipt, TermKey(f))).None?) || credit.None? || commissionBps.None?
       || feeBps.None? || commission.None? || fee.None? then None
    else Some(ReceiptSummary(
                map f | f in TERMS :: NonEmpty(At(receipt, TermKey(f))).value, credit.value, commissionBps.value,
                feeBps.value, commission.value, fee.value))
  }

  function ExecutionOf(a: Answers): Option<ExecutionSummary> {
    match AnswerTo(a, Execute)
    case None => None
    case Some(message) => ReadExecution(message)
  }

  /** `readSearchProviderSummary`, for a provider id that is not empty. */
  function ReadSearchProvider(message: Json, providerId: string): Option<Provider> {
    ReadProvider(FirstById(Elements(At(Content(Some(message)), "capabilities")), providerId))
  }

  /** The first ranked entry of a provider. */
  function RankedFor(ranked: seq<Ranked>, providerId: string): (r: Option<Ranked>)
    ensures r.Some? ==> r.value.providerId == providerId
  {
    if ranked == [] then None
    else if ranked[0].providerId == providerId then Some(ranked[0])
    else RankedFor(ranked[1..], providerId)
  }

  // --- what makes a proof ready --------------------------------------------------------------------------------------------

  /** The economics of a receipt are not refuted; amounts that cannot be read refute nothing. */
  predicate Unrefuted(r: ReceiptSummary)
    requires Amount in r.terms
  {
    var required, commission, fee, credit := Atomic(r.terms[Amount]), PositiveDigits(r.commission), Atomic(r.fee), Atomic(r.credit);
    && commission.Some? && r.commissionBps != 0 && fee.Some?
    && (required.Some? ==> commission.value == required.value * r.commissionBps / BPS_DENOMINATOR)
    && fee.value == commission.value * r.feeBps / BPS_DENOMINATOR
    && (credit.Some? ==> commission.value - fee.value == credit.value)
  }

  /** A quote answer without a readable summary for which no problem is reported: only its ranked entries
      are unreadable, all of them. */
  predicate OnlyRankedUnreadable(message: Json) {
    var content := Content(Some(message));
    && NonEmpty(At(content, "providerId")).Some? && NonEmpty(At(content, "quotedAmountAtomic")).Some?
    && ModeAt(At(content, "executionMode")).Some? && Count(At(content, "maxAttempts")).Some?
    && ReadProvider(At(content, "provider")).Some?
    && Elements(At(content, "rankedProviders")) != []
    && WellFormedRanked(Elements(At(content, "rankedProviders"))) == []
  }

  predicate QuoteAgrees(q: QuoteSummary, e: ExecutionSummary, mode: Mode) {
    && q.mode == mode
    && q.provider == e.provider && q.providerId == e.providerId && q.quoted == e.amountPaid
    && q.provider[ProviderId] == q.providerId && q.provider[Amount] == q.quoted
    && RankedFor(q.ranked, q.providerId) == Some(Ranked(1, q.providerId, q.quoted))
  }

  /** Only a live execution must have been recorded by the buyer. */
  predicate ExecutionAgrees(e: ExecutionSummary, c: Settings)
  {
    && e.mode == c.mode
    && e.verification == "verified"
    && (c.mode.LiveSdk? ==> e.recordingStatus in {Some("created"), Some("duplicate")} && e.recordingSource == Some("buyer"))
    && PositiveDigits(e.credit).Some?
    && e.provider[ProviderId] == e.providerId && e.provider[Amount] == e.amountPaid
    && Atomic(e.amountPaid).Some? && Atomic(c.maxAmount).Some?
    && Atomic(e.amountPaid).value <= Atomic(c.maxAmount).value
  }

  predicate ReceiptAgrees(r: ReceiptSummary, e: ExecutionSummary)
    requires forall f | f in TERMS :: f in r.terms
  {
    Unrefuted(r) && r.credit == e.credit && TermsAgree(r, e.provider)
  }

  predicate TermsAgree(r: ReceiptSummary, provider: Provider)
    requires forall f | f in TERMS :: f in r.terms
  {
    forall f | f in TERMS :: r.terms[f] == provider[f]
  }

  /** Exactly when the collector reports that the proof is ready. */
  predicate Ready(c: Settings, a: Answers) {
    var quote, execute, receipt, search := AnswerTo(a, Quote), AnswerTo(a, Execute), AnswerTo(a, GetReceipt), AnswerTo(a, Search);
    && c.mode.LiveSdk? && c.capture
    && Answered(quote) && Answered(execute) && Answered(receipt) && search.Some?
    && ReadExecution(execute.value).Some? && ReadReceipt(receipt.value).Some?
    && var e, r := ReadExecution(execute.value).value, ReadReceipt(receipt.value).value;
    && ExecutionAgrees(e, c)
    && ReadSearchProvider(search.value, e.providerId) == Some(e.provider)
    && ReceiptAgrees(r, e)
    && match ReadQuote(quote.value)
       case None => OnlyRankedUnreadable(quote.value)
       case Some(q) => QuoteAgrees(q, e, c.mode)
  }

  // --- the collector ---------------------------------------------------------------------------------------------------------

  /** `provider` is the searched one. */
  datatype Report = Report(
    transcript: seq<Line>, text: string, blockers: seq<Blocker>, proofReady: bool,
    quoteCaptured: bool, executionCaptured: bool, receiptLookupCaptured: bool,
    quote: Option<QuoteSummary>, provider: Option<Provider>, execution: Option<ExecutionSummary>, receipt: Option<ReceiptSummary>,
    requestCount: nat, responseCount: nat)

  /** How many lines are requests. */
  function CountRequests(lines: seq<Line>): nat {
    if lines == [] then 0
    else CountRequests(lines[..|lines| - 1]) + if lines[|lines| - 1].Request? then 1 else 0
  }

  lemma {:induction false} CountConcat(x: seq<Line>, y: seq<Line>)
    ensures CountRequests(x + y) == CountRequests(x) + CountRequests(y)
  {
    if y == [] {
      assert x + y == x;
    } else {
      assert (x + y)[..|x + y| - 1] == x + y[..|y| - 1];
      CountConcat(x, y[..|y| - 1]);
    }
  }

  lemma {:induction false} CountOfExchange(c: Settings, receiptId: string, a: Answers, step: Step)
    ensures CountRequests(Exchange(c, receiptId, a, step)) == 1
  {
    hide RequestMessage;
    var request, response := [Request(RequestMessage(c, receiptId, step))], ResponseLine(AnswerTo(a, step));
    CountConcat(request, response);
    assert request[..0] == [] && (response != [] ==> response[..0] == []);
  }

  lemma {:induction false} CountOfExchanges(c: Settings, receiptId: string, a: Answers, steps: seq<Step>)
    ensures CountRequests(Exchanges(c, receiptId, a, steps)) == |steps|
  {
    hide Exchange;
    if steps != [] {
      var init, last := steps[..|steps| - 1], steps[|steps| - 1];
      CountOfExchanges(c, receiptId, a, init);
      CountOfExchange(c, receiptId, a, last);
      CountConcat(Exchanges(c, receiptId, a, init), Exchange(c, receiptId, a, last));
    }
  }

  const QUOTE_TEXTS: seq<string> := ["providerId", "quotedAmountAtomic"]

  const EXECUTION_TEXTS: seq<string> := ["providerId", "amountPaidAtomic", "receiptId", "referrerCreditAtomic"]

  predicate AllTexts(content: Option<Json>, keys: seq<string>) {
    forall key | key in keys :: NonEmpty(At(content, key)).Some?
  }

  /** The loop over the texts that an answer must hold. */
  method MissingTexts(content: Option<Json>, keys: seq<string>, subject: Subject) returns (added: seq<Blocker>)
    ensures added == [] <==> AllTexts(content, keys)
  {
    added := [];
    for i := 0 to |keys|
      invariant added == [] <==> forall j | 0 <= j < i :: NonEmpty(At(content, keys[j])).Some?
    {
      if NonEmpty(At(content, keys[i])).None? { added := added + [Missing(subject, keys[i])]; }
    }
  }

  lemma QuoteTexts(content: Option<Json>)
    ensures AllTexts(content, QUOTE_TEXTS) <==>
            NonEmpty(At(content, "providerId")).Some? && NonEmpty(At(content, "quotedAmountAtomic")).Some?
  {
    hide At, NonEmpty;
    assert QUOTE_TEXTS[0] in QUOTE_TEXTS && QUOTE_TEXTS[1] in QUOTE_TEXTS;
  }

  lemma NoRecordNoTexts(content: Option<Json>)
    requires !IsRecord(content)
    ensures NonEmpty(At(content, "providerId")).None?
  {
  }

  /** `addQuoteSummaryBlockers`. */
  method AddQuoteSummaryBlockers(message: Json) returns (added: seq<Blocker>)
    requires ReadQuote(message).None?
    ensures added == [] <==> OnlyRankedUnreadable(message)
  {
    var subject := Answer(Quote);
    var content := Content(Some(message));
    if !IsRecord(content) {
      NoRecordNoTexts(content);
      return [Missing(subject, "structuredContent")];
    }
    hide ReadProvider, Content, ModeAt, WellFormedRanked, AllTexts, At, NonEmpty;
    added := MissingTexts(content, QUOTE_TEXTS, subject);
    QuoteTexts(content);
    if ModeAt(At(content, "executionMode")).None? { added := added + [Missing(subject, "executionMode")]; }
    if Count(At(content, "maxAttempts")).None? { added := added + [Missing(subject, "maxAttempts")]; }
    if ReadProvider(At(content, "provider")).None? { added := added + [Missing(subject, "provider")]; }
    if Elements(At(content, "rankedProviders")) == [] { added := added + [Missing(subject, "rankedProviders")]; }
  }

  /** `compareProviderSummaries`. */
  method CompareProviders(left: Provider, right: Provider, leftLabel: Subject, rightLabel: Subject) returns (added: seq<Blocker>)
    ensures added == [] <==> left == right
  {
    added := [];
    for i := 0 to |FIELDS|
      invariant added == [] <==> forall j | 0 <= j < i :: left[FIELDS[j]] == right[FIELDS[j]]
    {
      if left[FIELDS[i]] != right[FIELDS[i]] {
        added := added + [Unequal(leftLabel, KeyOf(FIELDS[i]), rightLabel)];
      }
    }
    FieldsAreAll();
    if added == [] {
      forall f: Field ensures left[f] == right[f] {
        assert f in FIELDS;
      }
      assert left == right;
    }
  }

  /** `compareReceiptToProviderSummary`; the same loop over fewer fields compares the searched provider. */
  method CompareReceipt(terms: map<Field, string>, provider: Provider, fields: seq<Field>, against: Subject)
    returns (added: seq<Blocker>)
    requires forall f | f in fields :: f in terms
    ensures added == [] <==> forall f | f in fields :: terms[f] == provider[f]
  {
    added := [];
    for i := 0 to |fields|
      invariant added == [] <==> forall j | 0 <= j < i :: terms[fields[j]] == provider[fields[j]]
    {
      if terms[fields[i]] != provider[fields[i]] {
        added := added + [Unequal(Receipt, TermKey(fields[i]), against)];
      }
    }
  }

  /** `verifyReceiptEconomics`. */
  method VerifyReceiptEconomics(r: ReceiptSummary) returns (added: seq<Blocker>)
    requires Amount in r.terms
    ensures added == [] <==> Unrefuted(r)
  {
    added := [];
    var commission := PositiveDigits(r.commission);
    if commission.None? { added := added + [Rejected(Receipt, "commissionAmountAtomic")]; }
    if r.commissionBps == 0 { added := added + [Rejected(Receipt, "commissionBps")]; }
    var fee := Atomic(r.fee);
    if fee.None? { added := added + [Rejected(Receipt, "protocolFeeAtomic")]; }
    var required := Atomic(r.terms[Amount]);
    if required.Some? && commission.Some? && commission.value != required.value * r.commissionBps / BPS_DENOMINATOR {
      added := added + [Unequal(Receipt, "commissionAmountAtomic", Receipt)];
    }
    if commission.Some? && fee.Some? && fee.value != commission.value * r.feeBps / BPS_DENOMINATOR {
      added := added + [Unequal(Receipt, "protocolFeeAtomic", Receipt)];
    }
    var credit := Atomic(r.credit);
    if commission.Some? && fee.Some? && credit.Some? && commission.value - fee.value != credit.value {
      added := added + [Unequal(Receipt, "referrerCreditAtomic", Receipt)];
    }
  }

  /** Why an execute answer has no readable summary. */
  lemma ExecutionGap(message: Json)
    requires ReadExecution(message).None?
    ensures var content := Content(Some(message));
            || !AllTexts(content, EXECUTION_TEXTS)
            || At(content, "receiptVerificationStatus") != Some(Str("verified"))
            || ModeAt(At(content, "executionMode")).None?
            || ReadProvider(At(content, "provider")).None?
  {
    hide ReadProvider, Content, ModeAt, At, AllTexts, NonEmpty;
    ExecutionTexts(Content(Some(message)));
    NonEmptyText("verified");
  }

  lemma NonEmptyText(s: string)
    ensures s != "" ==> NonEmpty(Some(Str(s))) == Some(s)
  {
  }

  lemma ExecutionTexts(content: Option<Json>)
    ensures AllTexts(content, EXECUTION_TEXTS) <==>
            && NonEmpty(At(content, "providerId")).Some? && NonEmpty(At(content, "amountPaidAtomic")).Some?
            && NonEmpty(At(content, "receiptId")).Some? && NonEmpty(At(content, "referrerCreditAtomic")).Some?
  {
    hide At, NonEmpty;
    var keys := EXECUTION_TEXTS;
    assert keys[0] in keys && keys[1] in keys && keys[2] in keys && keys[3] in keys;
  }

  /** `addExecutionSummaryBlockers`: an execute answer that cannot be read is always reported. */
  method AddExecutionSummaryBlockers(message: Json) returns (added: seq<Blocker>)
    requires ReadExecution(message).None?
    ensures added != []
  {
    hide ReadProvider, Content, ModeAt, At, NonEmpty, ReadExecution, AllTexts, PositiveDigits;
    ExecutionGap(message);
    var subject := Answer(Execute);
    var content := Content(Some(message));
    if !IsRecord(content) {
      return [Missing(subject, "structuredContent")];
    }
    added := MissingTexts(content, EXECUTION_TEXTS, subject);
    if At(content, "receiptVerificationStatus") != Some(Str("verified")) {
      added := added + [Rejected(subject, "receiptVerificationStatus")];
    }
    if At(content, "receiptRecordingStatus") !in {Some(Str("created")), Some(Str("duplicate"))} {
      added := added + [Rejected(subject, "receiptRecordingStatus")];
    }
    if At(content, "receiptRecordingSource") != Some(Str("buyer")) {
      added := added + [Rejected(subject, "receiptRecordingSource")];
    }
    if ModeAt(At(content, "executionMode")).None? { added := added + [Missing(subject, "executionMode")]; }
    if ReadProvider(At(content, "provider")).None? { added := added + [Missing(subject, "provider")]; }
    var credit := NonEmpty(At(content, "referrerCreditAtomic"));
    if credit.Some? && PositiveDigits(credit.value).None? { added := added + [Rejected(subject, "referrerCreditAtomic")]; }
  }

  /** What the collector holds against a quote answer and its summary. */
  method JudgeQuoteAnswer(answer: Option<Json>) returns (captured: bool, summary: Option<QuoteSummary>, added: seq<Blocker>)
    ensures captured <==> Answered(answer)
    ensures summary == if answer.None? then None else ReadQuote(answer.value)
    ensures added == [] <==> answer.None? || (captured && (summary.Some? || OnlyRankedUnreadable(answer.value)))
  {
    hide ReadQuote, OnlyRankedUnreadable;
    captured, summary, added := false, None, [];
    if answer.Some? {
      captured := NoError(answer.value);
      if !captured { added := [CallFailed(Quote)]; }
      summary := ReadQuote(answer.value);
      if captured && summary.None? {
        added := AddQuoteSummaryBlockers(answer.value);
      }
    }
  }

  /** What the collector holds against an execute answer and its summary. */
  method JudgeExecuteAnswer(answer: Option<Json>) returns (captured: bool, summary: Option<ExecutionSummary>, added: seq<Blocker>)
    ensures captured <==> Answered(answer)
    ensures summary == if answer.None? then None else ReadExecution(answer.value)
    ensures added == [] <==> answer.None? || (captured && summary.Some?)
  {
    hide ReadExecution;
    captured, summary, added := false, None, [];
    if answer.Some? {
      captured := NoError(answer.value);
      if !captured { added := [CallFailed(Execute)]; }
      summary := ReadExecution(answer.value);
      if captured && summary.None? {
        added := AddExecutionSummaryBlockers(answer.value);
      }
    }
  }

  /** What the collector holds against a receipt answer and its summary. */
  method JudgeReceiptAnswer(answer: Option<Json>) returns (captured: bool, summary: Option<ReceiptSummary>, added: seq<Blocker>)
    ensures captured <==> Answered(answer)
    ensures summary == if captured then ReadReceipt(answer.value) else None
    ensures added == [] <==> answer.None? || (captured && summary.Some?)
  {
    hide ReadReceipt;
    captured, summary, added := false, None, [];
    if answer.Some? {
      captured := NoError(answer.value);
      if !captured {
        added := [CallFailed(GetReceipt)];
      } else {
        summary := ReadReceipt(answer.value);
        if summary.None? { added := [Missing(Receipt, "economics")]; }
      }
    }
  }

  /** The fields that a receipt is compared in with the searched provider. */
  const SEARCHED_TERMS: seq<Field> :=
    [Network, Asset, MerchantOrigin, OperationId, CampaignId, PayToWallet, RouteId, ReferrerWallet, PayoutWallet]

  lemma SearchedTermsAreTerms()
    ensures forall f | f in SEARCHED_TERMS :: f in TERMS
  {
    TermsAre();
  }

  /** The tests of the execution summary against the settings. */
  method JudgeExecution(e: ExecutionSummary, c: Settings) returns (added: seq<Blocker>)
    ensures added == [] <==> ExecutionAgrees(e, c)
  {
    var subject := Answer(Execute);
    added := [];
    if e.verification != "verified" { added := added + [Rejected(subject, "receiptVerificationStatus")]; }
    if c.mode.LiveSdk? {
      if e.recordingStatus != Some("created") && e.recordingStatus != Some("duplicate") {
        added := added + [Rejected(subject, "receiptRecordingStatus")];
      }
      if e.recordingSource != Some("buyer") { added := added + [Rejected(subject, "receiptRecordingSource")]; }
    }
    if PositiveDigits(e.credit).None? { added := added + [Rejected(subject, "referrerCreditAtomic")]; }
    if e.mode != c.mode { added := added + [Unequal(subject, "executionMode", Collector)]; }
    if e.provider[ProviderId] != e.providerId { added := added + [Unequal(ExecuteProvider, "providerId", subject)]; }
    if e.amountPaid != e.provider[Amount] { added := added + [Unequal(subject, "amountPaidAtomic", ExecuteProvider)]; }
    var paid, budget := Atomic(e.amountPaid), Atomic(c.maxAmount);
    if paid.None? || budget.None? {
      added := added + [Rejected(subject, "amountPaidAtomic")];
    } else if paid.value > budget.value {
      added := added + [Rejected(subject, "maxAmountAtomic")];
    }
  }

  /** The tests of the receipt and of the searched provider against the execution summary. */
  method JudgeProviders(e: ExecutionSummary, r: Option<ReceiptSummary>, searched: Option<Provider>) returns (added: seq<Blocker>)
    requires r.Some? ==> forall f | f in TERMS :: f in r.value.terms
    ensures added == [] <==> searched == Some(e.provider) && (r.Some? ==> TermsAgree(r.value, e.provider))
                             && e.amountPaid == e.provider[Amount]
  {
    added := [];
    if searched.None? {
      return [Missing(SelectedProvider, "providerId")];
    }
    added := CompareProviders(e.provider, searched.value, ExecuteProvider, SelectedProvider);
    if e.amountPaid != searched.value[Amount] {
      added := added + [Unequal(Answer(Execute), "amountPaidAtomic", SelectedProvider)];
    }
    if r.Some? {
      SearchedTermsAreTerms();
      var executed := CompareReceipt(r.value.terms, e.provider, TERMS, ExecuteProvider);
      var selected := CompareReceipt(r.value.terms, searched.value, SEARCHED_TERMS, SelectedProvider);
      added := added + executed + selected;
    }
  }

  /** The tests of the quote summary against the execution summary. */
  method JudgeQuote(q: QuoteSummary, e: ExecutionSummary, c: Settings) returns (added: seq<Blocker>)
    ensures added == [] <==> QuoteAgrees(q, e, c.mode)
  {
    hide RankedFor;
    var subject := Answer(Quote);
    added := [];
    if q.mode != c.mode { added := added + [Unequal(subject, "executionMode", Collector)]; }
    if q.provider[ProviderId] != q.providerId { added := added + [Unequal(QuoteProvider, "providerId", subject)]; }
    if q.quoted != q.provider[Amount] { added := added + [Unequal(subject, "quotedAmountAtomic", QuoteProvider)]; }
    if q.providerId != e.providerId { added := added + [Unequal(Answer(Execute), "providerId", subject)]; }
    if q.quoted != e.amountPaid { added := added + [Unequal(Answer(Execute), "amountPaidAtomic", subject)]; }
    var compared := CompareProviders(q.provider, e.provider, QuoteProvider, ExecuteProvider);
    added := added + compared;
    var ranked := RankedFor(q.ranked, q.providerId);
    if ranked.None? {
      added := added + [Missing(RankedProvider, "providerId")];
    } else if ranked.value.rank != 1 {
      added := added + [Rejected(RankedProvider, "rank")];
    } else if ranked.value.amount != q.quoted {
      added := added + [Unequal(RankedProvider, "amountAtomic", subject)];
    }
  }

  /** Sends one request and records it with its answer, if there is one. */
  method Ask(c: Settings, receiptId: string, a: Answers, step: Step, transcript: seq<Line>)
    returns (extended: seq<Line>, answer: Option<Json>)
    ensures extended == transcript + Exchange(c, receiptId, a, step) && answer == AnswerTo(a, step)
    ensures |extended| == |transcript| + if answer.Some? then 2 else 1
  {
    extended := transcript + [Request(RequestMessage(c, receiptId, step))];
    answer := AnswerTo(a, step);
    if answer.Some? {
      extended := extended + [Response(answer.value)];
    }
  }

  lemma ExchangeWithoutReceipt(c: Settings, x: string, y: string, a: Answers, step: Step)
    requires step != GetReceipt
    ensures Exchange(c, x, a, step) == Exchange(c, y, a, step)
  {
  }

  lemma ExchangesAppend(c: Settings, receiptId: string, a: Answers, steps: seq<Step>, step: Step)
    ensures Exchanges(c, receiptId, a, steps + [step]) == Exchanges(c, receiptId, a, steps) + Exchange(c, receiptId, a, step)
  {
    assert (steps + [step])[..|steps + [step]| - 1] == steps;
  }

  /** The opening requests. */
  method Open(c: Settings, a: Answers, ghost receiptId: string)
    returns (transcript: seq<Line>, searched: Option<Json>, responseCount: nat)
    ensures transcript == Exchanges(c, receiptId, a, OPENING) && searched == AnswerTo(a, Search)
    ensures |transcript| == |OPENING| + responseCount
  {
    hide Exchange, AnswerTo;
    transcript, searched, responseCount := [], None, 0;
    for i := 0 to |OPENING|
      invariant transcript == Exchanges(c, receiptId, a, OPENING[..i]) && |transcript| == i + responseCount
      invariant i == 3 ==> searched == AnswerTo(a, Search)
    {
      var answer;
      transcript, answer := Ask(c, "", a, OPENING[i], transcript);
      if answer.Some? { responseCount := responseCount + 1; }
      if OPENING[i].Search? { searched := answer; }
      ExchangeWithoutReceipt(c, "", receiptId, a, OPENING[i]);
      ExchangesAppend(c, receiptId, a, OPENING[..i], OPENING[i]);
      assert OPENING[..i + 1] == OPENING[..i] + [OPENING[i]];
    }
    assert OPENING[..|OPENING|] == OPENING;
  }

  /** Everything the collector holds against the summaries. */
  method JudgeSummaries(c: Settings, e: ExecutionSummary, q: Option<QuoteSummary>, r: Option<ReceiptSummary>,
                        searched: Option<Provider>)
    returns (added: seq<Blocker>)
    requires r.Some? ==> forall f | f in TERMS :: f in r.value.terms
    ensures added == [] <==>
            && ExecutionAgrees(e, c)
            && searched == Some(e.provider)
            && (r.Some? ==> ReceiptAgrees(r.value, e))
            && (q.Some? ==> QuoteAgrees(q.value, e, c.mode))
  {
    hide QuoteAgrees, Unrefuted;
    added := [];
    if r.Some? {
      TermsAre();
      added := VerifyReceiptEconomics(r.value);
      if r.value.terms[Amount] != e.amountPaid { added := added + [Unequal(Receipt, "requiredAmountAtomic", Answer(Execute))]; }
      if r.value.credit != e.credit { added := added + [Unequal(Receipt, "referrerCreditAtomic", Answer(Execute))]; }
    }
    var execution := JudgeExecution(e, c);
    var providers := JudgeProviders(e, r, searched);
    added := added + execution + providers;
    if q.Some? {
      var quote := JudgeQuote(q.value, e, c);
      added := added + quote;
    }
  }

  /** What asking for quote, execution and receipt gives. */
  datatype Captured = Captured(
    quoteCaptured: bool, executionCaptured: bool, receiptLookupCaptured: bool,
    quote: Option<QuoteSummary>, execution: Option<ExecutionSummary>, receipt: Option<ReceiptSummary>, blockers: seq<Blocker>)

  /** Flags and summaries are those of the answers. */
  predicate CapturedFrom(k: Captured, a: Answers) {
    var quote, execute, receipt := AnswerTo(a, Quote), AnswerTo(a, Execute), AnswerTo(a, GetReceipt);
    && (k.quoteCaptured <==> Answered(quote))
    && k.quote == (if quote.None? then None else ReadQuote(quote.value))
    && (k.executionCaptured <==> Answered(execute))
    && k.execution == ExecutionOf(a)
    && (k.receiptLookupCaptured <==> k.execution.Some? && Answered(receipt))
    && k.receipt == (if k.receiptLookupCaptured then ReadReceipt(receipt.value) else None)
  }

  /** The answers that are held against the run: failed calls, and summaries that cannot be read. */
  predicate Undisputed(a: Answers) {
    var quote, execute, receipt := AnswerTo(a, Quote), AnswerTo(a, Execute), AnswerTo(a, GetReceipt);
    && (quote.None? || (Answered(quote) && (ReadQuote(quote.value).Some? || OnlyRankedUnreadable(quote.value))))
    && (execute.None? || (Answered(execute) && ExecutionOf(a).Some?))
    && (ExecutionOf(a).None? || receipt.None? || (Answered(receipt) && ReadReceipt(receipt.value).Some?))
  }

  /** Asks for a quote, the execution, and the receipt of the execution. */
  method Capture(c: Settings, a: Answers, opening: seq<Line>, responses: nat)
    returns (transcript: seq<Line>, responseCount: nat, k: Captured)
    requires c.capture && opening == Exchanges(c, ReceiptIdOf(a), a, OPENING) && |opening| == |OPENING| + responses
    ensures transcript == TranscriptOf(c, a) && |transcript| == |StepsOf(c, a)| + responseCount
    ensures CapturedFrom(k, a)
    ensures k.blockers == [] <==> Undisputed(a)
  {
    hide Exchange, ReadQuote, ReadExecution, ReadReceipt, OnlyRankedUnreadable, NoError, AnswerTo;
    ghost var receiptId := ReceiptIdOf(a);
    responseCount := responses;
    var answer;
    transcript, answer := Ask(c, "", a, Quote, opening);
    if answer.Some? { responseCount := responseCount + 1; }
    ExchangeWithoutReceipt(c, "", receiptId, a, Quote);
    ExchangesAppend(c, receiptId, a, OPENING, Quote);
    var quoteCaptured, quote, blockers := JudgeQuoteAnswer(answer);
    transcript, answer := Ask(c, "", a, Execute, transcript);
    if answer.Some? { responseCount := responseCount + 1; }
    ExchangeWithoutReceipt(c, "", receiptId, a, Execute);
    ExchangesAppend(c, receiptId, a, OPENING + [Quote], Execute);
    var executionCaptured, execution, added := JudgeExecuteAnswer(answer);
    blockers := blockers + added;
    var receiptLookupCaptured, receipt := false, None;
    if execution.Some? {
      transcript, answer := Ask(c, execution.value.receiptId, a, GetReceipt, transcript);
      if answer.Some? { responseCount := responseCount + 1; }
      ExchangesAppend(c, receiptId, a, OPENING + [Quote] + [Execute], GetReceipt);
      receiptLookupCaptured, receipt, added := JudgeReceiptAnswer(answer);
      blockers := blockers + added;
    }
    k := Captured(quoteCaptured, executionCaptured, receiptLookupCaptured, quote, execution, receipt, blockers);
  }

  // --- what is asked, by the environment alone --------------------------------------------------------------------------------

  lemma {:induction false} RequestEnvelope(c: Settings, receiptId: string, step: Step)
    ensures var m := Some(RequestMessage(c, receiptId, step));
            && At(m, "id") == Some(Str(IdOf(step))) && At(m, "method") == Some(Str(MethodOf(step)))
            && (IsToolCall(step) ==>
                  && At(At(m, "params"), "name") == Some(Str(ToolName(step)))
                  && At(At(m, "params"), "arguments") == Some(Obj(ArgumentsOf(c, receiptId, step))))
  {
    hide ArgumentsOf, IdOf, MethodOf, ToolName, Lookup;
    var members := RequestMessage(c, receiptId, step).members;
    assert members[1] == Member("id", Str(IdOf(step))) && members[2] == Member("method", Str(MethodOf(step)));
    LookupLast(members, 1);
    LookupLast(members, 2);
    if IsToolCall(step) {
      LookupLast(members, 3);
      var params := [Member("name", Str(ToolName(step))), Member("arguments", Obj(ArgumentsOf(c, receiptId, step)))];
      assert members[3] == Member("params", Obj(params));
      LookupLast(params, 0);
      LookupLast(params, 1);
    }
  }

  lemma MethodNames()
    ensures forall s: Step, t: Step :: MethodOf(s) == MethodOf(t) <==> s == t || (IsToolCall(s) && IsToolCall(t))
  {
    assert "initialize"[0] != "tools/list"[0] && "initialize"[0] != "tools/call"[0] && "tools/list"[6] != "tools/call"[6];
  }

  /** The text of a variable, or the default where it is not set or blank. */
  function Given(value: Option<string>, fallback: string): string {
    if value.None? || AllSpace(value.value) then fallback else Trim(value.value)
  }

  predicate SameLetter(c: char, w: char) {
    c == w || ('a' <= w <= 'z' && c as int + 32 == w as int)
  }

  /** A text is a word of small letters, in any case. */
  predicate InAnyCase(s: string, word: string) {
    |s| == |word| && forall i | 0 <= i < |s| :: SameLetter(s[i], word[i])
  }

  /** Quote and execution are asked for: the flag says so, or it is blank and the gateway is a demo. */
  predicate ExecutionWanted(env: Env, mode: Mode) {
    var flag := if env.execute.None? then "" else Trim(env.execute.value);
    if flag == "" then mode.DemoMock? else InAnyCase(flag, "1") || InAnyCase(flag, "true") || InAnyCase(flag, "yes")
  }

  /** What a request asks for: its tool, or its method if it calls none. */
  function Asks(line: Line): Json {
    var message := Some(line.message);
    if At(message, "method") == Some(Str("tools/call")) then
      match At(At(message, "params"), "name") case None => Null case Some(name) => name
    else match At(message, "method") case None => Null case Some(name) => name
  }

  /** What the requests of a transcript ask for, in order. */
  function AskedFor(lines: seq<Line>): seq<Json> {
    if lines == [] then []
    else AskedFor(lines[..|lines| - 1]) + if lines[|lines| - 1].Request? then [Asks(lines[|lines| - 1])] else []
  }

  function Argument(line: Line, key: string): Option<Json> {
    At(At(At(Some(line.message), "params"), "arguments"), key)
  }

  /** A request for capability, budget and wallet carries what the environment says. */
  predicate CarriesEnv(env: Env, line: Line) {
    line.Request? ==>
      && (Asks(line) in {Str("split402.searchCapabilities"), Str("split402.quote"), Str("split402.execute")} ==>
            && Argument(line, "capability") == Some(Str(Given(env.capability, "solana.wallet-risk")))
            && At(Argument(line, "budget"), "maxAmountAtomic") == Some(Str(Given(env.maxAmount, "50000"))))
      && (Asks(line) == Str("split402.execute") ==>
            At(Argument(line, "input"), "wallet") == Some(Str(Given(env.wallet, "phase7-demo-wallet"))))
  }

  /** The requests of a transcript: the opening three, then quote and execution if they are wanted, and the
      receipt if the execute answer has a receipt id that can be read. */
  predicate RequestsFollow(env: Env, mode: Mode, a: Answers, lines: seq<Line>) {
    && (forall i | 0 <= i < |lines| :: CarriesEnv(env, lines[i]))
    && AskedFor(lines) ==
         [Str("initialize"), Str("tools/list"), Str("split402.searchCapabilities")]
         + (if ExecutionWanted(env, mode) then [Str("split402.quote"), Str("split402.execute")] else [])
         + (if ExecutionWanted(env, mode) && ExecutionOf(a).Some? then [Str("split402.getReceipt")] else [])
  }

  lemma OptionalIsGiven(value: Option<string>, fallback: string)
    ensures WithDefault(ReadOptional(value), fallback) == Given(value, fallback)
  {
    if value.Some? { TrimIsTrimmed(value.value); }
  }

  lemma {:induction false} LowerIs(s: string, word: string)
    requires forall i | 0 <= i < |word| :: word[i] == '1' || 'a' <= word[i] <= 'z'
    ensures Lower(s) == word <==> InAnyCase(s, word)
  {
    hide LowerChar;
    if s != "" && word != "" {
      LowerIs(s[1..], word[1..]);
      LowerCharIs(s[0], word[0]);
      AnyCaseStep(s, word);
      assert word == [word[0]] + word[1..];
      assert Lower(s)[0] == LowerChar(s[0]) && Lower(s)[1..] == Lower(s[1..]);
    }
  }

  lemma LowerCharIs(c: char, w: char)
    requires w == '1' || 'a' <= w <= 'z'
    ensures LowerChar(c) == w <==> SameLetter(c, w)
  {
    if 'A' <= c <= 'Z' { assert LowerChar(c) as int == c as int + 32; }
  }

  lemma AnyCaseStep(s: string, word: string)
    requires s != "" && word != ""
    ensures InAnyCase(s, word) <==> SameLetter(s[0], word[0]) && InAnyCase(s[1..], word[1..])
  {
    hide SameLetter;
    if InAnyCase(s, word) {
      assert forall i | 0 <= i < |s| - 1 :: s[1..][i] == s[i + 1] && word[1..][i] == word[i + 1];
    }
    if InAnyCase(s[1..], word[1..]) {
      assert forall i | 1 <= i < |s| :: s[i] == s[1..][i - 1] && word[i] == word[1..][i - 1];
    }
  }

  lemma CaptureIsWanted(mode: Mode, env: Env)
    ensures ShouldCapture(mode, env) <==> ExecutionWanted(env, mode)
  {
    hide Lower, InAnyCase, Trim;
    var flag := if env.execute.None? then "" else Trim(env.execute.value);
    LowerIs(flag, "1");
    LowerIs(flag, "true");
    LowerIs(flag, "yes");
  }

  /** What the request of a step asks for. */
  function StepName(step: Step): string {
    match step
    case Initialize => "initialize"
    case ListTools => "tools/list"
    case Search => "split402.searchCapabilities"
    case Quote => "split402.quote"
    case Execute => "split402.execute"
    case GetReceipt => "split402.getReceipt"
  }

  lemma {:induction false} StepAsks(c: Settings, receiptId: string, step: Step)
    ensures Asks(Request(RequestMessage(c, receiptId, step))) == Str(StepName(step))
  {
    hide RequestMessage, At, IdOf, ArgumentsOf;
    RequestEnvelope(c, receiptId, step);
    assert "tools/call"[0] != "initialize"[0] && "tools/call"[6] != "tools/list"[6];
    ToolIsStepName(step);
  }

  lemma ToolIsStepName(step: Step)
    ensures if IsToolCall(step) then ToolName(step) == StepName(step) else MethodOf(step) == StepName(step)
  {
  }

  lemma StepNamesDiffer(s: Step, t: Step)
    ensures StepName(s) == StepName(t) <==> s == t
  {
    ToolIsStepName(s);
    ToolIsStepName(t);
    assert "initialize"[0] == 'i' && "tools/list"[0] == 't' && "split402.quote"[0] == 's';
    if IsToolCall(s) && IsToolCall(t) { ToolNamesDiffer(s, t); }
  }

  lemma {:induction false} StepArguments(c: Settings, receiptId: string, step: Step)
    ensures var line := Request(RequestMessage(c, receiptId, step));
            && (step in {Search, Quote, Execute} ==>
                  && Argument(line, "capability") == Some(Str(c.capability))
                  && At(Argument(line, "budget"), "maxAmountAtomic") == Some(Str(c.maxAmount)))
            && (step == Execute ==> At(Argument(line, "input"), "wallet") == Some(Str(c.wallet)))
  {
    hide RequestMessage, Lookup, IdOf, MethodOf, ToolName;
    RequestEnvelope(c, receiptId, step);
    var arguments := ArgumentsOf(c, receiptId, step);
    if step in {Search, Quote, Execute} {
      LookupLast(arguments, 0);
      LookupLast(arguments, |arguments| - 1);
      LookupLast([Member("maxAmountAtomic", Str(c.maxAmount))], 0);
      if step == Execute {
        LookupLast(arguments, 1);
        LookupLast([Member("wallet", Str(c.wallet))], 0);
      }
    }
  }

  lemma SettingsFollow(env: Env, mode: Mode, c: Settings)
    requires ReadSettings(env, mode) == Some(c)
    ensures c.capability == Given(env.capability, "solana.wallet-risk") && c.wallet == Given(env.wallet, "phase7-demo-wallet")
    ensures c.maxAmount == Given(env.maxAmount, "50000") && (c.capture <==> ExecutionWanted(env, mode))
  {
    hide Given, ReadOptional, WithDefault, ShouldCapture, ExecutionWanted, Atomic;
    OptionalIsGiven(env.capability, "solana.wallet-risk");
    OptionalIsGiven(env.wallet, "phase7-demo-wallet");
    OptionalIsGiven(env.maxAmount, "50000");
    CaptureIsWanted(mode, env);
  }

  lemma {:induction false} RequestCarries(env: Env, mode: Mode, c: Settings, receiptId: string, step: Step)
    requires ReadSettings(env, mode) == Some(c)
    ensures CarriesEnv(env, Request(RequestMessage(c, receiptId, step)))
  {
    hide ReadSettings, RequestMessage, Asks, Argument, Given, StepName;
    SettingsFollow(env, mode, c);
    StepAsks(c, receiptId, step);
    StepArguments(c, receiptId, step);
    AskingSteps(step);
  }

  lemma AskingSteps(step: Step)
    ensures StepName(step) in {"split402.searchCapabilities", "split402.quote", "split402.execute"} <==> step in {Search, Quote, Execute}
    ensures StepName(step) == "split402.execute" <==> step == Execute
  {
    StepNamesDiffer(step, Search);
    StepNamesDiffer(step, Quote);
    StepNamesDiffer(step, Execute);
  }

  lemma {:induction false} AskedForConcat(x: seq<Line>, y: seq<Line>)
    ensures AskedFor(x + y) == AskedFor(x) + AskedFor(y)
  {
    hide Asks;
    if y == [] {
      assert x + y == x;
    } else {
      assert (x + y)[..|x + y| - 1] == x + y[..|y| - 1];
      AskedForConcat(x, y[..|y| - 1]);
    }
  }

  lemma {:induction false} AskedForOne(line: Line)
    ensures AskedFor([line]) == if line.Request? then [Asks(line)] else []
  {
    hide Asks;
    assert [line][..0] == [];
  }

  lemma {:induction false} ExchangeFollows(env: Env, mode: Mode, c: Settings, receiptId: string, a: Answers, step: Step)
    requires ReadSettings(env, mode) == Some(c)
    ensures var lines := Exchange(c, receiptId, a, step);
            && AskedFor(lines) == [Str(StepName(step))]
            && forall i | 0 <= i < |lines| :: CarriesEnv(env, lines[i])
  {
    hide ReadSettings, RequestMessage, Asks, AskedFor, StepName, AnswerTo;
    RequestCarries(env, mode, c, receiptId, step);
    StepAsks(c, receiptId, step);
    var request, response := [Request(RequestMessage(c, receiptId, step))], ResponseLine(AnswerTo(a, step));
    AskedForOne(request[0]);
    if response != [] { AskedForOne(response[0]); } else { NothingAsked(); }
    AskedForConcat(request, response);
  }

  lemma NothingAsked()
    ensures AskedFor([]) == []
  {
  }

  lemma {:induction false} ExchangesFollow(env: Env, mode: Mode, c: Settings, receiptId: string, a: Answers, steps: seq<Step>)
    requires ReadSettings(env, mode) == Some(c)
    ensures var lines := Exchanges(c, receiptId, a, steps);
            && |AskedFor(lines)| == |steps|
            && (forall i | 0 <= i < |steps| :: AskedFor(lines)[i] == Str(StepName(steps[i])))
            && forall i | 0 <= i < |lines| :: CarriesEnv(env, lines[i])
  {
    hide ReadSettings, Exchange, AskedFor, StepName, CarriesEnv;
    if steps == [] {
      NothingAsked();
    } else {
      var init, last := steps[..|steps| - 1], steps[|steps| - 1];
      ExchangesFollow(env, mode, c, receiptId, a, init);
      ExchangeFollows(env, mode, c, receiptId, a, last);
      AskedForConcat(Exchanges(c, receiptId, a, init), Exchange(c, receiptId, a, last));
    }
  }

  /** The requests of a run follow from its environment and its execute answer alone. */
  lemma TranscriptFollows(env: Env, mode: Mode, c: Settings, a: Answers)
    requires ReadSettings(env, mode) == Some(c)
    ensures RequestsFollow(env, mode, a, TranscriptOf(c, a))
  {
    hide ReadSettings, Exchanges, AskedFor, CarriesEnv, ExecutionOf, ExecutionWanted, ReceiptIdOf;
    SettingsFollow(env, mode, c);
    ExchangesFollow(env, mode, c, ReceiptIdOf(a), a, StepsOf(c, a));
  }

  /** The summaries that the collector reads. */
  predicate Summarized(r: Report, c: Settings, a: Answers) {
    && r.quote == (if c.capture && AnswerTo(a, Quote).Some? then ReadQuote(AnswerTo(a, Quote).value) else None)
    && r.execution == (if c.capture then ExecutionOf(a) else None)
    && r.receipt == (if r.execution.Some? && Answered(AnswerTo(a, GetReceipt)) then ReadReceipt(AnswerTo(a, GetReceipt).value) else None)
    && r.provider == (if r.execution.Some? && AnswerTo(a, Search).Some?
                      then ReadSearchProvider(AnswerTo(a, Search).value, r.execution.value.providerId) else None)
  }

  /** `collectPhase7McpGatewayEvidence` after the gateway context was made; None where it throws. */
  method Collect(env: Env, mode: Mode, a: Answers) returns (report: Option<Report>)
    ensures report.None? <==> ReadSettings(env, mode).None?
    ensures report.Some? ==>
              var c, r := ReadSettings(env, mode).value, report.value;
              && r.transcript == TranscriptOf(c, a)
              && r.text == TranscriptText(r.transcript)
              && r.proofReady == (r.blockers == [])
              && (r.proofReady <==> Ready(c, a))
              && (r.quoteCaptured <==> c.capture && Answered(AnswerTo(a, Quote)))
              && (r.executionCaptured <==> c.capture && Answered(AnswerTo(a, Execute)))
              && (r.receiptLookupCaptured <==> c.capture && ExecutionOf(a).Some? && Answered(AnswerTo(a, GetReceipt)))
              && Summarized(r, c, a)
              && r.requestCount == |StepsOf(c, a)| && r.requestCount + r.responseCount == |r.transcript|
    ensures report.Some? ==> RequestsFollow(env, mode, a, report.value.transcript)
  {
    hide Exchanges, ReadSettings, ReadQuote, ReadExecution, ReadReceipt, OnlyRankedUnreadable, ReadSearchProvider,
         QuoteAgrees, ExecutionAgrees, ReceiptAgrees, NoError, TranscriptText, AnswerTo, CountRequests, ReceiptIdOf, RequestsFollow;
    var settings := ReadSettings(env, mode);
    if settings.None? {
      return None;
    }
    var c := settings.value;
    TranscriptFollows(env, mode, c, a);
    var transcript, searchAnswer, responseCount := Open(c, a, ReceiptIdOf(a));
    var k := Captured(false, false, false, None, None, None, [Rejected(Collector, "execute")]);
    if c.capture {
      transcript, responseCount, k := Capture(c, a, transcript, responseCount);
    }
    var blockers := k.blockers;
    if !k.quoteCaptured { blockers := blockers + [NotCaptured(Quote)]; }
    if !k.executionCaptured { blockers := blockers + [NotCaptured(Execute)]; }
    if !k.receiptLookupCaptured { blockers := blockers + [NotCaptured(GetReceipt)]; }
    if c.mode != LiveSdk { blockers := blockers + [Rejected(Collector, "executionMode")]; }
    var searched := None;
    if k.execution.Some? {
      var e := k.execution.value;
      searched := if searchAnswer.None? then None else ReadSearchProvider(searchAnswer.value, e.providerId);
      var added := JudgeSummaries(c, e, k.quote, k.receipt, searched);
      blockers := blockers + added;
    }
    CountOfExchanges(c, ReceiptIdOf(a), a, StepsOf(c, a));
    report := Some(Report(transcript, TranscriptText(transcript), blockers, blockers == [],
                          k.quoteCaptured, k.executionCaptured, k.receiptLookupCaptured,
                          k.quote, searched, k.execution, k.receipt, CountRequests(transcript), responseCount));
  }
}
