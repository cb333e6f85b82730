/** What the collector calls ready and what the checker accepts are the same, up to what only one of them reads. */
module GatewayAgreement {
  import opened Text
  import opened Json
  import opened JsonRead
  import opened JsonLines
  import opened GatewayMessages
  import opened GatewayCollector
  import C = GatewayChecker
  import opened GatewayLog
  import opened GatewayTranscript

  // --- the economics of a ready proof ---------------------------------------------------------------------------------

  /** The amounts of a receipt: the commission is the rounded-down share of what was paid, the fee the
      rounded-down share of the commission, the credit the positive rest. */
  predicate ExactEconomics(paid: nat, commission: nat, bps: nat, fee: nat, feeBps: nat, credit: nat) {
    && 0 < paid
    && commission == paid * bps / BPS_DENOMINATOR && commission <= paid
    && fee == commission * feeBps / BPS_DENOMINATOR
    && credit == commission - fee && 0 < credit
  }

  lemma ShareIsAtMost(amount: nat, bps: nat)
    requires bps <= BPS_DENOMINATOR
    ensures amount * bps / BPS_DENOMINATOR <= amount
    ensures amount == 0 ==> amount * bps / BPS_DENOMINATOR == 0
  {
    assert amount * bps <= amount * BPS_DENOMINATOR;
  }

  /** The summaries of a ready proof. */
  lemma ReadyParts(c: Settings, a: Answers) returns (e: ExecutionSummary, r: ReceiptSummary)
    requires Ready(c, a)
    ensures ExecutionOf(a) == Some(e) && AnswerTo(a, GetReceipt).Some? && ReadReceipt(AnswerTo(a, GetReceipt).value) == Some(r)
    ensures ExecutionAgrees(e, c) && ReceiptAgrees(r, e)
    ensures r.commissionBps <= BPS_DENOMINATOR && r.feeBps <= BPS_DENOMINATOR
    ensures AnswerTo(a, Quote).Some?
    ensures var q := ReadQuote(AnswerTo(a, Quote).value); q.Some? ==> QuoteAgrees(q.value, e, LiveSdk)
  {
    hide ReadQuote, ReadExecution, ReadReceipt, ReadSearchProvider, OnlyRankedUnreadable, ExecutionAgrees, ReceiptAgrees,
         QuoteAgrees, NoError;
    e, r := ExecutionOf(a).value, ReadReceipt(AnswerTo(a, GetReceipt).value).value;
    ReceiptBps(AnswerTo(a, GetReceipt).value);
  }

  /** A ready proof has exact economics with no guard skipped, within the budget, and the quoted amount if
      the quote could be read. */
  lemma ReadyEconomics(c: Settings, a: Answers) returns (e: ExecutionSummary, r: ReceiptSummary)
    requires Ready(c, a)
    ensures ExecutionOf(a) == Some(e) && AnswerTo(a, GetReceipt).Some? && ReadReceipt(AnswerTo(a, GetReceipt).value) == Some(r)
    ensures IsCanonical(e.amountPaid) && IsCanonical(r.commission) && IsCanonical(r.fee) && IsCanonical(e.credit)
    ensures ExactEconomics(NatOf(e.amountPaid), NatOf(r.commission), r.commissionBps, NatOf(r.fee), r.feeBps, NatOf(e.credit))
    ensures IsCanonical(c.maxAmount) && NatOf(e.amountPaid) <= NatOf(c.maxAmount)
    ensures Amount in r.terms && e.amountPaid == e.provider[Amount] == r.terms[Amount] && e.credit == r.credit
    ensures AnswerTo(a, Quote).Some?
    ensures var q := ReadQuote(AnswerTo(a, Quote).value);
            q.Some? ==> q.value.provider[Amount] == e.amountPaid == q.value.quoted
  {
    hide Ready, ReadQuote, ReadReceipt, AnswerTo, ExecutionOf, NatOf, IsCanonical, PositiveDigits, Unrefuted, ExactEconomics, Atomic;
    e, r := ReadyParts(c, a);
    TermsAre();
    AtomicIsCanonical(e.amountPaid);
    AtomicIsCanonical(c.maxAmount);
    UnrefutedIsExact(r);
  }

  lemma AtomicIsCanonical(s: string)
    ensures Atomic(s).Some? <==> IsCanonical(s)
    ensures IsCanonical(s) ==> Atomic(s) == Some(NatOf(s))
  {
  }

  /** A receipt that is not refuted is exact once its required amount can be read and its credit is positive. */
  lemma UnrefutedIsExact(r: ReceiptSummary)
    requires Amount in r.terms && Unrefuted(r) && r.commissionBps <= BPS_DENOMINATOR
    requires Atomic(r.terms[Amount]).Some? && PositiveDigits(r.credit).Some?
    ensures IsCanonical(r.terms[Amount]) && IsCanonical(r.commission) && IsCanonical(r.fee) && IsCanonical(r.credit)
    ensures ExactEconomics(NatOf(r.terms[Amount]), NatOf(r.commission), r.commissionBps, NatOf(r.fee), r.feeBps, NatOf(r.credit))
  {
    hide NatOf;
    PositiveAmount(r.credit);
    PositiveAmount(r.commission);
    ShareIsAtMost(NatOf(r.terms[Amount]), r.commissionBps);
  }

  lemma PositiveAmount(s: string)
    requires PositiveDigits(s).Some?
    ensures IsCanonical(s) && PositiveDigits(s) == Atomic(s) == Some(NatOf(s)) && NatOf(s) > 0
  {
    CanonicalIsPositive(s);
  }

  lemma ReceiptBps(message: Json)
    requires ReadReceipt(message).Some?
    ensures ReadReceipt(message).value.commissionBps <= BPS_DENOMINATOR && ReadReceipt(message).value.feeBps <= BPS_DENOMINATOR
  {
  }

  // --- answers that follow JSON-RPC ------------------------------------------------------------------------------------

  /** Section 5 of the JSON-RPC 2.0 specification: a response holds a result or an error, not both. */
  predicate ExactlyOne(message: Json) {
    At(Some(message), "result").Some? <==> NoError(message)
  }

  /** Every answer echoes the id of its request and holds exactly one of result and error. */
  predicate Conforming(a: Answers) {
    forall step: Step :: EchoesId(a, step) && (AnswerTo(a, step).Some? ==> ExactlyOne(AnswerTo(a, step).value))
  }

  function ContentTo(a: Answers, step: Step): Option<Json> {
    Content(AnswerTo(a, step))
  }

  function CapabilitiesTo(a: Answers): seq<Json> {
    Elements(At(ContentTo(a, Search), "capabilities"))
  }

  lemma SearchIsAnswered(c: Settings, a: Answers)
    requires Ready(c, a) && Conforming(a)
    ensures Answered(AnswerTo(a, Search)) && ExecutionOf(a).Some?
    ensures var e := ExecutionOf(a).value;
            FirstById(CapabilitiesTo(a), e.providerId).Some?
            && ReadProvider(FirstById(CapabilitiesTo(a), e.providerId)) == Some(e.provider) && e.providerId != ""
  {
    hide ReadQuote, ReadReceipt, OnlyRankedUnreadable, ExecutionAgrees, ReceiptAgrees, QuoteAgrees, Lookup, ReadProvider, EchoesId;
    var e := ExecutionOf(a).value;
    var message := AnswerTo(a, Search).value;
    assert ReadSearchProvider(message, e.providerId) == Some(e.provider);
    NothingToRead();
    FirstOfNone(e.providerId);
    assert ExactlyOne(message);
  }

  lemma NothingToRead()
    ensures ReadProvider(None).None?
  {
    hide ReadProvider, FieldAt;
    NoField(Network);
  }

  lemma NoField(f: Field)
    ensures FieldAt(None, f).None?
  {
    hide KeyOf;
  }

  lemma FirstOfNone(id: string)
    ensures FirstById([], id).None?
  {
  }

  // --- what remains for the checker ----------------------------------------------------------------------------------------

  /** The answers of a run that the collector called ready. */
  predicate ReadyRun(c: Settings, a: Answers) {
    && Ready(c, a) && Conforming(a) && c.capability != ""
    && Answered(AnswerTo(a, Initialize)) && Answered(AnswerTo(a, ListTools))
  }

  /** A ready run may also have a quote with unreadable ranked entries only; its quote has no summary. */
  predicate QuoteRead(a: Answers) {
    AnswerTo(a, Quote).Some? && ReadQuote(AnswerTo(a, Quote).value).Some?
  }

  predicate ToolsOffered(a: Answers) {
    forall step | step in TOOL_CALLS && IsToolCall(step) ::
      C.OffersTool(Elements(At(At(AnswerTo(a, ListTools), "result"), "tools")), step)
  }

  /** The last capability of the executed provider says what the execution says. */
  predicate LastAgrees(a: Answers, e: ExecutionSummary) {
    ReadProvider(C.LastById(CapabilitiesTo(a), e.providerId)) == Some(e.provider)
  }

  /** The first entry ranked 1 is the quoted provider, at the quoted amount if its amount can be read. */
  predicate FirstRankedAgrees(a: Answers, q: QuoteSummary) {
    C.RankedOk(Elements(At(ContentTo(a, Quote), "rankedProviders")), Some(q.providerId), Atomic(q.quoted))
  }

  predicate ReceiptEchoed(a: Answers, e: ExecutionSummary) {
    && At(ContentTo(a, GetReceipt), "receiptId") == Some(Str(e.receiptId))
    && At(At(ContentTo(a, GetReceipt), "receipt"), "receiptId") == Some(Str(e.receiptId))
  }

  /** A quote without a summary: the collector compared nothing in it, so everything is left to the checker. */
  predicate BareQuoteAgrees(a: Answers, e: ExecutionSummary) {
    var content := ContentTo(a, Quote);
    var quoted := PositiveAt(At(content, "quotedAmountAtomic"));
    && ModeAt(At(content, "executionMode")) == Some(LiveSdk)
    && NonEmpty(At(content, "providerId")) == Some(e.providerId)
    && ReadProvider(At(content, "provider")) == Some(e.provider)
    && C.ReadsAs(quoted, Atomic(e.amountPaid))
    && C.RankedOk(Elements(At(content, "rankedProviders")), Some(e.providerId), quoted)
  }

  predicate QuoteResidual(a: Answers, e: ExecutionSummary) {
    if QuoteRead(a) then FirstRankedAgrees(a, ReadQuote(AnswerTo(a, Quote).value).value) else BareQuoteAgrees(a, e)
  }

  /** What only the checker reads. */
  predicate Residual(a: Answers)
    requires ExecutionOf(a).Some?
  {
    var e := ExecutionOf(a).value;
    ToolsOffered(a) && LastAgrees(a, e) && QuoteResidual(a, e) && ReceiptEchoed(a, e)
  }

  // --- the sections of the checker, one by one --------------------------------------------------------------------------------

  lemma RunFacts(c: Settings, a: Answers) returns (e: ExecutionSummary, r: ReceiptSummary)
    requires ReadyRun(c, a)
    ensures ExecutionOf(a) == Some(e) && AnswerTo(a, Execute).Some? && ReadExecution(AnswerTo(a, Execute).value) == Some(e)
    ensures AnswerTo(a, GetReceipt).Some? && ReadReceipt(AnswerTo(a, GetReceipt).value) == Some(r)
    ensures ExecutionAgrees(e, c) && ReceiptAgrees(r, e) && Atomic(e.amountPaid).value > 0
    ensures forall step: Step :: Answered(AnswerTo(a, step))
    ensures c.mode.LiveSdk? && c.capture && c.maxAmount != ""
  {
    hide ReadQuote, ReadExecution, ReadReceipt, ExecutionAgrees, ReceiptAgrees, QuoteAgrees, ReadSearchProvider, NoError,
         OnlyRankedUnreadable, Conforming, ExactEconomics, NatOf, AnswerTo, Answered;
    e, r := ReadyEconomics(c, a);
    var e', r' := ReadyParts(c, a);
    SearchIsAnswered(c, a);
    PaidIsPositive(c, a);
    AllAnswered(c, a);
  }

  lemma QuoteFacts(c: Settings, a: Answers, e: ExecutionSummary) returns (q: QuoteSummary)
    requires ReadyRun(c, a) && QuoteRead(a) && ExecutionOf(a) == Some(e)
    ensures AnswerTo(a, Quote).Some? && ReadQuote(AnswerTo(a, Quote).value) == Some(q) && QuoteAgrees(q, e, LiveSdk)
  {
    hide ReadQuote, ReadExecution, ReadReceipt, ExecutionAgrees, ReceiptAgrees, QuoteAgrees, ReadSearchProvider, NoError,
         OnlyRankedUnreadable, Conforming, AnswerTo, Answered;
    q := ReadQuote(AnswerTo(a, Quote).value).value;
    var e', r' := ReadyParts(c, a);
  }

  lemma CapturedAnswers(c: Settings, a: Answers)
    requires Ready(c, a)
    ensures Answered(AnswerTo(a, Quote)) && Answered(AnswerTo(a, Execute)) && Answered(AnswerTo(a, GetReceipt))
  {
    hide ReadQuote, ReadExecution, ReadReceipt, ExecutionAgrees, ReceiptAgrees, QuoteAgrees, ReadSearchProvider, Answered,
         OnlyRankedUnreadable, AnswerTo;
  }

  lemma AllAnswered(c: Settings, a: Answers)
    requires ReadyRun(c, a)
    ensures forall step: Step :: Answered(AnswerTo(a, step))
  {
    hide Ready, ReadQuote, Answered, Conforming, AnswerTo, ExecutionOf, ReadProvider, FirstById, CapabilitiesTo;
    CapturedAnswers(c, a);
    SearchIsAnswered(c, a);
    forall step: Step ensures Answered(AnswerTo(a, step)) {
      match step
      case Initialize =>
      case ListTools =>
      case Search =>
      case Quote =>
      case Execute =>
      case GetReceipt =>
    }
  }

  lemma PaidIsPositive(c: Settings, a: Answers)
    requires Ready(c, a)
    ensures var amount := ExecutionOf(a).value.amountPaid; Atomic(amount).Some? && Atomic(amount).value > 0
  {
    hide Ready, AnswerTo, ReadQuote, ReadReceipt;
    var e, r := ReadyEconomics(c, a);
  }

  lemma FindsOne(c: Settings, a: Answers, step: Step)
    requires ReadyRun(c, a)
    ensures var lines, q := TranscriptOf(c, a), QueryOf(step, ReceiptIdOf(a));
            && C.FindRequest(lines, q) == Some(RequestMessage(c, ReceiptIdOf(a), step))
            && C.Reply(lines, q) == AnswerTo(a, step) && AnswerTo(a, step).Some?
  {
    hide ReadyRun, EchoesId, Answered, AnswerTo, RequestMessage, TranscriptOf, C.FindRequest, C.Reply, ExecutionOf, QueryOf, ReceiptIdOf;
    AllAnswered(c, a);
    RunEchoes(c, a);
    AnsweredIsSome(AnswerTo(a, step));
    FindsStep(c, a, step);
  }

  lemma RunEchoes(c: Settings, a: Answers)
    requires ReadyRun(c, a)
    ensures c.capture && ExecutionOf(a).Some? && forall step: Step :: EchoesId(a, step)
  {
    hide EchoesId, ExactlyOne, AnswerTo, ReadQuote, NoError, ReadReceipt, ReadExecution, OnlyRankedUnreadable, QuoteAgrees,
         ReceiptAgrees, ExecutionAgrees, ReadSearchProvider;
  }

  lemma AnsweredIsSome(answer: Option<Json>)
    ensures Answered(answer) ==> answer.Some?
  {
  }

  /** What the checker finds in the transcript of a ready run. */
  lemma Finds(c: Settings, a: Answers)
    requires ReadyRun(c, a)
    ensures var lines := TranscriptOf(c, a);
            && (forall step | step in {Search, Quote, Execute} ::
                  && C.FindRequest(lines, C.ByTool(step)) == Some(RequestMessage(c, ReceiptIdOf(a), step))
                  && C.ContentOf(lines, step) == ContentTo(a, step))
            && C.Capabilities(lines) == CapabilitiesTo(a)
            && C.Reply(lines, C.ByMethod(Initialize)).Some?
            && C.Reply(lines, C.ByMethod(ListTools)) == AnswerTo(a, ListTools) && AnswerTo(a, ListTools).Some?
            && C.Reply(lines, C.ByReceipt(ReceiptIdOf(a))) == AnswerTo(a, GetReceipt)
  {
    hide ReadyRun, AnswerTo, RequestMessage, TranscriptOf, C.FindRequest, C.Reply, Content, At, ReceiptIdOf;
    FindsOne(c, a, Initialize);
    FindsOne(c, a, ListTools);
    FindsOne(c, a, Search);
    FindsOne(c, a, Quote);
    FindsOne(c, a, Execute);
    FindsOne(c, a, GetReceipt);
  }

  // --- the sections of the checker on a ready run -----------------------------------------------------------------------------

  lemma SearchSection(c: Settings, a: Answers)
    requires ReadyRun(c, a)
    ensures C.SearchOk(TranscriptOf(c, a))
    ensures C.SameTerms(TranscriptOf(c, a), Quote) && C.SameTerms(TranscriptOf(c, a), Execute)
  {
    hide Ready, ReadQuote, Answered, AnswerTo, ReadProvider, FirstById, RequestMessage, TranscriptOf, C.FindRequest, C.Reply,
         Content, ExecutionOf, At, C.CapabilityOf, C.BudgetOf, C.Capabilities, CapabilitiesTo, NonEmpty;
    var e, r := RunFacts(c, a);
    Finds(c, a);
    SearchIsAnswered(c, a);
    TermsOfRequest(c, ReceiptIdOf(a), Search);
    TermsOfRequest(c, ReceiptIdOf(a), Quote);
    TermsOfRequest(c, ReceiptIdOf(a), Execute);
    FirstIsCapability(CapabilitiesTo(a), e.providerId);
  }

  lemma {:induction false} FirstIsCapability(capabilities: seq<Json>, id: string)
    requires FirstById(capabilities, id).Some? && id != ""
    ensures exists i | 0 <= i < |capabilities| :: NonEmpty(At(Some(capabilities[i]), "providerId")).Some?
  {
    hide At;
    if At(Some(capabilities[0]), "providerId") == Some(Str(id)) {
      assert NonEmpty(At(Some(capabilities[0]), "providerId")).Some?;
    } else {
      FirstIsCapability(capabilities[1..], id);
      var i :| 0 <= i < |capabilities[1..]| && NonEmpty(At(Some(capabilities[1..][i]), "providerId")).Some?;
      assert capabilities[i + 1] == capabilities[1..][i];
    }
  }

  /** A provider summary at a positive amount is usable, and the checker reads the amount in it. */
  lemma SummaryIsUsable(v: Option<Json>, p: Provider, n: nat)
    requires ReadProvider(v) == Some(p) && Atomic(p[Amount]) == Some(n) && n > 0
    ensures C.Usable(v) && C.AmountOf(v) == Some(n) && FieldAt(v, ProviderId) == Some(p[ProviderId])
  {
    hide At, KeyOf, NatOf, ReadProvider, IsCanonical, FieldAt;
    assert FieldAt(v, Amount) == Some(p[Amount]) && FieldAt(v, ProviderId) == Some(p[ProviderId]);
    assert At(v, KeyOf(Amount)) == Some(Str(p[Amount]));
  }

  lemma TextIs(v: Option<Json>, s: string)
    requires NonEmpty(v) == Some(s)
    ensures v == Some(Str(s)) && AtomicAt(v) == Atomic(s)
  {
  }

  lemma QuoteReads(message: Json, q: QuoteSummary)
    requires ReadQuote(message) == Some(q)
    ensures var content := Content(Some(message));
            && NonEmpty(At(content, "providerId")) == Some(q.providerId)
            && NonEmpty(At(content, "quotedAmountAtomic")) == Some(q.quoted)
            && ModeAt(At(content, "executionMode")) == Some(q.mode) && Count(At(content, "maxAttempts")).Some?
            && ReadProvider(At(content, "provider")) == Some(q.provider)
            && q.ranked == WellFormedRanked(Elements(At(content, "rankedProviders")))
  {
    hide At, Content, NonEmpty, ModeAt, ReadProvider, WellFormedRanked, Elements;
  }

  lemma QuoteSection(c: Settings, a: Answers)
    requires ReadyRun(c, a) && QuoteRead(a)
    ensures C.QuoteContentOk(ContentTo(a, Quote)) <==> FirstRankedAgrees(a, ReadQuote(AnswerTo(a, Quote).value).value)
  {
    hide ReadyRun, QuoteRead, ReadQuote, Answered, AnswerTo, ReadProvider, Content, ExecutionOf, At, NonEmpty, ModeAt, ModeText, Count,
         FieldAt, C.RankedOk, RankedFor, Elements, C.Usable, C.AmountOf, NatOf, IsCanonical, ReceiptAgrees;
    var e, r := RunFacts(c, a);
    var q := QuoteFacts(c, a, e);
    var content := ContentTo(a, Quote);
    QuoteReads(AnswerTo(a, Quote).value, q);
    ModeIsText(At(content, "executionMode"), LiveSdk);
    SummaryIsUsable(At(content, "provider"), q.provider, Atomic(e.amountPaid).value);
    TextIs(At(content, "quotedAmountAtomic"), q.quoted);
  }

  lemma ExecutionReads(message: Json, e: ExecutionSummary)
    requires ReadExecution(message) == Some(e)
    ensures var content := Content(Some(message));
            && NonEmpty(At(content, "providerId")) == Some(e.providerId)
            && NonEmpty(At(content, "amountPaidAtomic")) == Some(e.amountPaid)
            && NonEmpty(At(content, "receiptId")) == Some(e.receiptId)
            && NonEmpty(At(content, "receiptVerificationStatus")) == Some(e.verification)
            && NonEmpty(At(content, "receiptRecordingStatus")) == e.recordingStatus
            && NonEmpty(At(content, "receiptRecordingSource")) == e.recordingSource
            && ModeAt(At(content, "executionMode")) == Some(e.mode)
            && NonEmpty(At(content, "referrerCreditAtomic")) == Some(e.credit)
            && ReadProvider(At(content, "provider")) == Some(e.provider)
  {
    hide At, Content, NonEmpty, ModeAt, ReadProvider;
  }

  lemma RecordingSection(content: Option<Json>, e: ExecutionSummary, c: Settings)
    requires ExecutionAgrees(e, c) && c.mode.LiveSdk?
    requires NonEmpty(At(content, "receiptVerificationStatus")) == Some(e.verification)
    requires NonEmpty(At(content, "receiptRecordingStatus")) == e.recordingStatus
    requires NonEmpty(At(content, "receiptRecordingSource")) == e.recordingSource
    ensures C.RecordingOk(content)
  {
    hide At, NonEmpty, Atomic, PositiveDigits;
    TextIs(At(content, "receiptVerificationStatus"), "verified");
    TextIs(At(content, "receiptRecordingStatus"), e.recordingStatus.value);
    TextIs(At(content, "receiptRecordingSource"), "buyer");
  }

  lemma ExecuteSection(c: Settings, a: Answers)
    requires ReadyRun(c, a)
    ensures C.ExecuteContentOk(ContentTo(a, Execute))
  {
    hide ReadyRun, ReadQuote, ReadExecution, Answered, AnswerTo, ReadProvider, Content, ExecutionOf, At, NonEmpty, ModeAt, ModeText,
         FieldAt, C.Usable, C.AmountOf, NatOf, IsCanonical, C.RecordingOk, PositiveDigits, ReceiptAgrees, QuoteAgrees;
    var e, r := RunFacts(c, a);
    var content := ContentTo(a, Execute);
    ExecutionReads(AnswerTo(a, Execute).value, e);
    RecordingSection(content, e, c);
    ModeIsText(At(content, "executionMode"), LiveSdk);
    SummaryIsUsable(At(content, "provider"), e.provider, Atomic(e.amountPaid).value);
    TextIs(At(content, "referrerCreditAtomic"), e.credit);
    PositiveReadersAgree(e.credit);
  }

  /** The summary of the selected capability is the executed one exactly when the checker finds it so. */
  lemma SelectedSection(c: Settings, a: Answers)
    requires ReadyRun(c, a)
    ensures C.ProvidersOk(TranscriptOf(c, a)) <==>
            LastAgrees(a, ExecutionOf(a).value) && ReadProvider(At(ContentTo(a, Quote), "provider")) == Some(ExecutionOf(a).value.provider)
  {
    hide ReadyRun, ReadExecution, Answered, AnswerTo, ReadProvider, Content, ExecutionOf, At, NonEmpty, FieldAt,
         C.Usable, C.AmountOf, NatOf, IsCanonical, PositiveDigits, ReceiptAgrees, TranscriptOf, CapabilitiesTo, C.Capabilities,
         C.ContentOf, C.LastById, Atomic;
    var e, r := RunFacts(c, a);
    Finds(c, a);
    ExecutionReads(AnswerTo(a, Execute).value, e);
    assert C.Selected(TranscriptOf(c, a)) == C.LastById(CapabilitiesTo(a), e.providerId);
    var last := C.LastById(CapabilitiesTo(a), e.providerId);
    if ReadProvider(last) == Some(e.provider) {
      SummaryIsUsable(last, e.provider, Atomic(e.amountPaid).value);
    }
  }

  /** The payment passes exactly when a positive quoted amount is the amount that was paid. */
  lemma PaymentSection(c: Settings, a: Answers)
    requires ReadyRun(c, a)
    ensures C.PaymentOk(TranscriptOf(c, a)) <==>
            C.ReadsAs(PositiveAt(At(ContentTo(a, Quote), "quotedAmountAtomic")), Atomic(ExecutionOf(a).value.amountPaid))
  {
    hide ReadyRun, ReadExecution, Answered, AnswerTo, ReadProvider, Content, ExecutionOf, At, NonEmpty, NatOf, IsCanonical,
         PositiveDigits, ReceiptAgrees, TranscriptOf, CapabilitiesTo, C.Capabilities, C.ContentOf, RankedFor, C.FindRequest, C.BudgetOf,
         RequestMessage, AtomicAt, Atomic, PositiveAt;
    var e, r := RunFacts(c, a);
    Finds(c, a);
    ExecutionReads(AnswerTo(a, Execute).value, e);
    TextIs(At(ContentTo(a, Execute), "amountPaidAtomic"), e.amountPaid);
    ReadyCapability(c, a);
    TermsOfRequest(c, ReceiptIdOf(a), Execute);
  }

  /** The tests that involve the quote, for a quote with a summary. */
  lemma ReadQuoteSections(c: Settings, a: Answers)
    requires ReadyRun(c, a) && QuoteRead(a)
    ensures C.QuoteContentOk(ContentTo(a, Quote)) && C.ProvidersOk(TranscriptOf(c, a)) && C.PaymentOk(TranscriptOf(c, a)) <==>
            LastAgrees(a, ExecutionOf(a).value) && QuoteResidual(a, ExecutionOf(a).value)
  {
    hide ReadyRun, ReadQuote, AnswerTo, ReadProvider, Content, ExecutionOf, At, NonEmpty, NatOf, IsCanonical, ModeAt, Count, Elements,
         ReceiptAgrees, TranscriptOf, Atomic, C.QuoteContentOk, C.ProvidersOk, C.PaymentOk, LastAgrees, FirstRankedAgrees,
         BareQuoteAgrees, QuoteRead, ExecutionAgrees, RankedFor, WellFormedRanked, ContentTo;
    var e, r := RunFacts(c, a);
    var q := QuoteFacts(c, a, e);
    QuoteReads(AnswerTo(a, Quote).value, q);
    assert ContentTo(a, Quote) == Content(AnswerTo(a, Quote)) by { ContentIs(a, Quote); }
    QuoteSection(c, a);
    SelectedSection(c, a);
    PaymentSection(c, a);
    TextIs(At(ContentTo(a, Quote), "quotedAmountAtomic"), q.quoted);
  }

  lemma ContentIs(a: Answers, step: Step)
    ensures ContentTo(a, step) == Content(AnswerTo(a, step))
  {
  }

  /** The same, for a quote without a summary. */
  lemma BareQuoteSections(c: Settings, a: Answers)
    requires ReadyRun(c, a) && !QuoteRead(a)
    ensures C.QuoteContentOk(ContentTo(a, Quote)) && C.ProvidersOk(TranscriptOf(c, a)) && C.PaymentOk(TranscriptOf(c, a)) <==>
            LastAgrees(a, ExecutionOf(a).value) && QuoteResidual(a, ExecutionOf(a).value)
  {
    hide ReadyRun, ReadQuote, AnswerTo, ReadProvider, Content, ExecutionOf, At, NonEmpty, NatOf, IsCanonical, ModeAt, Count, Elements,
         ReceiptAgrees, TranscriptOf, Atomic, C.ProvidersOk, C.PaymentOk, LastAgrees, FirstRankedAgrees, QuoteRead, RankedFor,
         WellFormedRanked, ContentTo, C.RankedOk, C.Usable, C.AmountOf, FieldAt, PositiveAt, ModeText;
    var e, r := RunFacts(c, a);
    BareQuote(c, a);
    SelectedSection(c, a);
    PaymentSection(c, a);
    var content := ContentTo(a, Quote);
    ModeIsText(At(content, "executionMode"), LiveSdk);
    if ReadProvider(At(content, "provider")) == Some(e.provider) {
      SummaryIsUsable(At(content, "provider"), e.provider, Atomic(e.amountPaid).value);
    }
  }

  lemma BareQuote(c: Settings, a: Answers)
    requires ReadyRun(c, a) && !QuoteRead(a)
    ensures var content := ContentTo(a, Quote);
            NonEmpty(At(content, "quotedAmountAtomic")).Some? && Count(At(content, "maxAttempts")).Some?
  {
    hide ReadQuote, ReadExecution, ReadReceipt, ExecutionAgrees, ReceiptAgrees, QuoteAgrees, ReadSearchProvider, NoError,
         At, NonEmpty, Count, ModeAt, ReadProvider, Content, Conforming, AnswerTo;
    assert OnlyRankedUnreadable(AnswerTo(a, Quote).value);
  }

  lemma ReadyCapability(c: Settings, a: Answers)
    requires ReadyRun(c, a)
    ensures c.capability != ""
  {
    hide Ready, ReadQuote, Answered, AnswerTo, Conforming;
  }

  lemma ReceiptReads(message: Json, r: ReceiptSummary)
    requires ReadReceipt(message) == Some(r)
    ensures var receipt := At(Content(Some(message)), "receipt");
            && NonEmpty(At(receipt, "referrerCreditAtomic")) == Some(r.credit)
            && NonEmpty(At(receipt, "commissionAmountAtomic")) == Some(r.commission)
            && NonEmpty(At(receipt, "protocolFeeAtomic")) == Some(r.fee)
            && BasisPoints(At(receipt, "commissionBps")) == Some(r.commissionBps)
            && BasisPoints(At(receipt, "protocolFeeBpsOfCommission")) == Some(r.feeBps)
  {
    hide At, Content, NonEmpty, BasisPoints;
  }

  lemma RequiredIsTerm(message: Json, r: ReceiptSummary)
    requires ReadReceipt(message) == Some(r)
    ensures Amount in r.terms
    ensures NonEmpty(At(At(Content(Some(message)), "receipt"), "requiredAmountAtomic")) == Some(r.terms[Amount])
    ensures forall f: Field | f != ProviderId && f != Source && f != Amount ::
              f in r.terms && NonEmpty(At(At(Content(Some(message)), "receipt"), KeyOf(f))) == Some(r.terms[f])
  {
    hide At, Content, NonEmpty, BasisPoints, ReadReceipt, KeyOf;
    TermsAre();
    assert TermKey(Amount) == "requiredAmountAtomic";
    forall f: Field | f != ProviderId && f != Source && f != Amount
      ensures f in r.terms && NonEmpty(At(At(Content(Some(message)), "receipt"), KeyOf(f))) == Some(r.terms[f])
    {
      assert TermKey(f) == KeyOf(f);
    }
  }

  lemma EconomicsSection(message: Json, r: ReceiptSummary)
    requires ReadReceipt(message) == Some(r) && Amount in r.terms && Unrefuted(r)
    ensures C.EconomicsOk(At(Content(Some(message)), "receipt"))
  {
    hide At, Content, NonEmpty, BasisPoints, ReadReceipt, NatOf, IsCanonical, Atomic, PositiveDigits, AtomicAt, PositiveAt;
    var receipt := At(Content(Some(message)), "receipt");
    ReceiptReads(message, r);
    RequiredIsTerm(message, r);
    TextIs(At(receipt, "referrerCreditAtomic"), r.credit);
    TextIs(At(receipt, "commissionAmountAtomic"), r.commission);
    TextIs(At(receipt, "protocolFeeAtomic"), r.fee);
    TextIs(At(receipt, "requiredAmountAtomic"), r.terms[Amount]);
    PositiveReadersAgree(r.commission);
  }

  lemma CheckedTerms()
    ensures forall f: Field | f in C.RAW_TERMS + C.READ_TERMS :: f != ProviderId && f != Source && f != Amount
  {
  }

  lemma TermsSection(message: Json, r: ReceiptSummary, executed: Option<Json>, p: Provider)
    requires ReadReceipt(message) == Some(r) && ReadProvider(executed) == Some(p) && TermsAgree(r, p)
    ensures C.TermsOk(At(Content(Some(message)), "receipt"), executed)
  {
    hide At, Content, NonEmpty, ReadReceipt, ReadProvider, FieldAt, KeyOf;
    RequiredIsTerm(message, r);
    TermsAre();
    CheckedTerms();
    forall f | f in C.RAW_TERMS + C.READ_TERMS
      ensures NonEmpty(At(At(Content(Some(message)), "receipt"), KeyOf(f))) == FieldAt(executed, f)
    {
      assert r.terms[f] == p[f] && FieldAt(executed, f) == Some(p[f]);
    }
  }

  lemma ReceiptSection(c: Settings, a: Answers)
    requires ReadyRun(c, a)
    ensures C.ReceiptOk(TranscriptOf(c, a)) <==> ReceiptEchoed(a, ExecutionOf(a).value)
  {
    hide ReadyRun, ReadQuote, ReadExecution, ReadReceipt, Answered, AnswerTo, ReadProvider, Content, ExecutionOf, At, NonEmpty, FieldAt,
         C.Usable, C.AmountOf, NatOf, IsCanonical, PositiveDigits, TranscriptOf, C.Reply, C.ContentOf, Atomic, AtomicAt, Unrefuted,
         TermsAgree, C.TermsOk, C.EconomicsOk, QuoteAgrees;
    var e, r := RunFacts(c, a);
    Finds(c, a);
    var execute, receipt := ContentTo(a, Execute), At(ContentTo(a, GetReceipt), "receipt");
    ExecutionReads(AnswerTo(a, Execute).value, e);
    ReceiptReads(AnswerTo(a, GetReceipt).value, r);
    RequiredIsTerm(AnswerTo(a, GetReceipt).value, r);
    TextIs(At(execute, "receiptId"), e.receiptId);
    TextIs(At(execute, "referrerCreditAtomic"), e.credit);
    TextIs(At(receipt, "referrerCreditAtomic"), e.credit);
    TextIs(At(execute, "amountPaidAtomic"), e.amountPaid);
    RequiredIsPaid(r, e);
    TextIs(At(receipt, "requiredAmountAtomic"), e.amountPaid);
    SummaryIsUsable(At(execute, "provider"), e.provider, Atomic(e.amountPaid).value);
    EconomicsSection(AnswerTo(a, GetReceipt).value, r);
    TermsSection(AnswerTo(a, GetReceipt).value, r, At(execute, "provider"), e.provider);
  }

  lemma RequiredIsPaid(r: ReceiptSummary, e: ExecutionSummary)
    requires (forall f | f in TERMS :: f in r.terms) && TermsAgree(r, e.provider) && e.provider[Amount] == e.amountPaid
    ensures Amount in r.terms && r.terms[Amount] == e.amountPaid
  {
    TermsAre();
  }

  /** For every ready run, the checker accepts the collector's transcript if and only if the answers pass
      what only the checker reads.  Everything else the checker tests follows from what the collector
      tested, in particular that a quote with a summary agrees with the selected provider. */
  lemma AcceptedIff(c: Settings, a: Answers)
    requires ReadyRun(c, a)
    ensures ExecutionOf(a).Some?
    ensures C.Accepted(TranscriptOf(c, a)) <==> Residual(a)
  {
    hide ReadyRun, ReadQuote, ReadExecution, Answered, AnswerTo, ReadProvider, Content, ExecutionOf, TranscriptOf, C.Reply, C.ContentOf,
         C.SearchOk, C.SameTerms, C.QuoteContentOk, C.ExecuteContentOk, C.ProvidersOk, C.PaymentOk, C.ReceiptOk, ContentTo, C.OffersTool,
         LastAgrees, ReceiptEchoed, QuoteResidual, ExecutionAgrees, ReceiptAgrees, QuoteRead, At, IsToolCall;
    var e, r := RunFacts(c, a);
    Finds(c, a);
    SearchSection(c, a);
    if QuoteRead(a) { ReadQuoteSections(c, a); } else { BareQuoteSections(c, a); }
    ExecuteSection(c, a);
    ReceiptSection(c, a);
  }

  // --- continuity with discovery ------------------------------------------------------------------------------------------------

  ghost predicate NamesRoute(route: Json, id: string) {
    At(Some(route), "id") == Some(Str(id)) || At(Some(route), "routeId") == Some(Str(id))
  }

  /** The first route that is named so. */
  ghost predicate FirstRoute(routes: seq<Json>, i: int, id: string) {
    0 <= i < |routes| && NamesRoute(routes[i], id) && forall j | 0 <= j < i :: !NamesRoute(routes[j], id)
  }

  ghost predicate ServesProvider(route: Json, p: Provider) {
    && At(Some(route), "campaignId") == Some(Str(p[CampaignId]))
    && At(Some(route), "referrerWallet") == Some(Str(p[ReferrerWallet]))
    && At(Some(route), "payoutWallet") == Some(Str(p[PayoutWallet]))
  }

  /** The route of a provider is among the discovered ones, with its campaign and its wallets. */
  ghost predicate RouteDiscovered(p: Provider, discovery: C.Attachment) {
    match discovery
    case NotAttached => true
    case Unreadable => false
    case Attached(artifact) =>
      forall routes | At(Some(artifact), "routes") == Some(Arr(routes)) :: HasRoute(routes, p)
  }

  ghost predicate HasRoute(routes: seq<Json>, p: Provider) {
    exists i | FirstRoute(routes, i, p[RouteId]) :: ServesProvider(routes[i], p)
  }

  lemma {:induction false} RouteByIdIs(routes: seq<Json>, id: string)
    ensures var r := C.RouteById(routes, id);
            if r.Some? then exists i | FirstRoute(routes, i, id) :: r == Some(routes[i]) else forall i :: !FirstRoute(routes, i, id)
  {
    hide NamesRoute;
    if routes != [] {
      RouteByIdIs(routes[1..], id);
      assert NamesRoute(routes[0], id) <==> At(Some(routes[0]), "id") == Some(Str(id)) || At(Some(routes[0]), "routeId") == Some(Str(id))
        by { NamesRouteIs(routes[0], id); }
      if NamesRoute(routes[0], id) {
        assert FirstRoute(routes, 0, id);
      } else {
        forall i ensures FirstRoute(routes, i, id) <==> FirstRoute(routes[1..], i - 1, id) { FirstRouteTail(routes, i, id); }
        if C.RouteById(routes, id).Some? {
          var k :| FirstRoute(routes[1..], k, id) && C.RouteById(routes, id) == Some(routes[1..][k]);
          assert FirstRoute(routes, k + 1, id) && routes[k + 1] == routes[1..][k];
        }
      }
    }
  }

  lemma NamesRouteIs(route: Json, id: string)
    ensures NamesRoute(route, id) <==> At(Some(route), "id") == Some(Str(id)) || At(Some(route), "routeId") == Some(Str(id))
  {
  }

  lemma {:induction false} FirstRouteTail(routes: seq<Json>, i: int, id: string)
    requires routes != [] && !NamesRoute(routes[0], id)
    ensures FirstRoute(routes, i, id) <==> FirstRoute(routes[1..], i - 1, id)
  {
    hide NamesRoute;
    assert forall j | 0 <= j < |routes| - 1 :: routes[1..][j] == routes[j + 1];
    if FirstRoute(routes[1..], i - 1, id) {
      forall j | 0 <= j < i ensures !NamesRoute(routes[j], id) {
        if j > 0 { assert routes[1..][j - 1] == routes[j]; }
      }
    }
  }

  lemma FirstRouteOnce(routes: seq<Json>, i: int, j: int, id: string)
    requires FirstRoute(routes, i, id) && FirstRoute(routes, j, id)
    ensures i == j
  {
    hide NamesRoute;
  }

  lemma TextAt(v: Option<Json>, s: string)
    requires s != ""
    ensures NonEmpty(v) == Some(s) <==> v == Some(Str(s))
  {
  }

  lemma FieldIsText(v: Option<Json>, p: Provider, f: Field)
    requires ReadProvider(v) == Some(p) && f != Source
    ensures p[f] != ""
  {
    hide At, KeyOf, ReadProvider;
    SummaryField(v, p, f);
  }

  lemma SummaryField(v: Option<Json>, p: Provider, f: Field)
    requires ReadProvider(v) == Some(p) && f != Source
    ensures NonEmpty(At(v, KeyOf(f))) == Some(p[f])
  {
    hide At, KeyOf, NonEmpty, ReadProvider;
    assert FieldAt(v, f) == Some(p[f]);
  }

  lemma FieldContinues(route: Json, v: Option<Json>, p: Provider, f: Field)
    requires ReadProvider(v) == Some(p) && f != Source
    ensures NonEmpty(At(v, KeyOf(f))) == Some(p[f])
    ensures NonEmpty(At(Some(route), KeyOf(f))) == Some(p[f]) <==> At(Some(route), KeyOf(f)) == Some(Str(p[f]))
  {
    hide At, NonEmpty, ReadProvider, KeyOf;
    SummaryField(v, p, f);
    FieldIsText(v, p, f);
    TextAt(At(Some(route), KeyOf(f)), p[f]);
  }

  lemma ContinuedAre()
    ensures forall f: Field :: f in C.CONTINUED <==> f == CampaignId || f == ReferrerWallet || f == PayoutWallet
    ensures KeyOf(CampaignId) == "campaignId" && KeyOf(ReferrerWallet) == "referrerWallet" && KeyOf(PayoutWallet) == "payoutWallet"
  {
    var keys := C.CONTINUED;
    assert keys[0] == CampaignId && keys[1] == ReferrerWallet && keys[2] == PayoutWallet;
  }

  lemma ServesIff(route: Json, p: Provider)
    ensures (forall f | f in C.CONTINUED :: At(Some(route), KeyOf(f)) == Some(Str(p[f]))) <==> ServesProvider(route, p)
  {
    hide At, KeyOf, C.CONTINUED;
    ContinuedAre();
    assert CampaignId in C.CONTINUED && ReferrerWallet in C.CONTINUED && PayoutWallet in C.CONTINUED;
  }

  /** A route continues a provider exactly if it has its campaign and its wallets. */
  lemma ContinuedFields(route: Json, v: Option<Json>, p: Provider)
    requires ReadProvider(v) == Some(p)
    ensures (forall f | f in C.CONTINUED && NonEmpty(At(v, KeyOf(f))).Some? ::
               NonEmpty(At(Some(route), KeyOf(f))) == NonEmpty(At(v, KeyOf(f)))) <==> ServesProvider(route, p)
  {
    hide At, NonEmpty, ReadProvider, KeyOf, C.CONTINUED, ServesProvider;
    ServesIff(route, p);
    forall f | f in C.CONTINUED
      ensures NonEmpty(At(v, KeyOf(f))) == Some(p[f])
      ensures NonEmpty(At(Some(route), KeyOf(f))) == Some(p[f]) <==> At(Some(route), KeyOf(f)) == Some(Str(p[f]))
    {
      NoSource(f);
      FieldContinues(route, v, p, f);
    }
  }

  lemma NoSource(f: Field)
    requires f in C.CONTINUED
    ensures f != Source
  {
  }

  lemma RouteContinues(routes: seq<Json>, v: Option<Json>, p: Provider)
    requires ReadProvider(v) == Some(p)
    ensures var route := C.RouteById(routes, p[RouteId]);
            (route.Some? && forall f | f in C.CONTINUED && NonEmpty(At(v, KeyOf(f))).Some? ::
               NonEmpty(At(route, KeyOf(f))) == NonEmpty(At(v, KeyOf(f))))
            <==> HasRoute(routes, p)
  {
    hide At, NonEmpty, ReadProvider, KeyOf, C.CONTINUED, C.RouteById, ServesProvider, NamesRoute;
    RouteByIdIs(routes, p[RouteId]);
    if C.RouteById(routes, p[RouteId]).Some? {
      var i :| FirstRoute(routes, i, p[RouteId]) && C.RouteById(routes, p[RouteId]) == Some(routes[i]);
      ContinuedFields(routes[i], v, p);
      forall j | FirstRoute(routes, j, p[RouteId]) ensures j == i { FirstRouteOnce(routes, i, j, p[RouteId]); }
    }
  }

  lemma ContinuesIff(v: Option<Json>, p: Provider, discovery: C.Attachment)
    requires ReadProvider(v) == Some(p)
    ensures C.Continues(v, p[RouteId], discovery) <==> RouteDiscovered(p, discovery)
  {
    hide At, NonEmpty, ReadProvider, KeyOf, C.CONTINUED, C.RouteById, HasRoute;
    if discovery.Attached? { RouteContinues(Elements(At(Some(discovery.artifact), "routes")), v, p); }
  }

  /** For every ready run, the continuity test, which reads the first capability of the executed provider and
      not the last, is a test of the executed provider. */
  lemma DiscoveryIff(c: Settings, a: Answers, discovery: C.Attachment)
    requires ReadyRun(c, a)
    ensures ExecutionOf(a).Some?
    ensures C.DiscoveryPass(TranscriptOf(c, a), discovery) <==> RouteDiscovered(ExecutionOf(a).value.provider, discovery)
  {
    hide ReadyRun, ReadExecution, Answered, AnswerTo, ReadProvider, Content, ExecutionOf, At, NonEmpty, TranscriptOf, CapabilitiesTo,
         C.Capabilities, C.ContentOf, C.Continues, RouteDiscovered, FirstById, KeyOf, ReceiptAgrees, ExecutionAgrees;
    var e, r := RunFacts(c, a);
    Finds(c, a);
    ReadySearch(c, a);
    ExecutionReads(AnswerTo(a, Execute).value, e);
    var first := FirstById(CapabilitiesTo(a), e.providerId);
    SummaryField(first, e.provider, RouteId);
    ContinuesIff(first, e.provider, discovery);
  }

  lemma ReadySearch(c: Settings, a: Answers)
    requires ReadyRun(c, a)
    ensures ExecutionOf(a).Some?
    ensures var e := ExecutionOf(a).value;
            && FirstById(CapabilitiesTo(a), e.providerId).Some?
            && ReadProvider(FirstById(CapabilitiesTo(a), e.providerId)) == Some(e.provider) && e.providerId != ""
  {
    hide Ready, Conforming, ReadQuote, Answered, AnswerTo, ReadProvider, FirstById;
    SearchIsAnswered(c, a);
  }
}
