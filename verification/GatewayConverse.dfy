/** The other direction: what the checker accepts, the collector calls ready, up to what only the collector reads. */
module GatewayConverse {
  import opened Text
  import opened Json
  import opened JsonRead
  import opened JsonLines
  import opened GatewayMessages
  import opened GatewayCollector
  import opened GatewayTranscript
  import opened GatewayAgreement
  import opened GatewayProof
  import C = GatewayChecker

  // --- what an accepted transcript was made of ------------------------------------------------------------------------

  predicate AllEcho(a: Answers) {
    forall step: Step :: EchoesId(a, step)
  }

  /** In the transcript of any run, the checker finds the requests that were made, and as their replies the
      answers that are no errors. */
  lemma {:induction false} StepReply(c: Settings, a: Answers, step: Step)
    requires AllEcho(a)
    ensures var lines, q := TranscriptOf(c, a), QueryOf(step, ReceiptIdOf(a));
            && C.FindRequest(lines, q) == (if step in StepsOf(c, a) then Some(RequestMessage(c, ReceiptIdOf(a), step)) else None)
            && C.Reply(lines, q) == (if step in StepsOf(c, a) && Answered(AnswerTo(a, step)) then AnswerTo(a, step) else None)
  {
    hide RequestMessage, C.Matches, AnswerTo, IdOf, QueryOf, EchoesId, Answered, Exchanges, ExecutionOf, At, MethodOf, ToolName,
         ArgumentsOf, StepsOf, ReceiptIdOf;
    InExchanges(c, ReceiptIdOf(a), a, StepsOf(c, a), step);
    RequestEnvelope(c, ReceiptIdOf(a), step);
  }

  lemma Asked(c: Settings, a: Answers)
    ensures Execute in StepsOf(c, a) ==> c.capture
    ensures ReceiptIdOf(a) == if ExecutionOf(a).None? then "" else ExecutionOf(a).value.receiptId
  {
    hide ExecutionOf;
    assert Execute !in OPENING;
  }

  lemma NothingIn(key: string)
    ensures Content(None).None? && At(None, key).None? && NonEmpty(None).None?
  {
  }

  /** An accepted execute content can be read. */
  lemma ExecuteIsRead(message: Json)
    requires C.ExecuteContentOk(Content(Some(message)))
    ensures ReadExecution(message).Some?
  {
    hide At, Content, NonEmpty, ReadProvider, FieldAt, ModeText, ModeAt, PositiveAt, C.RecordingOk, C.AmountOf;
    var content := Content(Some(message));
    ModeIsText(At(content, "executionMode"), LiveSdk);
    VerifiedIsText(content);
    C.PositiveIsText(At(content, "referrerCreditAtomic"));
  }

  lemma VerifiedIsText(content: Option<Json>)
    requires C.RecordingOk(content)
    ensures NonEmpty(At(content, "receiptVerificationStatus")) == Some("verified")
    ensures NonEmpty(At(content, "receiptRecordingStatus")) in {Some("created"), Some("duplicate")}
    ensures NonEmpty(At(content, "receiptRecordingSource")) == Some("buyer")
  {
    hide At;
  }

  /** The execute answer of an accepted transcript was asked for, is no error, and can be read. */
  lemma AcceptedExecution(c: Settings, a: Answers)
    requires AllEcho(a) && C.ExecuteOk(TranscriptOf(c, a))
    ensures c.capture && Answered(AnswerTo(a, Execute)) && ExecutionOf(a).Some?
    ensures C.ContentOf(TranscriptOf(c, a), Execute) == ContentTo(a, Execute)
  {
    hide AllEcho, Answered, AnswerTo, ReadExecution, Content, At, TranscriptOf, C.FindRequest, C.Reply, RequestMessage, NonEmpty,
         C.ProvidersOk, C.PaymentOk, C.CapabilityOf, C.BudgetOf, C.RecordingOk, C.Usable, FieldAt, PositiveAt, ModeText, StepsOf,
         ReceiptIdOf;
    StepReply(c, a, Execute);
    Asked(c, a);
    NothingIn("providerId");
    AnsweredIsSome(AnswerTo(a, Execute));
    ExecuteIsRead(AnswerTo(a, Execute).value);
  }

  /** Every answer of an accepted transcript was asked for and is no error. */
  lemma AcceptedAnswers(c: Settings, a: Answers)
    requires AllEcho(a) && C.Accepted(TranscriptOf(c, a))
    ensures c.capture && ExecutionOf(a).Some? && forall step: Step :: Answered(AnswerTo(a, step))
    ensures var lines := TranscriptOf(c, a);
            && C.ContentOf(lines, Quote) == ContentTo(a, Quote) && C.ContentOf(lines, Execute) == ContentTo(a, Execute)
            && C.Capabilities(lines) == CapabilitiesTo(a)
            && C.ReceiptContent(lines) == ContentTo(a, GetReceipt)
            && C.FindRequest(lines, C.ByTool(Execute)) == Some(RequestMessage(c, ReceiptIdOf(a), Execute))
  {
    hide AllEcho, Answered, AnswerTo, ExecutionOf, Content, TranscriptOf, C.FindRequest, C.Reply, RequestMessage, C.ExecuteOk,
         C.ToolsOk, C.SearchOk, C.QuoteOk, C.ReceiptOk, ReceiptIdOf, StepsOf, At, C.ReceiptContent;
    AcceptedExecution(c, a);
    AllSteps(c, a);
    StepReply(c, a, Initialize);
    StepReply(c, a, ListTools);
    StepReply(c, a, Search);
    StepReply(c, a, Quote);
    StepReply(c, a, Execute);
    ToolsAnswered(TranscriptOf(c, a));
    SearchAnswered(TranscriptOf(c, a));
    QuoteAnswered(TranscriptOf(c, a));
    AcceptedReceipt(c, a);
    forall step: Step ensures Answered(AnswerTo(a, step)) {
      match step
      case Initialize =>
      case ListTools =>
      case Search =>
      case Quote =>
      case Execute =>
      case GetReceipt =>
    }
  }

  lemma ToolsAnswered(lines: seq<Line>)
    requires C.ToolsOk(lines)
    ensures C.Reply(lines, C.ByMethod(ListTools)).Some?
  {
    hide C.OffersTool, C.Reply, At;
  }

  lemma SearchAnswered(lines: seq<Line>)
    requires C.SearchOk(lines)
    ensures C.Reply(lines, C.ByTool(Search)).Some?
  {
    hide C.Reply, C.FindRequest, NonEmpty;
    NothingIn("capabilities");
  }

  lemma QuoteAnswered(lines: seq<Line>)
    requires C.QuoteOk(lines)
    ensures C.Reply(lines, C.ByTool(Quote)).Some?
  {
    hide C.Reply, C.FindRequest, At, Content, C.SameTerms, C.Usable, C.RankedOk, FieldAt, PositiveAt, ModeText, Count, NonEmpty;
    NothingIn("providerId");
  }

  lemma AcceptedReceipt(c: Settings, a: Answers)
    requires AllEcho(a) && C.ExecuteOk(TranscriptOf(c, a)) && C.ReceiptOk(TranscriptOf(c, a))
    ensures Answered(AnswerTo(a, GetReceipt)) && C.ReceiptContent(TranscriptOf(c, a)) == ContentTo(a, GetReceipt)
  {
    hide AllEcho, Answered, AnswerTo, ReadExecution, Content, At, TranscriptOf, C.FindRequest, C.Reply, RequestMessage, NonEmpty,
         C.ExecuteOk, C.ReceiptRecordOk, StepsOf, ExecutionOf, C.ContentOf;
    AcceptedExecution(c, a);
    AllSteps(c, a);
    Asked(c, a);
    StepReply(c, a, GetReceipt);
    ReceiptIdIs(a);
    NothingIn("receiptId");
  }

  lemma ReceiptIdIs(a: Answers)
    requires ExecutionOf(a).Some?
    ensures AnswerTo(a, Execute).Some? && ReadExecution(AnswerTo(a, Execute).value) == ExecutionOf(a)
    ensures At(ContentTo(a, Execute), "receiptId") == Some(Str(ExecutionOf(a).value.receiptId))
    ensures NonEmpty(At(ContentTo(a, Execute), "receiptId")) == Some(ExecutionOf(a).value.receiptId)
  {
    hide AnswerTo, ReadExecution, Content, At, NonEmpty;
    ExecutionReads(AnswerTo(a, Execute).value, ExecutionOf(a).value);
    TextIs(At(ContentTo(a, Execute), "receiptId"), ExecutionOf(a).value.receiptId);
  }

  /** An error answer to any of the six requests is never accepted, and to the last three never ready. */
  lemma ErrorIsNeverAccepted(c: Settings, a: Answers, step: Step)
    requires AllEcho(a) && At(AnswerTo(a, step), "error").Some?
    ensures !C.Accepted(TranscriptOf(c, a))
    ensures step in {Quote, Execute, GetReceipt} ==> !Ready(c, a)
  {
    hide AllEcho, C.Accepted, TranscriptOf, At, AnswerTo, Ready;
    if C.Accepted(TranscriptOf(c, a)) { AcceptedAnswers(c, a); }
    if Ready(c, a) { CapturedAnswers(c, a); }
  }

  // --- what remains for the collector ------------------------------------------------------------------------------------

  /** The paid amount can be read as an amount. */
  predicate PaymentRead(a: Answers) {
    AtomicAt(At(ContentTo(a, Execute), "amountPaidAtomic")).Some?
  }

  /** The first capability of the executed provider says what the execution says. */
  predicate FirstAgrees(a: Answers, e: ExecutionSummary) {
    ReadProvider(FirstById(CapabilitiesTo(a), e.providerId)) == Some(e.provider)
  }

  /** No ranked entry can be read, or the quoted amount is the provider's to the letter and the provider's
      first entry is ranked 1 at it. */
  predicate RanksAgree(a: Answers, e: ExecutionSummary) {
    var ranked := WellFormedRanked(Elements(At(ContentTo(a, Quote), "rankedProviders")));
    || ranked == []
    || (&& NonEmpty(At(ContentTo(a, Quote), "quotedAmountAtomic")) == Some(e.provider[Amount])
        && RankedFor(ranked, e.providerId) == Some(Ranked(1, e.providerId, e.provider[Amount])))
  }

  /** What only the collector reads. */
  predicate CollectorResidual(a: Answers)
    requires ExecutionOf(a).Some?
  {
    PaymentRead(a) && FirstAgrees(a, ExecutionOf(a).value) && RanksAgree(a, ExecutionOf(a).value)
  }

  /** The execution of an accepted transcript agrees with the settings exactly when its payment can be read. */
  lemma ExecutionSide(c: Settings, a: Answers, e: ExecutionSummary)
    requires AllEcho(a) && C.Accepted(TranscriptOf(c, a)) && c.mode.LiveSdk? && Atomic(c.maxAmount).Some? && ExecutionOf(a) == Some(e)
    ensures PaymentRead(a) <==> ExecutionAgrees(e, c)
    ensures PaymentRead(a) <==> e.amountPaid == e.provider[Amount]
  {
    hide AllEcho, AnswerTo, ReadExecution, Content, At, TranscriptOf, NonEmpty, C.SearchOk, C.QuoteOk, C.ReceiptOk, C.ProvidersOk,
         C.SameTerms, ExecutionOf, C.ContentOf, ReadProvider, FieldAt, C.AmountOf, ModeText, ModeAt, PositiveAt, PositiveDigits,
         Atomic, RequestMessage, ReceiptIdOf, C.ToolsOk, C.BudgetOf, C.FindRequest, Answered, KeyOf, ContentTo;
    var lines, content := TranscriptOf(c, a), ContentTo(a, Execute);
    AcceptedAnswers(c, a);
    ReceiptIdIs(a);
    ContentIs(a, Execute);
    ExecutionReads(AnswerTo(a, Execute).value, e);
    AcceptedIsExact(lines);
    AcceptedBudget(c, a);
    VerifiedIsText(content);
    ModeIsText(At(content, "executionMode"), LiveSdk);
    TextIs(At(content, "amountPaidAtomic"), e.amountPaid);
    TextIs(At(content, "referrerCreditAtomic"), e.credit);
    PositiveReadersAgree(e.credit);
    UsableFieldsAre(At(content, "provider"), e.provider);
  }

  lemma UsableFieldsAre(v: Option<Json>, p: Provider)
    requires ReadProvider(v) == Some(p)
    ensures FieldAt(v, ProviderId) == Some(p[ProviderId])
    ensures At(v, "amountAtomic") == Some(Str(p[Amount]))
  {
    hide ReadProvider, At, KeyOf;
    AmountKey();
    assert FieldAt(v, Amount) == Some(p[Amount]);
  }

  lemma AmountKey()
    ensures KeyOf(Amount) == "amountAtomic"
  {
  }

  /** The budget of the execute request is the maximum amount. */
  lemma AcceptedBudget(c: Settings, a: Answers)
    requires AllEcho(a) && C.Accepted(TranscriptOf(c, a)) && Atomic(c.maxAmount).Some?
    ensures C.BudgetOf(C.FindRequest(TranscriptOf(c, a), C.ByTool(Execute))) == Some(c.maxAmount)
  {
    hide AllEcho, TranscriptOf, RequestMessage, C.ToolsOk, C.QuoteOk, C.ExecuteOk, C.ReceiptOk, C.HasProviders, C.FindRequest,
         C.BudgetOf, C.CapabilityOf, ReceiptIdOf, ExecutionOf, StepsOf;
    AcceptedAnswers(c, a);
    AllSteps(c, a);
    StepReply(c, a, Search);
    BudgetOfRequest(c, ReceiptIdOf(a), Execute);
  }

  lemma {:induction false} BudgetOfRequest(c: Settings, receiptId: string, step: Step)
    requires step in {Search, Quote, Execute} && c.maxAmount != ""
    ensures C.BudgetOf(Some(RequestMessage(c, receiptId, step))) == Some(c.maxAmount)
  {
    hide Lookup, IdOf, MethodOf, ToolName, RequestMessage;
    MethodNames();
    RequestEnvelope(c, receiptId, step);
    var arguments := ArgumentsOf(c, receiptId, step);
    LookupLast(arguments, |arguments| - 1);
    var budget := [Member("maxAmountAtomic", Str(c.maxAmount))];
    LookupLast(budget, 0);
  }

  // --- the receipt --------------------------------------------------------------------------------------------------------

  /** The terms that the collector reads in a receipt which passed the checker. */
  lemma TermsAreRead(receipt: Option<Json>, executed: Option<Json>, p: Provider, f: Field)
    requires C.TermsOk(receipt, executed) && ReadProvider(executed) == Some(p) && f in TERMS && f != Amount
    ensures NonEmpty(At(receipt, TermKey(f))) == Some(p[f])
  {
    hide At, KeyOf, NonEmpty, ReadProvider, FieldAt, TERMS;
    TermsAre();
    OtherTerms(f);
    assert FieldAt(executed, f) == Some(p[f]);
  }

  lemma OtherTerms(f: Field)
    ensures f != ProviderId && f != Source && f != Amount ==> f in C.RAW_TERMS + C.READ_TERMS
  {
    var all := C.RAW_TERMS + C.READ_TERMS;
    match f
    case Network => assert all[0] == f;
    case Asset => assert all[1] == f;
    case PayToWallet => assert all[2] == f;
    case MerchantOrigin => assert all[3] == f;
    case OperationId => assert all[4] == f;
    case CampaignId => assert all[5] == f;
    case RouteId => assert all[6] == f;
    case ReferrerWallet => assert all[7] == f;
    case PayoutWallet => assert all[8] == f;
    case _ =>
  }

  /** A receipt with readable terms, credit and economics has a summary. */
  lemma ReceiptIsRead(message: Json, paid: string, credit: string)
    requires var receipt := At(Content(Some(message)), "receipt");
             && (forall f | f in TERMS && f != Amount :: NonEmpty(At(receipt, TermKey(f))).Some?)
             && NonEmpty(At(receipt, "requiredAmountAtomic")) == Some(paid)
             && NonEmpty(At(receipt, "referrerCreditAtomic")) == Some(credit)
             && C.EconomicsOk(receipt)
    ensures ReadReceipt(message).Some? && ReadReceipt(message).value.credit == credit
    ensures Amount in ReadReceipt(message).value.terms && ReadReceipt(message).value.terms[Amount] == paid
    ensures Unrefuted(ReadReceipt(message).value)
  {
    hide At, Content, NonEmpty, BasisPoints, KeyOf, TERMS, NatOf, IsCanonical, Atomic, PositiveDigits, AtomicAt, PositiveAt;
    var receipt := At(Content(Some(message)), "receipt");
    TermsAre();
    assert TermKey(Amount) == "requiredAmountAtomic";
    C.PositiveIsText(At(receipt, "commissionAmountAtomic"));
    AmountIsText(At(receipt, "protocolFeeAtomic"));
    var r := ReadReceipt(message).value;
    TextIs(At(receipt, "commissionAmountAtomic"), r.commission);
    TextIs(At(receipt, "protocolFeeAtomic"), r.fee);
    TextIs(At(receipt, "requiredAmountAtomic"), paid);
    TextIs(At(receipt, "referrerCreditAtomic"), credit);
    PositiveReadersAgree(r.commission);
  }

  lemma AmountIsText(v: Option<Json>)
    ensures AtomicAt(v).Some? ==> NonEmpty(v).Some?
  {
  }

  /** The receipt of an accepted transcript has a summary, and it agrees with the execution if the payment
      can be read. */
  lemma ReceiptSide(a: Answers, e: ExecutionSummary)
    requires ExecutionOf(a) == Some(e) && AnswerTo(a, GetReceipt).Some?
    requires C.ReceiptRecordOk(ContentTo(a, Execute), At(ContentTo(a, GetReceipt), "receipt"))
    ensures ReadReceipt(AnswerTo(a, GetReceipt).value).Some?
    ensures e.amountPaid == e.provider[Amount] ==> ReceiptAgrees(ReadReceipt(AnswerTo(a, GetReceipt).value).value, e)
  {
    hide AnswerTo, ReadExecution, ReadReceipt, Content, At, NonEmpty, ReadProvider, FieldAt, ExecutionOf, C.TermsOk, C.EconomicsOk,
         Unrefuted, C.AmountOf, AtomicAt, TERMS, KeyOf, ModeAt;
    var execute, receipt := ContentTo(a, Execute), At(ContentTo(a, GetReceipt), "receipt");
    ReceiptIdIs(a);
    ContentIs(a, Execute);
    ContentIs(a, GetReceipt);
    ExecutionReads(AnswerTo(a, Execute).value, e);
    var message := AnswerTo(a, GetReceipt).value;
    forall f | f in TERMS && f != Amount ensures NonEmpty(At(receipt, TermKey(f))) == Some(e.provider[f]) {
      TermsAreRead(receipt, At(execute, "provider"), e.provider, f);
    }
    ReceiptIsRead(message, e.amountPaid, e.credit);
    ReceiptTerms(message, e);
  }

  lemma ReceiptTerms(message: Json, e: ExecutionSummary)
    requires ReadReceipt(message).Some? && Amount in ReadReceipt(message).value.terms
    requires ReadReceipt(message).value.terms[Amount] == e.amountPaid
    requires forall f | f in TERMS && f != Amount ::
               NonEmpty(At(At(Content(Some(message)), "receipt"), TermKey(f))) == Some(e.provider[f])
    ensures e.amountPaid == e.provider[Amount] ==> TermsAgree(ReadReceipt(message).value, e.provider)
  {
    hide At, Content, NonEmpty, ReadReceipt, TERMS, KeyOf;
    var r := ReadReceipt(message).value;
    forall f | f in TERMS ensures e.amountPaid == e.provider[Amount] ==> r.terms[f] == e.provider[f] {
      assert NonEmpty(At(At(Content(Some(message)), "receipt"), TermKey(f))) == Some(r.terms[f]);
    }
  }

  // --- the quote ------------------------------------------------------------------------------------------------------------

  /** The quote of an accepted transcript passes the collector exactly when its ranked entries agree. */
  lemma QuoteSide(a: Answers, e: ExecutionSummary)
    requires AnswerTo(a, Quote).Some? && C.QuoteContentOk(ContentTo(a, Quote))
    requires ReadProvider(At(ContentTo(a, Quote), "provider")) == Some(e.provider)
    requires e.provider[ProviderId] == e.providerId && e.provider[Amount] == e.amountPaid
    ensures RanksAgree(a, e) <==>
            match ReadQuote(AnswerTo(a, Quote).value)
            case None => OnlyRankedUnreadable(AnswerTo(a, Quote).value)
            case Some(q) => QuoteAgrees(q, e, LiveSdk)
  {
    hide AnswerTo, Content, At, NonEmpty, ReadProvider, FieldAt, ModeText, ModeAt, PositiveAt, Count, C.AmountOf, C.RankedOk,
         WellFormedRanked, Elements, RankedFor;
    var message, content := AnswerTo(a, Quote).value, ContentTo(a, Quote);
    ContentIs(a, Quote);
    ModeIsText(At(content, "executionMode"), LiveSdk);
    UsableFieldsAre(At(content, "provider"), e.provider);
    SomeRanked(Elements(At(content, "rankedProviders")), NonEmpty(At(content, "providerId")), PositiveAt(At(content, "quotedAmountAtomic")));
    var q := ReadQuote(message);
    if q.Some? { QuoteReads(message, q.value); }
  }

  lemma SomeRanked(ranked: seq<Json>, providerId: Option<string>, quoted: Option<nat>)
    requires C.RankedOk(ranked, providerId, quoted)
    ensures ranked != []
  {
    hide At, NonEmpty, PositiveAt;
  }

  // --- the converse -------------------------------------------------------------------------------------------------------------

  /** For every run of a live collector on answers that echo their ids: if the checker accepts its transcript,
      the collector called it ready if and only if the answers pass what only the collector reads.  Everything
      else the collector tests follows from what the checker tested. */
  lemma ReadyIff(c: Settings, a: Answers)
    requires AllEcho(a) && c.mode.LiveSdk? && Atomic(c.maxAmount).Some?
    requires C.Accepted(TranscriptOf(c, a))
    ensures ExecutionOf(a).Some?
    ensures Ready(c, a) <==> CollectorResidual(a)
  {
    hide AllEcho, AnswerTo, ReadExecution, ReadReceipt, ReadQuote, Content, At, TranscriptOf, NonEmpty, C.ToolsOk, C.SearchOk,
         C.SameTerms, C.QuoteContentOk, C.ExecuteContentOk, C.PaymentOk, C.ReceiptRecordOk, C.ContentOf, ReadProvider, Answered,
         ExecutionAgrees, ReceiptAgrees, QuoteAgrees, OnlyRankedUnreadable, PaymentRead, RanksAgree, CapabilitiesTo, C.Usable,
         C.Selected, FirstById, C.ReceiptContent, C.Reply, Atomic, ContentTo;
    AcceptedAnswers(c, a);
    ReceiptIdIs(a);
    var e := ExecutionOf(a).value;
    ExecutionSide(c, a, e);
    AcceptedProviders(c, a, e);
    AnsweredIsSome(AnswerTo(a, Quote));
    AnsweredIsSome(AnswerTo(a, GetReceipt));
    AnsweredIsSome(AnswerTo(a, Search));
    ReceiptSide(a, e);
    SearchSide(a, e);
    if PaymentRead(a) { QuoteSide(a, e); }
  }

  lemma AcceptedProviders(c: Settings, a: Answers, e: ExecutionSummary)
    requires AllEcho(a) && C.Accepted(TranscriptOf(c, a)) && ExecutionOf(a) == Some(e)
    ensures ReadProvider(At(ContentTo(a, Quote), "provider")) == Some(e.provider)
    ensures e.provider[ProviderId] == e.providerId
  {
    hide AllEcho, AnswerTo, ReadExecution, Content, At, TranscriptOf, NonEmpty, C.ToolsOk, C.SearchOk, C.QuoteOk, C.ReceiptOk,
         C.SameTerms, C.PaymentOk, C.RecordingOk, C.ContentOf, ReadProvider, C.AmountOf, C.Selected, ModeText, ModeAt, PositiveAt,
         FieldAt, ContentTo, Answered;
    AcceptedAnswers(c, a);
    ReceiptIdIs(a);
    ContentIs(a, Execute);
    ExecutionReads(AnswerTo(a, Execute).value, e);
    UsableFieldsAre(At(ContentTo(a, Execute), "provider"), e.provider);
  }

  lemma SearchSide(a: Answers, e: ExecutionSummary)
    requires AnswerTo(a, Search).Some?
    ensures FirstAgrees(a, e) <==> ReadSearchProvider(AnswerTo(a, Search).value, e.providerId) == Some(e.provider)
  {
    hide AnswerTo, ReadProvider, FirstById, At;
  }

  // --- where the two sides agree ------------------------------------------------------------------------------------------------

  /** The amounts of the answers can be read, and no provider is ranked twice. */
  predicate WellPriced(a: Answers) {
    var ranked := Elements(At(ContentTo(a, Quote), "rankedProviders"));
    && PaymentRead(a) && PositiveAt(At(ContentTo(a, Quote), "quotedAmountAtomic")).Some?
    && (forall i | 0 <= i < |ranked| :: PositiveAt(At(Some(ranked[i]), "amountAtomic")).Some?)
    && forall i, j | 0 <= i < j < |ranked| :: CapabilityId(ranked[i]) != CapabilityId(ranked[j])
  }

  lemma {:induction false} FirstExists(capabilities: seq<Json>, id: string)
    requires C.LastById(capabilities, id).Some?
    ensures FirstById(capabilities, id).Some? && id != ""
  {
    hide At;
    var last := capabilities[|capabilities| - 1];
    if NonEmpty(At(Some(last), "providerId")) == Some(id) {
      FirstInclude(capabilities, |capabilities| - 1, id);
    } else {
      FirstExists(capabilities[..|capabilities| - 1], id);
      FirstPrefix(capabilities[..|capabilities| - 1], last, id);
      assert capabilities == capabilities[..|capabilities| - 1] + [last];
    }
  }

  lemma {:induction false} FirstInclude(capabilities: seq<Json>, k: nat, id: string)
    requires k < |capabilities| && At(Some(capabilities[k]), "providerId") == Some(Str(id))
    ensures FirstById(capabilities, id).Some?
  {
    hide At;
    if At(Some(capabilities[0]), "providerId") != Some(Str(id)) { FirstInclude(capabilities[1..], k - 1, id); }
  }

  lemma {:induction false} FirstPrefix(capabilities: seq<Json>, more: Json, id: string)
    requires FirstById(capabilities, id).Some?
    ensures FirstById(capabilities + [more], id) == FirstById(capabilities, id)
  {
    hide At;
    if At(Some(capabilities[0]), "providerId") != Some(Str(id)) {
      assert (capabilities + [more])[1..] == capabilities[1..] + [more];
      FirstPrefix(capabilities[1..], more, id);
    }
  }

  lemma {:induction false} FirstRankedAt(ranked: seq<Json>) returns (i: nat)
    requires C.FirstRanked(ranked).Some?
    ensures i < |ranked| && C.FirstRanked(ranked) == Some(ranked[i]) && At(Some(ranked[i]), "rank") == Some(Int(1))
  {
    hide At;
    if At(Some(ranked[0]), "rank") == Some(Int(1)) {
      i := 0;
    } else {
      i := FirstRankedAt(ranked[1..]);
      i := i + 1;
    }
  }

  /** Among well-formed entries of distinct providers, an entry is the first of its provider. */
  lemma {:induction false} RankedForAt(ranked: seq<Json>, i: nat)
    requires i < |ranked| && forall k | 0 <= k < |ranked| :: ReadRanked(ranked[k]).Some?
    requires forall j, k | 0 <= j < k < |ranked| :: CapabilityId(ranked[j]) != CapabilityId(ranked[k])
    ensures RankedFor(WellFormedRanked(ranked), ReadRanked(ranked[i]).value.providerId) == ReadRanked(ranked[i])
  {
    hide ReadRanked, CapabilityId;
    var formed := WellFormedRanked(ranked);
    assert formed == [ReadRanked(ranked[0]).value] + WellFormedRanked(ranked[1..]);
    assert formed[1..] == WellFormedRanked(ranked[1..]);
    if i > 0 {
      RankedIds(ranked[0]);
      RankedIds(ranked[i]);
      assert CapabilityId(ranked[0]) != CapabilityId(ranked[i]);
      forall j, k | 0 <= j < k < |ranked[1..]| ensures CapabilityId(ranked[1..][j]) != CapabilityId(ranked[1..][k]) {
        assert ranked[1..][j] == ranked[j + 1] && ranked[1..][k] == ranked[k + 1];
      }
      RankedForAt(ranked[1..], i - 1);
    }
  }

  lemma RankedIds(v: Json)
    requires ReadRanked(v).Some?
    ensures CapabilityId(v) == Some(ReadRanked(v).value.providerId)
  {
    hide At, NonEmpty;
  }

  lemma SameNumber(x: Option<Json>, y: Option<Json>)
    requires PositiveAt(x).Some? && PositiveAt(x) == PositiveAt(y)
    ensures x == y && NonEmpty(x).Some? && x == Some(Str(NonEmpty(x).value))
  {
    DigitsOfNat(x.value.s);
    DigitsOfNat(y.value.s);
  }

  /** Ranked entries that passed the checker agree for the collector. */
  lemma RanksFollow(a: Answers, e: ExecutionSummary)
    requires WellPriced(a) && WellRanked(Elements(At(ContentTo(a, Quote), "rankedProviders")))
    requires C.QuoteContentOk(ContentTo(a, Quote))
    requires ReadProvider(At(ContentTo(a, Quote), "provider")) == Some(e.provider) && e.provider[ProviderId] == e.providerId
    ensures RanksAgree(a, e)
  {
    hide At, ContentTo, NonEmpty, PositiveAt, ReadProvider, FieldAt, ModeText, Count, C.FirstRanked, WellFormedRanked, RankedFor,
         ReadRanked, CapabilityId, PaymentRead;
    var content := ContentTo(a, Quote);
    var ranked := Elements(At(content, "rankedProviders"));
    UsableFieldsAre(At(content, "provider"), e.provider);
    AmountKey();
    var i := FirstRankedAt(ranked);
    SameNumber(At(content, "quotedAmountAtomic"), At(At(content, "provider"), "amountAtomic"));
    SameNumber(At(Some(ranked[i]), "amountAtomic"), At(content, "quotedAmountAtomic"));
    RankedIs(ranked[i]);
    RankedForAt(ranked, i);
  }

  /** On answers as the gateway promises them, with amounts that can be read, the two sides reach the same
      verdict on every run of a live collector. */
  lemma SidesAgree(c: Settings, a: Answers)
    requires c.mode.LiveSdk? && c.capability != "" && Atomic(c.maxAmount).Some?
    requires Conforming(a) && Answered(AnswerTo(a, Initialize)) && Answered(AnswerTo(a, ListTools))
    requires Promised(a) && WellPriced(a)
    ensures Ready(c, a) <==> C.Accepted(TranscriptOf(c, a))
  {
    hide Ready, Conforming, Answered, AnswerTo, Promised, WellPriced, C.Accepted, TranscriptOf, Residual, CollectorResidual, Atomic;
    if Ready(c, a) {
      PromisedIsResidual(c, a);
      AcceptedIff(c, a);
    }
    if C.Accepted(TranscriptOf(c, a)) {
      ConformingEchoes(a);
      ReadyIff(c, a);
      AcceptedIsResidual(c, a);
    }
  }

  lemma ConformingEchoes(a: Answers)
    requires Conforming(a)
    ensures AllEcho(a)
  {
    hide EchoesId, ExactlyOne, AnswerTo;
  }

  lemma AcceptedIsResidual(c: Settings, a: Answers)
    requires AllEcho(a) && Promised(a) && WellPriced(a) && C.Accepted(TranscriptOf(c, a))
    ensures ExecutionOf(a).Some? && CollectorResidual(a)
  {
    hide AllEcho, AnswerTo, ExecutionOf, Content, At, TranscriptOf, NonEmpty, C.ToolsOk, C.SearchOk, C.QuoteContentOk, C.SameTerms,
         C.ExecuteContentOk, C.PaymentOk, C.ReceiptOk, C.ContentOf, ReadProvider, Answered, CapabilitiesTo, C.Usable, FirstById,
         C.LastById, C.ReceiptContent, C.Reply, ContentTo, WellRanked, DistinctProviders, ToolsOffered, ReceiptEchoed, RanksAgree,
         PaymentRead;
    AcceptedAnswers(c, a);
    var e := ExecutionOf(a).value;
    AcceptedProviders(c, a, e);
    RanksFollow(a, e);
    SelectedIs(c, a, e);
    FirstExists(CapabilitiesTo(a), e.providerId);
    FirstIsLast(CapabilitiesTo(a), e.providerId);
  }

  lemma SelectedIs(c: Settings, a: Answers, e: ExecutionSummary)
    requires AllEcho(a) && C.Accepted(TranscriptOf(c, a)) && ExecutionOf(a) == Some(e)
    ensures C.LastById(CapabilitiesTo(a), e.providerId).Some?
    ensures ReadProvider(C.LastById(CapabilitiesTo(a), e.providerId)) == Some(e.provider)
  {
    hide AllEcho, AnswerTo, ReadExecution, Content, At, TranscriptOf, NonEmpty, C.ToolsOk, C.SearchOk, C.QuoteOk, C.ReceiptOk,
         C.SameTerms, C.PaymentOk, C.ExecuteContentOk, C.ContentOf, ReadProvider, C.AmountOf, ModeAt, FieldAt, ContentTo, Answered,
         C.LastById, C.Capabilities, CapabilitiesTo;
    AcceptedAnswers(c, a);
    ReceiptIdIs(a);
    ContentIs(a, Execute);
    ExecutionReads(AnswerTo(a, Execute).value, e);
    NothingToRead();
  }

  // --- what both verdicts mean, in the words of the log ---------------------------------------------------------------------------

  /** The content of a message. */
  function Structured(message: Option<Json>): Option<Json> {
    At(At(message, "result"), "structuredContent")
  }

  /** An execution that was verified and recorded by the buyer, in live mode, with a positive credit. */
  ghost predicate LiveExecution(content: Option<Json>) {
    && At(content, "receiptVerificationStatus") == Some(Str("verified"))
    && At(content, "receiptRecordingStatus") in {Some(Str("created")), Some(Str("duplicate"))}
    && At(content, "receiptRecordingSource") == Some(Str("buyer"))
    && At(content, "executionMode") == Some(Str("router-live-agent-sdk"))
    && exists n: nat :: n > 0 && At(content, "referrerCreditAtomic") == Some(Str(Digits(n)))
  }

  lemma {:induction false} RequestAt(lines: seq<Line>, q: C.Query) returns (i: nat)
    requires C.FindRequest(lines, q).Some?
    ensures i < |lines| && lines[i] == Request(C.FindRequest(lines, q).value) && C.Matches(lines[i].message, q)
  {
    hide C.Matches;
    if lines[0].Request? && C.Matches(lines[0].message, q) {
      i := 0;
    } else {
      i := RequestAt(lines[1..], q);
      i := i + 1;
    }
  }

  lemma {:induction false} ResponseAt(lines: seq<Line>, id: Option<Json>) returns (i: nat)
    requires C.FindResponse(lines, id).Some?
    ensures i < |lines| && lines[i] == Response(C.FindResponse(lines, id).value) && C.Answers(lines[i], id)
  {
    hide C.Same, NoError, At;
    if C.Answers(lines[0], id) {
      i := 0;
    } else {
      i := ResponseAt(lines[1..], id);
      i := i + 1;
    }
  }

  lemma PositiveDigitsOf(v: Option<Json>)
    requires PositiveAt(v).Some?
    ensures PositiveAt(v).value > 0 && v == Some(Str(Digits(PositiveAt(v).value)))
  {
    DigitsOfNat(v.value.s);
  }

  /** An accepted log holds an execute request and, with the same id and no error, the answer of a live
      execution. */
  lemma AcceptedMeans(lines: seq<Line>) returns (asked: nat, answered: nat)
    requires C.Accepted(lines)
    ensures asked < |lines| && lines[asked].Request? && Asks(lines[asked]) == Str("split402.execute")
    ensures answered < |lines| && lines[answered].Response?
    ensures var request, response := Some(lines[asked].message), Some(lines[answered].message);
            && At(response, "id") == At(request, "id") && At(response, "error").None?
            && LiveExecution(Structured(response))
  {
    hide At, C.FindRequest, C.FindResponse, C.ToolsOk, C.SearchOk, C.QuoteOk, C.ReceiptOk, C.ProvidersOk, C.PaymentOk, NonEmpty,
         C.CapabilityOf, C.BudgetOf, FieldAt, PositiveAt, C.Usable;
    NothingIn("receiptVerificationStatus");
    var q := C.ByTool(Execute);
    asked := RequestAt(lines, q);
    answered := ResponseAt(lines, At(Some(C.FindRequest(lines, q).value), "id"));
    PositiveDigitsOf(At(C.ContentOf(lines, Execute), "referrerCreditAtomic"));
    ToolIsStepName(Execute);
  }

  /** The execute answer of a ready proof is that of a live execution too. */
  lemma ReadyMeans(c: Settings, a: Answers)
    requires Ready(c, a)
    ensures At(AnswerTo(a, Execute), "error").None? && LiveExecution(Structured(AnswerTo(a, Execute)))
  {
    hide At, ReadQuote, ReadExecution, ReadReceipt, ReceiptAgrees, QuoteAgrees, ReadSearchProvider, OnlyRankedUnreadable, AnswerTo,
         NonEmpty, PositiveAt, Atomic, PositiveDigits, ModeAt;
    var e, r := ReadyParts(c, a);
    var content := Structured(AnswerTo(a, Execute));
    CapturedAnswers(c, a);
    ExecutionReads(AnswerTo(a, Execute).value, e);
    TextIs(At(content, "receiptVerificationStatus"), "verified");
    TextIs(At(content, "receiptRecordingStatus"), e.recordingStatus.value);
    TextIs(At(content, "receiptRecordingSource"), "buyer");
    ModeIsText(At(content, "executionMode"), LiveSdk);
    TextIs(At(content, "referrerCreditAtomic"), e.credit);
    PositiveReadersAgree(e.credit);
    PositiveDigitsOf(At(content, "referrerCreditAtomic"));
  }
}
