/** Runs of the gateway, built for every listed provider: one that the checker accepts, and two that the
    collector calls ready and the checker rejects. */
module GatewayWitness {
  import opened Text
  import opened Json
  import opened JsonRead
  import opened JsonLines
  import opened GatewayMessages
  import opened GatewayCollector
  import opened GatewayTranscript
  import opened GatewayAgreement
  import opened GatewayProof
  import opened GatewayUnreadable
  import C = GatewayChecker

  // --- provider records ---------------------------------------------------------------------------------------------

  /** A provider that can be listed: no field is empty, the source is known, the amount is positive. */
  predicate Listable(p: Provider) {
    && (forall f: Field :: p[f] != "")
    && p[Source] in {"static", "control_plane", "external_x402"}
    && PositiveDigits(p[Amount]).Some?
  }

  function RecordMembers(p: Provider): seq<Member> {
    seq(|FIELDS|, i requires 0 <= i < |FIELDS| => Member(KeyOf(FIELDS[i]), Str(p[FIELDS[i]])))
  }

  /** The keys of the fields differ in their lengths or first letters. */
  function Shape(f: Field): (nat, char) {
    match f
    case ProviderId => (10, 'p')
    case Network => (7, 'n')
    case Asset => (5, 'a')
    case MerchantOrigin => (14, 'm')
    case OperationId => (11, 'o')
    case CampaignId => (10, 'c')
    case Amount => (12, 'a')
    case PayToWallet => (11, 'p')
    case RouteId => (7, 'r')
    case ReferrerWallet => (14, 'r')
    case PayoutWallet => (12, 'p')
    case Source => (6, 's')
  }

  lemma {:induction false} KeyShape(f: Field)
    ensures |KeyOf(f)| == Shape(f).0 && KeyOf(f)[0] == Shape(f).1
  {
  }

  lemma {:induction false} KeysDiffer(f: Field, g: Field)
    ensures KeyOf(f) == KeyOf(g) <==> f == g
  {
    hide KeyOf;
    KeyShape(f);
    KeyShape(g);
  }

  /** The index of a field. */
  function Position(f: Field): nat {
    match f
    case ProviderId => 0
    case Network => 1
    case Asset => 2
    case MerchantOrigin => 3
    case OperationId => 4
    case CampaignId => 5
    case Amount => 6
    case PayToWallet => 7
    case RouteId => 8
    case ReferrerWallet => 9
    case PayoutWallet => 10
    case Source => 11
  }

  lemma {:induction false} PositionIs(f: Field)
    ensures Position(f) < |FIELDS| && FIELDS[Position(f)] == f
  {
  }

  lemma {:induction false} OnlyPosition(i: nat)
    requires i < |FIELDS|
    ensures Position(FIELDS[i]) == i
  {
  }

  /** The field of a record, whatever members with other keys follow. */
  lemma {:induction false} RecordField(p: Provider, extra: seq<Member>, f: Field)
    requires forall j | 0 <= j < |extra| :: extra[j].key != KeyOf(f)
    ensures Lookup(RecordMembers(p) + extra, KeyOf(f)) == Some(Str(p[f]))
  {
    hide KeyOf, Position, Lookup, Shape;
    var members, i := RecordMembers(p) + extra, Position(f);
    PositionIs(f);
    assert members[i] == Member(KeyOf(f), Str(p[f]));
    forall j | i < j < |members| ensures members[j].key != members[i].key {
      if j < |RecordMembers(p)| {
        OnlyPosition(j);
        KeysDiffer(FIELDS[j], f);
      }
    }
    LookupLast(members, i);
  }

  lemma {:induction false} FieldReads(v: Option<Json>, p: Provider, f: Field)
    requires Listable(p) && At(v, KeyOf(f)) == Some(Str(p[f]))
    ensures FieldAt(v, f) == Some(p[f])
  {
    hide KeyOf, At;
  }

  lemma {:induction false} AllFieldsRead(v: Option<Json>, p: Provider)
    requires forall f: Field :: FieldAt(v, f) == Some(p[f])
    ensures ReadProvider(v) == Some(p)
  {
    hide FieldAt;
    assert ReadProvider(v).value == p;
  }

  /** No member has the key of a field. */
  ghost predicate Foreign(extra: seq<Member>) {
    forall j, f: Field | 0 <= j < |extra| :: extra[j].key != KeyOf(f)
  }

  lemma {:induction false} RecordReads(p: Provider, extra: seq<Member>)
    requires Listable(p) && Foreign(extra)
    ensures ReadProvider(Some(Obj(RecordMembers(p) + extra))) == Some(p)
  {
    hide KeyOf, ReadProvider, FieldAt, Lookup, RecordMembers, Listable;
    var v := Some(Obj(RecordMembers(p) + extra));
    forall f: Field ensures FieldAt(v, f) == Some(p[f]) {
      RecordField(p, extra, f);
      FieldReads(v, p, f);
    }
    AllFieldsRead(v, p);
  }

  function RecordOf(p: Provider): Json {
    Obj(RecordMembers(p))
  }

  lemma {:induction false} RecordIsRead(p: Provider)
    requires Listable(p)
    ensures ReadProvider(Some(RecordOf(p))) == Some(p)
    ensures At(Some(RecordOf(p)), "providerId") == Some(Str(p[ProviderId]))
  {
    hide ReadProvider, Lookup, RecordMembers, Listable;
    assert RecordMembers(p) + [] == RecordMembers(p);
    RecordReads(p, []);
    RecordField(p, [], ProviderId);
  }

  // --- the answers of a run -----------------------------------------------------------------------------------------

  const RECEIPT_ID := "receipt-1"

  function QuoteContent(p: Provider, ranked: seq<Json>): seq<Member> {
    [Member("providerId", Str(p[ProviderId])), Member("quotedAmountAtomic", Str(p[Amount])),
     Member("executionMode", Str(ModeText(LiveSdk))), Member("maxAttempts", Int(1)),
     Member("provider", RecordOf(p)), Member("rankedProviders", Arr(ranked))]
  }

  function ExecuteContent(p: Provider): seq<Member> {
    [Member("providerId", Str(p[ProviderId])), Member("amountPaidAtomic", Str(p[Amount])), Member("receiptId", Str(RECEIPT_ID)),
     Member("receiptVerificationStatus", Str("verified")), Member("receiptRecordingStatus", Str("created")),
     Member("receiptRecordingSource", Str("buyer")), Member("executionMode", Str(ModeText(LiveSdk))),
     Member("referrerCreditAtomic", Str(p[Amount])), Member("provider", RecordOf(p))]
  }

  /** The whole payment is the commission, and all of it the referrer's. */
  function ReceiptExtra(p: Provider): seq<Member> {
    [Member("receiptId", Str(RECEIPT_ID)), Member("requiredAmountAtomic", Str(p[Amount])),
     Member("referrerCreditAtomic", Str(p[Amount])), Member("commissionAmountAtomic", Str(p[Amount])),
     Member("protocolFeeAtomic", Str("0")), Member("commissionBps", Int(BPS_DENOMINATOR)),
     Member("protocolFeeBpsOfCommission", Int(0))]
  }

  function ReceiptContent(p: Provider): seq<Member> {
    [Member("receiptId", Str(RECEIPT_ID)), Member("receipt", Obj(RecordMembers(p) + ReceiptExtra(p)))]
  }

  function Tool(step: Step): Json
    requires IsToolCall(step)
  {
    Obj([Member("name", Str(ToolName(step)))])
  }

  function ContentResult(content: seq<Member>): seq<Member> {
    [Member("structuredContent", Obj(content))]
  }

  function ResultOf(p: Provider, capabilities: seq<Json>, ranked: seq<Json>, step: Step): seq<Member> {
    match step
    case Initialize => []
    case ListTools => [Member("tools", Arr([Tool(Search), Tool(Quote), Tool(Execute), Tool(GetReceipt)]))]
    case Search => ContentResult([Member("capabilities", Arr(capabilities))])
    case Quote => ContentResult(QuoteContent(p, ranked))
    case Execute => ContentResult(ExecuteContent(p))
    case GetReceipt => ContentResult(ReceiptContent(p))
  }

  function MessageOf(step: Step, result: seq<Member>): seq<Member> {
    [Member("id", Str(IdOf(step))), Member("result", Obj(result))]
  }

  /** A run that pays p in full, for any capabilities and ranked entries. */
  function RunOf(p: Provider, capabilities: seq<Json>, ranked: seq<Json>): Answers {
    step => Some(MessageOf(step, ResultOf(p, capabilities, ranked, step)))
  }

  // --- what is read in them ---------------------------------------------------------------------------------------

  lemma {:induction false} MessageReads(step: Step, result: seq<Member>)
    ensures var v := Some(Obj(MessageOf(step, result)));
            && At(v, "id") == Some(Str(IdOf(step))) && At(v, "result") == Some(Obj(result)) && NoError(v.value)
  {
    hide IdOf, Lookup;
    var members := MessageOf(step, result);
    LookupLast(members, 0);
    LookupLast(members, 1);
    LookupAbsent(members, "error");
  }

  lemma {:induction false} ContentReads(step: Step, content: seq<Member>)
    ensures Content(Some(Obj(MessageOf(step, ContentResult(content))))) == Some(Obj(content))
  {
    hide Lookup, MessageOf;
    MessageReads(step, ContentResult(content));
    LookupLast(ContentResult(content), 0);
  }

  lemma {:induction false} QuoteContentReads(p: Provider, ranked: seq<Json>)
    ensures var v := Some(Obj(QuoteContent(p, ranked)));
            && At(v, "providerId") == Some(Str(p[ProviderId])) && At(v, "quotedAmountAtomic") == Some(Str(p[Amount]))
            && At(v, "executionMode") == Some(Str(ModeText(LiveSdk))) && At(v, "maxAttempts") == Some(Int(1))
            && At(v, "provider") == Some(RecordOf(p)) && At(v, "rankedProviders") == Some(Arr(ranked))
  {
    hide Lookup, RecordOf, ModeText, DistinctKeys;
    var members := QuoteContent(p, ranked);
    ByMark(members, 0, '_', [10, 18, 13, 11, 8, 15]);
    LookupDistinct(members, 0);
    LookupDistinct(members, 1);
    LookupDistinct(members, 2);
    LookupDistinct(members, 3);
    LookupDistinct(members, 4);
    LookupDistinct(members, 5);
  }

  lemma {:induction false} ExecuteKeys(p: Provider)
    ensures DistinctKeys(ExecuteContent(p))
  {
    hide RecordOf, ModeText, RECEIPT_ID, DistinctKeys;
    ByMark(ExecuteContent(p), 17, 't', [10, 16, 9, 25, 122, 22, 13, 20, 8]);
  }

  lemma {:induction false} ReceiptKeys(p: Provider)
    ensures DistinctKeys(ReceiptExtra(p))
  {
    hide RECEIPT_ID, DistinctKeys;
    ByMark(ReceiptExtra(p), 2, 'q', [9, 120, 20, 22, 17, 13, 26]);
  }

  lemma {:induction false} ExecuteContentReads(p: Provider)
    ensures var v := Some(Obj(ExecuteContent(p)));
            && At(v, "providerId") == Some(Str(p[ProviderId])) && At(v, "amountPaidAtomic") == Some(Str(p[Amount]))
            && At(v, "receiptId") == Some(Str(RECEIPT_ID)) && At(v, "receiptVerificationStatus") == Some(Str("verified"))
            && At(v, "receiptRecordingStatus") == Some(Str("created")) && At(v, "receiptRecordingSource") == Some(Str("buyer"))
            && At(v, "executionMode") == Some(Str(ModeText(LiveSdk))) && At(v, "referrerCreditAtomic") == Some(Str(p[Amount]))
            && At(v, "provider") == Some(RecordOf(p))
  {
    hide Lookup, RecordOf, ModeText, RECEIPT_ID, DistinctKeys;
    var members := ExecuteContent(p);
    ExecuteKeys(p);
    LookupDistinct(members, 0);
    LookupDistinct(members, 1);
    LookupDistinct(members, 2);
    LookupDistinct(members, 3);
    LookupDistinct(members, 4);
    LookupDistinct(members, 5);
    LookupDistinct(members, 6);
    LookupDistinct(members, 7);
    LookupDistinct(members, 8);
  }

  lemma {:induction false} ReceiptExtraReads(p: Provider)
    ensures var v := Some(Obj(RecordMembers(p) + ReceiptExtra(p)));
            && At(v, "receiptId") == Some(Str(RECEIPT_ID)) && At(v, "requiredAmountAtomic") == Some(Str(p[Amount]))
            && At(v, "referrerCreditAtomic") == Some(Str(p[Amount])) && At(v, "commissionAmountAtomic") == Some(Str(p[Amount]))
            && At(v, "protocolFeeAtomic") == Some(Str("0")) && At(v, "commissionBps") == Some(Int(BPS_DENOMINATOR))
            && At(v, "protocolFeeBpsOfCommission") == Some(Int(0))
  {
    hide Lookup, RecordMembers, RECEIPT_ID, DistinctKeys;
    var extra := ReceiptExtra(p);
    ReceiptKeys(p);
    LookupDistinct(extra, 0);
    LookupDistinct(extra, 1);
    LookupDistinct(extra, 2);
    LookupDistinct(extra, 3);
    LookupDistinct(extra, 4);
    LookupDistinct(extra, 5);
    LookupDistinct(extra, 6);
    LookupConcat(RecordMembers(p), extra, "receiptId");
    LookupConcat(RecordMembers(p), extra, "requiredAmountAtomic");
    LookupConcat(RecordMembers(p), extra, "referrerCreditAtomic");
    LookupConcat(RecordMembers(p), extra, "commissionAmountAtomic");
    LookupConcat(RecordMembers(p), extra, "protocolFeeAtomic");
    LookupConcat(RecordMembers(p), extra, "commissionBps");
    LookupConcat(RecordMembers(p), extra, "protocolFeeBpsOfCommission");
  }

  lemma {:induction false} ExtraKeys(p: Provider, f: Field)
    ensures forall j | 0 <= j < |ReceiptExtra(p)| :: ReceiptExtra(p)[j].key != KeyOf(f)
  {
    hide KeyOf, RECEIPT_ID;
    KeyShape(f);
  }

  lemma {:induction false} ReceiptContentReads(p: Provider)
    ensures var v := Some(Obj(ReceiptContent(p)));
            && At(v, "receiptId") == Some(Str(RECEIPT_ID)) && At(v, "receipt") == Some(Obj(RecordMembers(p) + ReceiptExtra(p)))
  {
    hide Lookup, RecordMembers, ReceiptExtra, RECEIPT_ID;
    LookupLast(ReceiptContent(p), 0);
    LookupLast(ReceiptContent(p), 1);
  }

  // --- the summaries of the run -------------------------------------------------------------------------------------

  function ExecutionOfRun(p: Provider): ExecutionSummary {
    ExecutionSummary(p[ProviderId], p[Amount], RECEIPT_ID, "verified", Some("created"), Some("buyer"), LiveSdk, p[Amount], p)
  }

  function QuoteOfRun(p: Provider, ranked: seq<Json>): QuoteSummary {
    QuoteSummary(p[ProviderId], p[Amount], LiveSdk, 1, p, WellFormedRanked(ranked))
  }

  lemma {:induction false} RunAnswers(p: Provider, capabilities: seq<Json>, ranked: seq<Json>, step: Step)
    ensures var answer := AnswerTo(RunOf(p, capabilities, ranked), step);
            && answer == Some(Obj(MessageOf(step, ResultOf(p, capabilities, ranked, step))))
            && Answered(answer) && ExactlyOne(answer.value) && EchoesId(RunOf(p, capabilities, ranked), step)
  {
    hide MessageOf, ResultOf, IdOf, At;
    MessageReads(step, ResultOf(p, capabilities, ranked, step));
  }

  lemma {:induction false} RunContent(p: Provider, capabilities: seq<Json>, ranked: seq<Json>)
    ensures var a := RunOf(p, capabilities, ranked);
            && CapabilitiesTo(a) == capabilities
            && ContentTo(a, Quote) == Some(Obj(QuoteContent(p, ranked)))
            && ContentTo(a, Execute) == Some(Obj(ExecuteContent(p)))
            && ContentTo(a, GetReceipt) == Some(Obj(ReceiptContent(p)))
  {
    hide Content, MessageOf, ContentResult, QuoteContent, ExecuteContent, ReceiptContent, Lookup;
    var found := [Member("capabilities", Arr(capabilities))];
    ContentReads(Search, found);
    ContentReads(Quote, QuoteContent(p, ranked));
    ContentReads(Execute, ExecuteContent(p));
    ContentReads(GetReceipt, ReceiptContent(p));
    LookupLast(found, 0);
  }

  lemma LiveMode()
    ensures ModeAt(Some(Str(ModeText(LiveSdk)))) == Some(LiveSdk)
  {
    ModeIsText(Some(Str(ModeText(LiveSdk))), LiveSdk);
  }

  lemma ListedTexts(p: Provider)
    requires Listable(p)
    ensures NonEmpty(Some(Str(p[ProviderId]))) == Some(p[ProviderId]) && NonEmpty(Some(Str(p[Amount]))) == Some(p[Amount])
    ensures NonEmpty(Some(Str(RECEIPT_ID))) == Some(RECEIPT_ID) && PositiveDigits(p[Amount]).Some?
  {
    assert p[ProviderId] != "" && p[Amount] != "";
  }

  lemma {:induction false} RunExecution(p: Provider, message: Json)
    requires Listable(p) && Content(Some(message)) == Some(Obj(ExecuteContent(p)))
    ensures ReadExecution(message) == Some(ExecutionOfRun(p))
  {
    hide At, Content, ReadProvider, ModeAt, ModeText, ExecuteContent, RecordOf, NonEmpty, Listable, RECEIPT_ID;
    ExecuteContentReads(p);
    RecordIsRead(p);
    LiveMode();
    ListedTexts(p);
    NonEmptyText("verified");
    NonEmptyText("created");
    NonEmptyText("buyer");
  }

  /** The parts of the quote of the run. */
  lemma {:induction false} RunQuoteParts(p: Provider, ranked: seq<Json>)
    requires Listable(p)
    ensures var content := Some(Obj(QuoteContent(p, ranked)));
            && NonEmpty(At(content, "providerId")) == Some(p[ProviderId])
            && NonEmpty(At(content, "quotedAmountAtomic")) == Some(p[Amount])
            && ModeAt(At(content, "executionMode")) == Some(LiveSdk) && Count(At(content, "maxAttempts")) == Some(1)
            && ReadProvider(At(content, "provider")) == Some(p) && Elements(At(content, "rankedProviders")) == ranked
  {
    hide At, ReadProvider, ModeAt, ModeText, QuoteContent, RecordOf, NonEmpty, Listable, RECEIPT_ID;
    QuoteContentReads(p, ranked);
    RecordIsRead(p);
    LiveMode();
    ListedTexts(p);
  }

  lemma {:induction false} RunQuote(p: Provider, ranked: seq<Json>, message: Json)
    requires Listable(p) && Content(Some(message)) == Some(Obj(QuoteContent(p, ranked)))
    ensures ReadQuote(message) == if WellFormedRanked(ranked) == [] then None else Some(QuoteOfRun(p, ranked))
    ensures ranked != [] && WellFormedRanked(ranked) == [] ==> OnlyRankedUnreadable(message)
  {
    hide At, Content, ReadProvider, ModeAt, QuoteContent, WellFormedRanked, NonEmpty, Listable, Count, Elements;
    RunQuoteParts(p, ranked);
  }

  lemma {:induction false} ReceiptTerm(p: Provider, f: Field)
    requires Listable(p) && f in TERMS
    ensures NonEmpty(At(Some(Obj(RecordMembers(p) + ReceiptExtra(p))), TermKey(f))) == Some(p[f])
  {
    hide Lookup, RecordMembers, ReceiptExtra, KeyOf, TERMS;
    TermsAre();
    if f == Amount {
      ReceiptExtraReads(p);
    } else {
      ExtraKeys(p, f);
      RecordField(p, ReceiptExtra(p), f);
    }
  }

  /** The receipt of the run: all of the payment is commission, and all of the commission is credited. */
  lemma {:induction false} RunReceipt(p: Provider, message: Json) returns (r: ReceiptSummary)
    requires Listable(p) && Content(Some(message)) == Some(Obj(ReceiptContent(p)))
    ensures ReadReceipt(message) == Some(r) && (forall f | f in TERMS :: r.terms[f] == p[f])
    ensures r.credit == r.commission == p[Amount] && r.fee == "0" && r.commissionBps == BPS_DENOMINATOR && r.feeBps == 0
  {
    hide At, Content, RecordMembers, ReceiptExtra, ReceiptContent, TermKey, TERMS;
    ReceiptContentReads(p);
    ReceiptExtraReads(p);
    forall f | f in TERMS ensures NonEmpty(At(Some(Obj(RecordMembers(p) + ReceiptExtra(p))), TermKey(f))) == Some(p[f]) {
      ReceiptTerm(p, f);
    }
    r := ReadReceipt(message).value;
  }

  lemma {:induction false} FullShare(r: ReceiptSummary, amount: string)
    requires Amount in r.terms && r.terms[Amount] == r.credit == r.commission == amount && PositiveDigits(amount).Some?
    requires r.fee == "0" && r.commissionBps == BPS_DENOMINATOR && r.feeBps == 0
    ensures Unrefuted(r)
  {
    hide NatOf;
    PositiveAmount(amount);
    ZeroIsCanonical();
    var n := NatOf(amount);
    assert n * BPS_DENOMINATOR / BPS_DENOMINATOR == n;
  }

  lemma ZeroIsCanonical()
    ensures Atomic("0") == Some(0)
  {
    assert "0"[..0] == "" && NatOf("") == 0;
  }

  // --- the run is ready ---------------------------------------------------------------------------------------------

  /** Settings under which the run may pay p. */
  predicate Affordable(c: Settings, p: Provider) {
    && Listable(p) && c.mode.LiveSdk? && c.capture && c.capability != ""
    && Atomic(p[Amount]).Some? && Atomic(c.maxAmount).Some? && Atomic(p[Amount]).value <= Atomic(c.maxAmount).value
  }

  /** What the collector finds in the ranked entries: nothing it can read, or the provider first. */
  predicate RankedPass(p: Provider, ranked: seq<Json>) {
    var formed := WellFormedRanked(ranked);
    && ranked != []
    && (formed == [] || RankedFor(formed, p[ProviderId]) == Some(Ranked(1, p[ProviderId], p[Amount])))
  }

  lemma {:induction false} RunExecutionAgrees(c: Settings, p: Provider)
    requires Affordable(c, p)
    ensures ExecutionAgrees(ExecutionOfRun(p), c)
  {
    hide Listable, Atomic, PositiveDigits, RECEIPT_ID;
    ListedTexts(p);
  }

  lemma {:induction false} RunQuoteAgrees(p: Provider, ranked: seq<Json>)
    requires RankedPass(p, ranked)
    ensures WellFormedRanked(ranked) != [] ==> QuoteAgrees(QuoteOfRun(p, ranked), ExecutionOfRun(p), LiveSdk)
    ensures ExecutionOfRun(p).providerId == p[ProviderId] && ExecutionOfRun(p).provider == p
  {
    hide WellFormedRanked, RankedFor, RECEIPT_ID;
  }

  lemma {:induction false} RunReceiptAgrees(p: Provider, message: Json)
    requires Listable(p) && Content(Some(message)) == Some(Obj(ReceiptContent(p)))
    ensures ReadReceipt(message).Some? && ReceiptAgrees(ReadReceipt(message).value, ExecutionOfRun(p))
  {
    hide Listable, ReadReceipt, Content, ReceiptContent, Unrefuted, TERMS, RECEIPT_ID, PositiveDigits;
    var r := RunReceipt(p, message);
    TermsAre();
    ListedTexts(p);
    FullShare(r, p[Amount]);
  }

  lemma {:induction false} RunIsConforming(p: Provider, capabilities: seq<Json>, ranked: seq<Json>)
    ensures var a := RunOf(p, capabilities, ranked); Conforming(a) && forall step: Step :: Answered(AnswerTo(a, step))
  {
    hide AnswerTo, ExactlyOne, EchoesId, Answered, RunOf, MessageOf, ResultOf;
    forall step: Step
      ensures var a := RunOf(p, capabilities, ranked);
              && AnswerTo(a, step).Some? && Answered(AnswerTo(a, step))
              && ExactlyOne(AnswerTo(a, step).value) && EchoesId(a, step)
    {
      RunAnswers(p, capabilities, ranked, step);
    }
  }

  /** What the collector reads in the run. */
  lemma {:induction false} RunSummaries(p: Provider, capabilities: seq<Json>, ranked: seq<Json>)
    requires Listable(p) && ReadProvider(FirstById(capabilities, p[ProviderId])) == Some(p)
    ensures var a := RunOf(p, capabilities, ranked);
            && (forall step: Step :: Answered(AnswerTo(a, step)) && AnswerTo(a, step).Some?)
            && ReadExecution(AnswerTo(a, Execute).value) == Some(ExecutionOfRun(p))
            && ReadQuote(AnswerTo(a, Quote).value) == (if WellFormedRanked(ranked) == [] then None else Some(QuoteOfRun(p, ranked)))
            && (ranked != [] && WellFormedRanked(ranked) == [] ==> OnlyRankedUnreadable(AnswerTo(a, Quote).value))
            && ReadReceipt(AnswerTo(a, GetReceipt).value).Some?
            && ReceiptAgrees(ReadReceipt(AnswerTo(a, GetReceipt).value).value, ExecutionOfRun(p))
            && ReadSearchProvider(AnswerTo(a, Search).value, p[ProviderId]) == Some(p)
  {
    hide Listable, ReadProvider, ReadQuote, ReadExecution, ReadReceipt, Content, AnswerTo, Conforming, NoError, RunOf,
         QuoteContent, ExecuteContent, ReceiptContent, WellFormedRanked, FirstById, Elements, At, OnlyRankedUnreadable,
         ReceiptAgrees, QuoteOfRun, ExecutionOfRun, Answered;
    var a := RunOf(p, capabilities, ranked);
    RunIsConforming(p, capabilities, ranked);
    RunContent(p, capabilities, ranked);
    forall step: Step ensures AnswerTo(a, step).Some? { AnsweredIsSome(AnswerTo(a, step)); }
    RunExecution(p, AnswerTo(a, Execute).value);
    RunQuote(p, ranked, AnswerTo(a, Quote).value);
    RunReceiptAgrees(p, AnswerTo(a, GetReceipt).value);
  }

  lemma {:induction false} RunPasses(c: Settings, p: Provider, capabilities: seq<Json>, ranked: seq<Json>)
    requires Affordable(c, p) && RankedPass(p, ranked)
    requires ReadProvider(FirstById(capabilities, p[ProviderId])) == Some(p)
    ensures Ready(c, RunOf(p, capabilities, ranked))
  {
    hide Listable, ReadProvider, ReadQuote, ReadExecution, ReadReceipt, ReadSearchProvider, AnswerTo, Answered, RunOf,
         WellFormedRanked, RankedFor, FirstById, OnlyRankedUnreadable, Atomic, ExecutionAgrees, ReceiptAgrees, QuoteAgrees,
         QuoteOfRun, ExecutionOfRun;
    RunSummaries(p, capabilities, ranked);
    RunExecutionAgrees(c, p);
    RunQuoteAgrees(p, ranked);
  }

  /** The run is ready whenever the first capability of the provider is the provider and its ranked entries
      pass; it has a quote summary exactly if some entry can be read. */
  lemma {:induction false} RunIsReady(c: Settings, p: Provider, capabilities: seq<Json>, ranked: seq<Json>)
    requires Affordable(c, p) && RankedPass(p, ranked)
    requires ReadProvider(FirstById(capabilities, p[ProviderId])) == Some(p)
    ensures var a := RunOf(p, capabilities, ranked);
            && ReadyRun(c, a) && ExecutionOf(a) == Some(ExecutionOfRun(p))
            && (QuoteRead(a) <==> WellFormedRanked(ranked) != [])
            && (QuoteRead(a) ==> ReadQuote(AnswerTo(a, Quote).value) == Some(QuoteOfRun(p, ranked)))
  {
    hide Listable, ReadProvider, ReadQuote, ReadExecution, ReadReceipt, ReadSearchProvider, AnswerTo, Conforming, Answered, RunOf,
         WellFormedRanked, RankedFor, FirstById, OnlyRankedUnreadable, Atomic, ReceiptAgrees, QuoteOfRun, ExecutionOfRun, Ready,
         RankedPass;
    RunIsConforming(p, capabilities, ranked);
    RunSummaries(p, capabilities, ranked);
    RunPasses(c, p, capabilities, ranked);
  }

  // --- three of them ------------------------------------------------------------------------------------------------

  function RankedEntry(p: Provider): Json {
    Obj([Member("rank", Int(1)), Member("providerId", Str(p[ProviderId])), Member("amountAtomic", Str(p[Amount]))])
  }

  lemma {:induction false} RankedEntryReads(p: Provider)
    requires Listable(p)
    ensures ReadRanked(RankedEntry(p)) == Some(Ranked(1, p[ProviderId], p[Amount]))
  {
    hide Lookup, NonEmpty, Listable, PositiveDigits, RECEIPT_ID;
    var members := RankedEntry(p).members;
    LookupLast(members, 0);
    LookupLast(members, 1);
    LookupLast(members, 2);
    ListedTexts(p);
  }

  lemma {:induction false} OneRanked(p: Provider)
    requires Listable(p)
    ensures RankedPass(p, [RankedEntry(p)]) && WellRanked([RankedEntry(p)])
    ensures WellFormedRanked([RankedEntry(p)]) != []
  {
    hide ReadRanked, RankedEntry, Listable;
    RankedEntryReads(p);
    var entry := Ranked(1, p[ProviderId], p[Amount]);
    assert [RankedEntry(p)][1..] == [];
    assert WellFormedRanked([RankedEntry(p)]) == [entry] + [];
  }

  lemma {:induction false} FirstIsHead(p: Provider, others: seq<Json>)
    requires Listable(p)
    ensures ReadProvider(FirstById([RecordOf(p)] + others, p[ProviderId])) == Some(p)
  {
    hide ReadProvider, RecordOf, Listable;
    RecordIsRead(p);
  }

  lemma {:induction false} RunOffersTools(p: Provider, capabilities: seq<Json>, ranked: seq<Json>)
    ensures ToolsOffered(RunOf(p, capabilities, ranked))
  {
    hide Lookup, ToolName, MessageOf, Tool;
    var tools := [Tool(Search), Tool(Quote), Tool(Execute), Tool(GetReceipt)];
    var result := ResultOf(p, capabilities, ranked, ListTools);
    MessageReads(ListTools, result);
    LookupLast(result, 0);
    ToolReads(Search);
    ToolReads(Quote);
    ToolReads(Execute);
    ToolReads(GetReceipt);
    assert tools[0] == Tool(Search) && tools[1] == Tool(Quote) && tools[2] == Tool(Execute) && tools[3] == Tool(GetReceipt);
  }

  lemma {:induction false} ToolReads(step: Step)
    requires IsToolCall(step)
    ensures At(Some(Tool(step)), "name") == Some(Str(ToolName(step)))
  {
    hide ToolName, Lookup;
    LookupLast(Tool(step).members, 0);
  }

  lemma {:induction false} RunEchoesReceipt(p: Provider, capabilities: seq<Json>, ranked: seq<Json>)
    ensures ReceiptEchoed(RunOf(p, capabilities, ranked), ExecutionOfRun(p))
  {
    hide At, ContentTo, ReceiptContent, RecordMembers, ReceiptExtra, RECEIPT_ID, CapabilitiesTo;
    RunContent(p, capabilities, ranked);
    ReceiptContentReads(p);
    ReceiptExtraReads(p);
  }

  /** With the provider as the only capability and the only ranked entry, the run is as promised: the
      checker accepts it. */
  lemma {:induction false} PromisedRun(c: Settings, p: Provider)
    requires Affordable(c, p)
    ensures var a := RunOf(p, [RecordOf(p)], [RankedEntry(p)]);
            ReadyRun(c, a) && Promised(a) && C.Accepted(TranscriptOf(c, a))
  {
    hide ReadyRun, ToolsOffered, ReceiptEchoed, RunOf, RecordOf, RankedEntry, ReadProvider, FirstById, Listable, QuoteRead,
         ExecutionOf, WellFormedRanked, C.Accepted, Residual, TranscriptOf, ReadQuote, RankedPass, WellRanked, QuoteOfRun, ExecutionOfRun,
         ContentTo, Atomic;
    var a := RunOf(p, [RecordOf(p)], [RankedEntry(p)]);
    OneRanked(p);
    FirstIsHead(p, []);
    assert [RecordOf(p)] + [] == [RecordOf(p)];
    RunIsReady(c, p, [RecordOf(p)], [RankedEntry(p)]);
    RunOffersTools(p, [RecordOf(p)], [RankedEntry(p)]);
    RunEchoesReceipt(p, [RecordOf(p)], [RankedEntry(p)]);
    RunRanked(p, [RecordOf(p)], [RankedEntry(p)]);
    PromisedIsResidual(c, a);
    AcceptedIff(c, a);
  }

  lemma {:induction false} RunRanked(p: Provider, capabilities: seq<Json>, ranked: seq<Json>)
    ensures CapabilitiesTo(RunOf(p, capabilities, ranked)) == capabilities
    ensures Elements(At(ContentTo(RunOf(p, capabilities, ranked), Quote), "rankedProviders")) == ranked
  {
    hide At, ContentTo, QuoteContent, CapabilitiesTo;
    RunContent(p, capabilities, ranked);
    QuoteContentReads(p, ranked);
  }

  /** With ranked entries that cannot be read, the collector reports nothing, and the checker rejects the
      ready proof. */
  lemma {:induction false} UnreadableRankedRun(c: Settings, p: Provider)
    requires Affordable(c, p)
    ensures var a := RunOf(p, [RecordOf(p)], [Null]);
            && ReadyRun(c, a) && OnlyRankedUnreadable(AnswerTo(a, Quote).value)
            && !C.Accepted(TranscriptOf(c, a))
  {
    hide ReadyRun, RunOf, RecordOf, ReadProvider, FirstById, Listable, QuoteRead, ExecutionOf, C.Accepted, TranscriptOf, ReadQuote,
         QuoteOfRun, ExecutionOfRun, ContentTo, Atomic, OnlyRankedUnreadable, RankedFor, ToolsOffered, LastAgrees, ReceiptEchoed,
         ReadExecution, ReadReceipt, ReceiptAgrees, AnswerTo, Answered, ReadSearchProvider;
    var a := RunOf(p, [RecordOf(p)], [Null]);
    NothingRanked();
    FirstIsHead(p, []);
    assert [RecordOf(p)] + [] == [RecordOf(p)];
    RunIsReady(c, p, [RecordOf(p)], [Null]);
    RunSummaries(p, [RecordOf(p)], [Null]);
    RunRanked(p, [RecordOf(p)], [Null]);
    AcceptedIff(c, a);
  }

  lemma NothingRanked()
    ensures WellFormedRanked([Null]) == [] && C.FirstRanked([Null]).None?
  {
    assert [Null][1..] == [];
  }

  /** A run with two capabilities of one provider id: the collector takes the first and the checker the
      last, so that the checker rejects the ready proof, for this alone. */
  lemma {:induction false} TwoCapabilitiesRun(c: Settings, p: Provider, other: Provider)
    requires Affordable(c, p) && Listable(other) && other[ProviderId] == p[ProviderId] && other != p
    ensures var a := RunOf(p, [RecordOf(p), RecordOf(other)], [RankedEntry(p)]);
            var e := ExecutionOfRun(p);
            && ReadyRun(c, a) && ExecutionOf(a) == Some(e)
            && ToolsOffered(a) && ReceiptEchoed(a, e) && QuoteResidual(a, e) && !LastAgrees(a, e)
            && !C.Accepted(TranscriptOf(c, a))
  {
    hide ReadyRun, ToolsOffered, ReceiptEchoed, RunOf, RecordOf, RankedEntry, ReadProvider, FirstById, Listable, QuoteRead,
         ExecutionOf, WellFormedRanked, C.Accepted, TranscriptOf, ReadQuote, RankedPass, WellRanked, Atomic, LastAgrees,
         QuoteResidual, ExecutionOfRun, QuoteOfRun;
    var capabilities, ranked := [RecordOf(p), RecordOf(other)], [RankedEntry(p)];
    OneRanked(p);
    FirstIsHead(p, [RecordOf(other)]);
    assert [RecordOf(p)] + [RecordOf(other)] == capabilities;
    RunIsReady(c, p, capabilities, ranked);
    RunOffersTools(p, capabilities, ranked);
    RunEchoesReceipt(p, capabilities, ranked);
    RunQuoteResidual(p, capabilities, ranked);
    LastDisagrees(p, capabilities, ranked, other);
    AcceptedIff(c, RunOf(p, capabilities, ranked));
  }

  lemma {:induction false} RunQuoteResidual(p: Provider, capabilities: seq<Json>, ranked: seq<Json>)
    requires RankedPass(p, ranked) && WellRanked(ranked) && WellFormedRanked(ranked) != []
    requires var a := RunOf(p, capabilities, ranked);
             QuoteRead(a) && ReadQuote(AnswerTo(a, Quote).value) == Some(QuoteOfRun(p, ranked))
    ensures QuoteResidual(RunOf(p, capabilities, ranked), ExecutionOfRun(p))
  {
    hide RunOf, WellFormedRanked, ReadQuote, WellRanked, ContentTo, Atomic, CapabilitiesTo, At, RankedFor, Elements, C.RankedOk,
         QuoteRead, BareQuoteAgrees, ExecutionOfRun;
    RunRanked(p, capabilities, ranked);
    RankedIsFirst(p, ranked);
    RankedAgrees(ranked, p[ProviderId], p[Amount]);
  }

  lemma {:induction false} LastDisagrees(p: Provider, capabilities: seq<Json>, ranked: seq<Json>, other: Provider)
    requires |capabilities| == 2 && capabilities[1] == RecordOf(other) && Listable(other)
    requires other != p && other[ProviderId] == p[ProviderId]
    ensures !LastAgrees(RunOf(p, capabilities, ranked), ExecutionOfRun(p))
  {
    hide RunOf, CapabilitiesTo, RecordOf, ReadProvider, C.LastById, Listable, RECEIPT_ID;
    RunRanked(p, capabilities, ranked);
    LastIsOther(capabilities, other);
  }

  lemma RankedIsFirst(p: Provider, ranked: seq<Json>)
    requires RankedPass(p, ranked) && WellFormedRanked(ranked) != []
    ensures RankedFor(WellFormedRanked(ranked), p[ProviderId]) == Some(Ranked(1, p[ProviderId], p[Amount]))
  {
  }

  lemma {:induction false} LastIsOther(capabilities: seq<Json>, other: Provider)
    requires |capabilities| == 2 && capabilities[1] == RecordOf(other) && Listable(other)
    ensures ReadProvider(C.LastById(capabilities, other[ProviderId])) == Some(other)
  {
    hide ReadProvider, RecordOf, Listable, RECEIPT_ID, PositiveDigits;
    RecordIsRead(other);
    ListedTexts(other);
  }

  // --- and one with an unreadable payment -----------------------------------------------------------------------------

  /** There are such providers and settings. */
  const EXAMPLE: Provider := map f: Field :: if f == Amount then "5" else if f == Source then "static" else "x"

  const SETTINGS := Settings("c", "w", "5", LiveSdk, true)

  lemma ExampleIsAffordable()
    ensures Affordable(SETTINGS, EXAMPLE)
    ensures Listable(EXAMPLE[Network := "y"]) && EXAMPLE[Network := "y"] != EXAMPLE
  {
    assert "5"[..0] == "" && AllDigits("5");
    assert EXAMPLE[Network := "y"][Network][0] != EXAMPLE[Network][0];
  }

  /** There is a log that the checker accepts, although the payment in it is no amount. */
  lemma UnreadablePaymentExists() returns (lines: seq<Line>)
    ensures C.Accepted(lines) && At(C.ContentOf(lines, Execute), "amountPaidAtomic") == Some(Str("free"))
    ensures AtomicAt(At(C.ContentOf(lines, Execute), "amountPaidAtomic")).None?
  {
    hide C.Accepted, RunOf, RecordOf, RankedEntry, TranscriptOf, ReadyRun, Promised, Affordable, Repriced, C.ContentOf, At;
    ExampleIsAffordable();
    PromisedRun(SETTINGS, EXAMPLE);
    assert Atomic("free").None? by { assert !IsDigit("free"[0]); }
    var accepted := TranscriptOf(SETTINGS, RunOf(EXAMPLE, [RecordOf(EXAMPLE)], [RankedEntry(EXAMPLE)]));
    UnreadablePaymentIsAccepted(accepted, "free");
    lines := Repriced(accepted, "free");
  }
}
