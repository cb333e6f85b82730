/** From the collector through the printed log to the checker, and what an accepted log means. */
module GatewayProof {
  import opened Text
  import opened Json
  import opened JsonRead
  import opened GatewayMessages
  import opened GatewayCollector
  import opened GatewayLog
  import opened GatewayTranscript
  import opened GatewayAgreement
  import C = GatewayChecker

  // --- distinct provider ids: the first capability of a provider is its last --------------------------------------

  function CapabilityId(v: Json): Option<string> {
    NonEmpty(At(Some(v), "providerId"))
  }

  predicate DistinctProviders(capabilities: seq<Json>) {
    forall i, j | 0 <= i < j < |capabilities| ::
      CapabilityId(capabilities[i]).Some? ==> CapabilityId(capabilities[i]) != CapabilityId(capabilities[j])
  }

  lemma {:induction false} FirstAt(capabilities: seq<Json>, id: string) returns (i: nat)
    requires FirstById(capabilities, id).Some? && id != ""
    ensures i < |capabilities| && FirstById(capabilities, id) == Some(capabilities[i])
    ensures CapabilityId(capabilities[i]) == Some(id)
  {
    hide At;
    if At(Some(capabilities[0]), "providerId") == Some(Str(id)) {
      i := 0;
    } else {
      i := FirstAt(capabilities[1..], id);
      i := i + 1;
    }
  }

  lemma {:induction false} LastOf(capabilities: seq<Json>, id: string, i: nat)
    requires i < |capabilities| && CapabilityId(capabilities[i]) == Some(id)
    requires forall j | i < j < |capabilities| :: CapabilityId(capabilities[j]) != Some(id)
    ensures C.LastById(capabilities, id) == Some(capabilities[i])
    decreases |capabilities|
  {
    hide At, NonEmpty;
    if i < |capabilities| - 1 { LastOf(capabilities[..|capabilities| - 1], id, i); }
  }

  lemma {:induction false} FirstIsLast(capabilities: seq<Json>, id: string)
    requires DistinctProviders(capabilities) && FirstById(capabilities, id).Some? && id != ""
    ensures C.LastById(capabilities, id) == FirstById(capabilities, id)
  {
    hide CapabilityId, C.LastById, FirstById;
    var i := FirstAt(capabilities, id);
    LastOf(capabilities, id, i);
  }

  // --- distinct ranks: the first entry of the quoted provider is the first entry ranked 1 ------------------------------

  /** Every ranked entry is well formed and no two have the same rank. */
  predicate WellRanked(ranked: seq<Json>) {
    && (forall i | 0 <= i < |ranked| :: ReadRanked(ranked[i]).Some?)
    && (forall i, j | 0 <= i < j < |ranked| :: At(Some(ranked[i]), "rank") != At(Some(ranked[j]), "rank"))
  }

  lemma RankedIs(v: Json)
    requires ReadRanked(v).Some?
    ensures var r := ReadRanked(v).value;
            && At(Some(v), "rank") == Some(Int(r.rank)) && NonEmpty(At(Some(v), "providerId")) == Some(r.providerId)
            && NonEmpty(At(Some(v), "amountAtomic")) == Some(r.amount)
  {
    hide At;
  }

  lemma {:induction false} RankedForIsIn(ranked: seq<Json>, providerId: string)
    requires RankedFor(WellFormedRanked(ranked), providerId).Some?
    ensures exists i | 0 <= i < |ranked| :: ReadRanked(ranked[i]) == RankedFor(WellFormedRanked(ranked), providerId)
  {
    hide ReadRanked;
    if ranked != [] {
      var head, rest := ReadRanked(ranked[0]), WellFormedRanked(ranked[1..]);
      if head.Some? {
        assert WellFormedRanked(ranked)[1..] == rest;
      } else {
        assert WellFormedRanked(ranked) == rest;
      }
      if head.Some? && head.value.providerId == providerId {
      } else {
        RankedForIsIn(ranked[1..], providerId);
        var i :| 0 <= i < |ranked[1..]| && ReadRanked(ranked[1..][i]) == RankedFor(rest, providerId);
        assert ranked[i + 1] == ranked[1..][i];
      }
    }
  }

  lemma {:induction false} FirstRankedIs(ranked: seq<Json>, i: nat)
    requires WellRanked(ranked) && i < |ranked| && At(Some(ranked[i]), "rank") == Some(Int(1))
    ensures C.FirstRanked(ranked) == Some(ranked[i])
  {
    hide At, ReadRanked;
    if i > 0 {
      assert forall j, k | 0 <= j < k < |ranked[1..]| ::
          ranked[1..][j] == ranked[j + 1] && ranked[1..][k] == ranked[k + 1];
      FirstRankedIs(ranked[1..], i - 1);
    }
  }

  lemma {:induction false} RankedAgrees(ranked: seq<Json>, providerId: string, quoted: string)
    requires WellRanked(ranked)
    requires RankedFor(WellFormedRanked(ranked), providerId) == Some(Ranked(1, providerId, quoted))
    ensures C.RankedOk(ranked, Some(providerId), Atomic(quoted))
  {
    hide At, ReadRanked, RankedFor, WellFormedRanked, NonEmpty, C.FirstRanked, Atomic;
    RankedForIsIn(ranked, providerId);
    var i :| 0 <= i < |ranked| && ReadRanked(ranked[i]) == Some(Ranked(1, providerId, quoted));
    RankedIs(ranked[i]);
    FirstRankedIs(ranked, i);
    TextIs(At(Some(ranked[i]), "amountAtomic"), quoted);
    C.PositiveIsText(At(Some(ranked[i]), "amountAtomic"));
  }

  // --- the collector's proof passes the checker ------------------------------------------------------------------------------

  /** Answers as the gateway promises them: the four tools, distinct providers, a well-formed ranking, and
      a receipt that carries the id it was asked by. */
  predicate Promised(a: Answers) {
    && ToolsOffered(a)
    && DistinctProviders(CapabilitiesTo(a))
    && WellRanked(Elements(At(ContentTo(a, Quote), "rankedProviders")))
    && (ExecutionOf(a).Some? ==> ReceiptEchoed(a, ExecutionOf(a).value))
  }

  lemma PromisedIsResidual(c: Settings, a: Answers)
    requires ReadyRun(c, a) && Promised(a)
    ensures ExecutionOf(a).Some? && Residual(a)
  {
    hide ReadyRun, ReadQuote, ReadExecution, Answered, AnswerTo, ReadProvider, Content, ExecutionOf, ToolsOffered, ReceiptEchoed,
         WellRanked, DistinctProviders, At, Elements, C.RankedOk, C.LastById, FirstById, CapabilitiesTo, ReceiptAgrees, Atomic,
         ExecutionAgrees, QuoteRead, BareQuoteAgrees;
    var e, r := RunFacts(c, a);
    ReadySearch(c, a);
    FirstIsLast(CapabilitiesTo(a), e.providerId);
    PromisedQuoteIsRead(c, a);
    var q := QuoteFacts(c, a, e);
    QuoteReads(AnswerTo(a, Quote).value, q);
    RankedAgrees(Elements(At(ContentTo(a, Quote), "rankedProviders")), q.providerId, q.quoted);
  }

  /** A quote whose ranked entries are well formed has a summary in every ready run. */
  lemma PromisedQuoteIsRead(c: Settings, a: Answers)
    requires ReadyRun(c, a) && WellRanked(Elements(At(ContentTo(a, Quote), "rankedProviders")))
    ensures QuoteRead(a)
  {
    hide ReadQuote, ReadExecution, ReadReceipt, ExecutionAgrees, ReceiptAgrees, QuoteAgrees, ReadSearchProvider, NoError,
         At, NonEmpty, Count, ModeAt, ReadProvider, Content, Conforming, AnswerTo, ReadRanked;
    SomeIsFormed(Elements(At(ContentTo(a, Quote), "rankedProviders")));
  }

  lemma SomeIsFormed(ranked: seq<Json>)
    requires WellRanked(ranked)
    ensures ranked != [] ==> WellFormedRanked(ranked) != []
  {
    hide ReadRanked;
    if ranked != [] { assert ReadRanked(ranked[0]).Some?; }
  }

  predicate ValidAnswers(a: Answers) {
    forall step: Step :: AnswerTo(a, step).Some? ==> Valid(AnswerTo(a, step).value)
  }

  lemma {:induction false} ArgumentsAreValid(c: Settings, receiptId: string, step: Step)
    ensures Valid(Obj(ArgumentsOf(c, receiptId, step)))
  {
    assert Valid(Budget(c).value) by { assert Valid(Budget(c).value.members[0].value); }
    assert Valid(Obj([Member("wallet", Str(c.wallet))]));
  }

  lemma {:induction false} RequestIsObject(c: Settings, receiptId: string, step: Step)
    ensures RequestMessage(c, receiptId, step).Obj? && Valid(RequestMessage(c, receiptId, step))
  {
    hide IdOf, MethodOf, ToolName, ArgumentsOf;
    if IsToolCall(step) {
      ArgumentsAreValid(c, receiptId, step);
      var params := [Member("name", Str(ToolName(step))), Member("arguments", Obj(ArgumentsOf(c, receiptId, step)))];
      assert Valid(params[0].value) && Valid(params[1].value);
      assert Valid(Obj(params));
    }
  }

  lemma {:induction false} ExchangesAreObjects(c: Settings, receiptId: string, a: Answers, steps: seq<Step>)
    requires ValidAnswers(a)
    ensures AllObjects(Exchanges(c, receiptId, a, steps))
    ensures steps != [] ==> Exchanges(c, receiptId, a, steps) != []
  {
    hide RequestMessage, Valid;
    if steps != [] {
      ExchangesAreObjects(c, receiptId, a, steps[..|steps| - 1]);
      RequestIsObject(c, receiptId, steps[|steps| - 1]);
    }
  }

  /** The checker judges the very text that the collector wrote, which reads back as its transcript.  Whenever
      the collector ends with a ready proof, on answers that conform to JSON-RPC and whose initialize and
      tools/list succeed, the checker reports nothing exactly when the answers pass what only the checker
      reads and discovery knows the route of the executed provider; on answers as the gateway promises them
      the latter is all. */
  method CollectAndCheck(env: Env, mode: Mode, a: Answers, discovery: C.Attachment)
    returns (report: Option<Report>, blockers: seq<Blocker>)
    requires ValidAnswers(a)
    ensures report.Some? <==> ReadSettings(env, mode).Some?
    ensures report.Some? ==>
              var lines := TranscriptOf(ReadSettings(env, mode).value, a);
              && (blockers == [] <==> C.TextAccepted(report.value.text, discovery))
              && (blockers == [] <==> C.Accepted(lines) && C.DiscoveryPass(lines, discovery))
    ensures report.Some? && report.value.proofReady && ReadyRun(ReadSettings(env, mode).value, a) ==>
              && ExecutionOf(a).Some?
              && (blockers == [] <==> Residual(a) && RouteDiscovered(ExecutionOf(a).value.provider, discovery))
              && (Promised(a) ==> (blockers == [] <==> RouteDiscovered(ExecutionOf(a).value.provider, discovery)))
  {
    hide Ready, ReadQuote, ReadExecution, Answered, AnswerTo, Content, ExecutionOf, Promised, TranscriptOf, C.Accepted,
         TranscriptText, C.Rows, C.RowLine, C.ReadableLines, ReadSettings, ValidAnswers, Residual, ReadyRun, C.DiscoveryPass,
         RouteDiscovered;
    report := Collect(env, mode, a);
    blockers := [];
    if report.None? {
      return;
    }
    blockers := C.CheckText(report.value.text, discovery);
    ghost var c := ReadSettings(env, mode).value;
    TranscriptIsObjects(c, a);
    TranscriptReadsBack(TranscriptOf(c, a));
    if ReadyRun(c, a) {
      AcceptedIff(c, a);
      DiscoveryIff(c, a, discovery);
      if Promised(a) { PromisedIsResidual(c, a); }
    }
  }

  lemma TranscriptIsObjects(c: Settings, a: Answers)
    requires ValidAnswers(a)
    ensures AllObjects(TranscriptOf(c, a)) && TranscriptOf(c, a) != []
  {
    hide ValidAnswers, ExecutionOf, Exchanges;
    ExchangesAreObjects(c, ReceiptIdOf(a), a, StepsOf(c, a));
  }

  // --- what an accepted log means ---------------------------------------------------------------------------------------------

  /** The receipt of a log has exact economics for this payment. */
  predicate ReceiptIsExact(receipt: Option<Json>, paid: nat) {
    var commission, fee, credit :=
      AtomicAt(At(receipt, "commissionAmountAtomic")), AtomicAt(At(receipt, "protocolFeeAtomic")),
      AtomicAt(At(receipt, "referrerCreditAtomic"));
    var bps, feeBps := BasisPoints(At(receipt, "commissionBps")), BasisPoints(At(receipt, "protocolFeeBpsOfCommission"));
    && commission.Some? && fee.Some? && credit.Some? && bps.Some? && feeBps.Some?
    && ExactEconomics(paid, commission.value, bps.value, fee.value, feeBps.value, credit.value)
  }

  /** The three provider records of an accepted log have the same summary, at a positive amount. */
  lemma AcceptedProvidersAgree(lines: seq<Line>)
    requires C.Accepted(lines)
    ensures var quoted, executed := At(C.ContentOf(lines, Quote), "provider"), At(C.ContentOf(lines, Execute), "provider");
            && ReadProvider(executed).Some? && ReadProvider(quoted) == ReadProvider(executed)
            && ReadProvider(C.Selected(lines)) == ReadProvider(executed)
            && C.AmountOf(executed).Some? && C.AmountOf(executed).value > 0
            && C.AmountOf(quoted) == C.AmountOf(executed) == C.AmountOf(C.Selected(lines))
  {
    hide C.ToolsOk, C.SearchOk, C.ReceiptOk, C.PaymentOk, C.SameTerms, C.Reply, C.RankedOk, C.RecordingOk, ReadProvider, At, C.Selected,
         NonEmpty, FieldAt, C.ContentOf, Content, ModeText;
    var quoted, executed, selected :=
      At(C.ContentOf(lines, Quote), "provider"), At(C.ContentOf(lines, Execute), "provider"), C.Selected(lines);
    C.SameAmount(executed, selected);
    C.SameAmount(quoted, selected);
    C.PositiveIsText(At(executed, KeyOf(Amount)));
  }

  /** In an accepted log, the payment is the provider's amount if and only if it can be read as an amount;
      then the receipt is exact, and the payment keeps to a budget that can be read. */
  lemma AcceptedIsExact(lines: seq<Line>)
    requires C.Accepted(lines)
    ensures var execute := C.ContentOf(lines, Execute);
            var paid, budget := AtomicAt(At(execute, "amountPaidAtomic")), C.BudgetOf(C.FindRequest(lines, C.ByTool(Execute)));
            && (paid.Some? <==> At(execute, "amountPaidAtomic") == At(At(execute, "provider"), "amountAtomic"))
            && budget.Some?
            && (paid.Some? ==>
                  && ReceiptIsExact(At(C.ReceiptContent(lines), "receipt"), paid.value)
                  && (Atomic(budget.value).Some? ==> paid.value <= Atomic(budget.value).value))
  {
    hide C.ToolsOk, C.Reply, C.RankedOk, C.RecordingOk, ReadProvider, At, C.Selected, NonEmpty, FieldAt, C.ContentOf, Content,
         ModeText, AtomicAt, C.EconomicsOk, C.TermsOk, ReceiptIsExact, C.ReceiptContent, C.QuoteContentOk, Atomic,
         C.FindRequest, C.BudgetOf, C.CapabilityOf, C.Capabilities;
    var execute := C.ContentOf(lines, Execute);
    var provider, receipt := At(execute, "provider"), At(C.ReceiptContent(lines), "receipt");
    assert KeyOf(Amount) == "amountAtomic";
    SameNumberSameText(At(execute, "amountPaidAtomic"), At(provider, "amountAtomic"));
    if AtomicAt(At(execute, "amountPaidAtomic")).Some? {
      AcceptedProvidersAgree(lines);
      AcceptedReceiptIsExact(receipt, AtomicAt(At(execute, "amountPaidAtomic")).value);
    }
  }

  lemma SameNumberSameText(paid: Option<Json>, amount: Option<Json>)
    requires PositiveAt(amount).Some? && C.ReadsAs(AtomicAt(paid), PositiveAt(amount))
    ensures AtomicAt(paid).Some? <==> paid == amount
  {
    if AtomicAt(paid).Some? {
      DigitsOfNat(paid.value.s);
      DigitsOfNat(amount.value.s);
    }
  }

  lemma AcceptedReceiptIsExact(receipt: Option<Json>, paid: nat)
    requires C.EconomicsOk(receipt) && AtomicAt(At(receipt, "requiredAmountAtomic")) == Some(paid)
    requires PositiveAt(At(receipt, "referrerCreditAtomic")).Some?
    ensures ReceiptIsExact(receipt, paid)
  {
    hide At, AtomicAt;
    ShareIsAtMost(paid, BasisPoints(At(receipt, "commissionBps")).value);
  }
}
