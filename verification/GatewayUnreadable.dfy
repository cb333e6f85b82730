/** An amount that cannot be read passes the checker: in an accepted log, the paid amount may be any text that is
    no amount. */
module GatewayUnreadable {
  import opened Text
  import opened Json
  import opened JsonRead
  import opened GatewayMessages
  import C = GatewayChecker

  // --- replacing a member -------------------------------------------------------------------------------------------

  /** Every member with this key has the new value. */
  function Assign(members: seq<Member>, key: string, value: Json): seq<Member> {
    if members == [] then []
    else
      var last := members[|members| - 1];
      Assign(members[..|members| - 1], key, value) + [if last.key == key then Member(key, value) else last]
  }

  lemma {:induction false} LookupAssign(members: seq<Member>, key: string, value: Json, k: string)
    ensures Lookup(Assign(members, key, value), k) ==
            if k == key && Lookup(members, key).Some? then Some(value) else Lookup(members, k)
  {
    if members != [] {
      var result := Assign(members, key, value);
      assert result[..|result| - 1] == Assign(members[..|members| - 1], key, value);
      LookupAssign(members[..|members| - 1], key, value, k);
    }
  }

  function SetAt(v: Option<Json>, key: string, value: Json): Option<Json> {
    if v.Some? && v.value.Obj? then Some(Obj(Assign(v.value.members, key, value))) else v
  }

  lemma AtSet(v: Option<Json>, key: string, value: Json, k: string)
    ensures At(SetAt(v, key, value), k) == if k == key && At(v, key).Some? then Some(value) else At(v, k)
  {
    if v.Some? && v.value.Obj? { LookupAssign(v.value.members, key, value, k); }
  }

  // --- the log with another payment -------------------------------------------------------------------------------

  function RepricedReceipt(v: Option<Json>, text: string): Option<Json> {
    SetAt(v, "requiredAmountAtomic", Str(text))
  }

  /** The content of an answer with the text as the paid amount, and as the required amount of its receipt. */
  function Paid(content: Option<Json>, text: string): Option<Json> {
    var paid := SetAt(content, "amountPaidAtomic", Str(text));
    match RepricedReceipt(At(content, "receipt"), text)
    case None => paid
    case Some(receipt) => SetAt(paid, "receipt", receipt)
  }

  function RepricedAnswer(message: Json, text: string): Json {
    match Paid(Content(Some(message)), text)
    case None => message
    case Some(content) =>
      var result := SetAt(At(Some(message), "result"), "structuredContent", content);
      SetAt(Some(message), "result", result.value).value
  }

  function Repriced(lines: seq<Line>, text: string): seq<Line> {
    if lines == [] then []
    else [if lines[0].Response? then Response(RepricedAnswer(lines[0].message, text)) else lines[0]] + Repriced(lines[1..], text)
  }

  // --- what is read in it -------------------------------------------------------------------------------------------

  lemma PaidReads(content: Option<Json>, text: string, k: string)
    ensures At(Paid(content, text), k) ==
            if k == "amountPaidAtomic" && At(content, k).Some? then Some(Str(text))
            else if k == "receipt" then RepricedReceipt(At(content, k), text)
            else At(content, k)
  {
    hide SetAt, At;
    assert "amountPaidAtomic" != "receipt";
    var paid := SetAt(content, "amountPaidAtomic", Str(text));
    var receipt := RepricedReceipt(At(content, "receipt"), text);
    AtSet(content, "amountPaidAtomic", Str(text), k);
    AtSet(content, "amountPaidAtomic", Str(text), "receipt");
    SetIsSome(At(content, "receipt"), "requiredAmountAtomic", Str(text));
    if receipt.Some? { AtSet(paid, "receipt", receipt.value, k); }
  }

  lemma SetIsSome(v: Option<Json>, key: string, value: Json)
    ensures SetAt(v, key, value).Some? <==> v.Some?
  {
  }

  lemma AnswerReads(message: Json, text: string)
    ensures var answer := Some(RepricedAnswer(message, text));
            && At(answer, "id") == At(Some(message), "id")
            && NoError(answer.value) == NoError(message)
            && At(At(answer, "result"), "tools") == At(At(Some(message), "result"), "tools")
            && Content(answer) == Paid(Content(Some(message)), text)
  {
    hide SetAt, At;
    PaidIsSome(Content(Some(message)), text);
    var content := Paid(Content(Some(message)), text);
    if content.Some? {
      var result := At(Some(message), "result");
      NoneHasNothing("structuredContent");
      SetIsSome(result, "structuredContent", content.value);
      var changed := SetAt(result, "structuredContent", content.value);
      SetIsSome(Some(message), "result", changed.value);
      AtSet(result, "structuredContent", content.value, "structuredContent");
      AtSet(result, "structuredContent", content.value, "tools");
      AtSet(Some(message), "result", changed.value, "result");
      AtSet(Some(message), "result", changed.value, "id");
      AtSet(Some(message), "result", changed.value, "error");
    }
  }

  lemma PaidIsSome(content: Option<Json>, text: string)
    ensures Paid(content, text).Some? <==> content.Some?
  {
    hide At;
  }

  lemma NoneHasNothing(k: string)
    ensures At(None, k).None?
  {
  }

  lemma {:induction false} RequestsStay(lines: seq<Line>, text: string, q: C.Query)
    ensures C.FindRequest(Repriced(lines, text), q) == C.FindRequest(lines, q)
  {
    hide C.Matches, RepricedAnswer;
    if lines != [] { RequestsStay(lines[1..], text, q); }
  }

  function AnswerOf(reply: Option<Json>, text: string): Option<Json> {
    if reply.None? then None else Some(RepricedAnswer(reply.value, text))
  }

  lemma {:induction false} ResponsesFollow(lines: seq<Line>, text: string, id: Option<Json>)
    ensures C.FindResponse(Repriced(lines, text), id) == AnswerOf(C.FindResponse(lines, id), text)
  {
    hide C.Same, RepricedAnswer, At, NoError, Content, Paid;
    if lines != [] {
      ResponsesFollow(lines[1..], text, id);
      AnswerReads(lines[0].message, text);
    }
  }

  lemma RepliesFollow(lines: seq<Line>, text: string, q: C.Query)
    ensures C.Reply(Repriced(lines, text), q) == AnswerOf(C.Reply(lines, q), text)
  {
    hide C.FindRequest, C.FindResponse, At, RepricedAnswer, Repriced;
    RequestsStay(lines, text, q);
    if C.FindRequest(lines, q).Some? {
      ResponsesFollow(lines, text, At(C.FindRequest(lines, q), "id"));
    }
  }

  lemma ContentFollows(lines: seq<Line>, text: string, q: C.Query)
    ensures Content(C.Reply(Repriced(lines, text), q)) == Paid(Content(C.Reply(lines, q)), text)
    ensures C.Reply(Repriced(lines, text), q).Some? <==> C.Reply(lines, q).Some?
    ensures At(At(C.Reply(Repriced(lines, text), q), "result"), "tools") == At(At(C.Reply(lines, q), "result"), "tools")
  {
    hide C.Reply, At, RepricedAnswer, Repriced, Paid;
    RepliesFollow(lines, text, q);
    if C.Reply(lines, q).Some? {
      AnswerReads(C.Reply(lines, q).value, text);
    } else {
      PaidNone(text);
    }
  }

  lemma PaidNone(text: string)
    ensures Content(None).None? && Paid(None, text).None?
  {
  }

  // --- the sections of the checker ------------------------------------------------------------------------------------

  lemma ToolsStay(lines: seq<Line>, text: string)
    ensures C.ToolsOk(Repriced(lines, text)) <==> C.ToolsOk(lines)
  {
    hide C.Reply, At, Repriced, Content, Paid, C.OffersTool;
    ContentFollows(lines, text, C.ByMethod(ListTools));
  }

  lemma CapabilitiesStay(lines: seq<Line>, text: string)
    ensures C.Capabilities(Repriced(lines, text)) == C.Capabilities(lines)
  {
    hide C.Reply, At, Repriced, Content, Paid;
    ContentFollows(lines, text, C.ByTool(Search));
    PaidReads(Content(C.Reply(lines, C.ByTool(Search))), text, "capabilities");
  }

  lemma SearchStays(lines: seq<Line>, text: string)
    ensures C.SearchOk(Repriced(lines, text)) <==> C.SearchOk(lines)
    ensures C.SameTerms(Repriced(lines, text), Quote) <==> C.SameTerms(lines, Quote)
    ensures C.SameTerms(Repriced(lines, text), Execute) <==> C.SameTerms(lines, Execute)
  {
    hide C.FindRequest, C.Capabilities, C.CapabilityOf, C.BudgetOf, Repriced, At;
    RequestsStay(lines, text, C.ByTool(Search));
    RequestsStay(lines, text, C.ByTool(Quote));
    RequestsStay(lines, text, C.ByTool(Execute));
    CapabilitiesStay(lines, text);
  }

  lemma QuoteStays(content: Option<Json>, text: string)
    ensures C.QuoteContentOk(Paid(content, text)) <==> C.QuoteContentOk(content)
    ensures At(Paid(content, text), "provider") == At(content, "provider")
    ensures At(Paid(content, text), "quotedAmountAtomic") == At(content, "quotedAmountAtomic")
  {
    hide At, Paid, NonEmpty, PositiveAt, C.Usable, C.AmountOf, C.RankedOk, FieldAt, Count, ModeText;
    PaidReads(content, text, "providerId");
    PaidReads(content, text, "provider");
    PaidReads(content, text, "quotedAmountAtomic");
    PaidReads(content, text, "executionMode");
    PaidReads(content, text, "maxAttempts");
    PaidReads(content, text, "rankedProviders");
  }

  lemma RecordingStays(content: Option<Json>, text: string)
    ensures C.RecordingOk(Paid(content, text)) <==> C.RecordingOk(content)
  {
    hide At, Paid;
    PaidReads(content, text, "receiptVerificationStatus");
    PaidReads(content, text, "receiptRecordingStatus");
    PaidReads(content, text, "receiptRecordingSource");
  }

  /** What is read of an execute answer besides the amount. */
  lemma ExecuteStays(content: Option<Json>, text: string)
    requires text != "" && C.ExecuteContentOk(content)
    ensures C.ExecuteContentOk(Paid(content, text))
    ensures At(Paid(content, text), "amountPaidAtomic") == Some(Str(text))
    ensures At(Paid(content, text), "provider") == At(content, "provider")
    ensures At(Paid(content, text), "providerId") == At(content, "providerId")
    ensures At(Paid(content, text), "receiptId") == At(content, "receiptId")
    ensures At(Paid(content, text), "referrerCreditAtomic") == At(content, "referrerCreditAtomic")
  {
    hide At, Paid, PositiveAt, C.Usable, FieldAt, ModeText, C.RecordingOk;
    PaidReads(content, text, "providerId");
    PaidReads(content, text, "amountPaidAtomic");
    PaidReads(content, text, "receiptId");
    PaidReads(content, text, "referrerCreditAtomic");
    PaidReads(content, text, "executionMode");
    PaidReads(content, text, "provider");
    RecordingStays(content, text);
  }

  lemma KeysAreShort(f: Field)
    ensures |KeyOf(f)| < |"requiredAmountAtomic"|
  {
  }

  lemma TermsStay(receipt: Option<Json>, text: string, provider: Option<Json>)
    ensures C.TermsOk(RepricedReceipt(receipt, text), provider) <==> C.TermsOk(receipt, provider)
  {
    hide At, KeyOf, FieldAt, NonEmpty, SetAt;
    forall f: Field ensures At(RepricedReceipt(receipt, text), KeyOf(f)) == At(receipt, KeyOf(f)) {
      KeysAreShort(f);
      AtSet(receipt, "requiredAmountAtomic", Str(text), KeyOf(f));
    }
  }

  /** The only test of the economics that reads the required amount is skipped. */
  lemma EconomicsStay(receipt: Option<Json>, text: string)
    requires C.EconomicsOk(receipt) && Atomic(text).None? && At(receipt, "requiredAmountAtomic").Some?
    ensures C.EconomicsOk(RepricedReceipt(receipt, text))
  {
    hide At, SetAt, Atomic, BasisPoints, PositiveAt;
    AtSet(receipt, "requiredAmountAtomic", Str(text), "requiredAmountAtomic");
    AtSet(receipt, "requiredAmountAtomic", Str(text), "commissionAmountAtomic");
    AtSet(receipt, "requiredAmountAtomic", Str(text), "protocolFeeAtomic");
    AtSet(receipt, "requiredAmountAtomic", Str(text), "commissionBps");
    AtSet(receipt, "requiredAmountAtomic", Str(text), "protocolFeeBpsOfCommission");
    SameLengthKeys();
    AtSet(receipt, "requiredAmountAtomic", Str(text), "referrerCreditAtomic");
  }

  lemma SameLengthKeys()
    ensures "requiredAmountAtomic" != "referrerCreditAtomic"
  {
    assert "requiredAmountAtomic"[2] != "referrerCreditAtomic"[2];
  }

  lemma ReceiptStays(execute: Option<Json>, receipt: Option<Json>, text: string)
    requires C.ExecuteContentOk(execute) && C.ReceiptRecordOk(execute, receipt) && text != "" && Atomic(text).None?
    ensures C.ReceiptRecordOk(Paid(execute, text), RepricedReceipt(receipt, text))
  {
    hide At, SetAt, Atomic, Paid, PositiveAt, C.TermsOk, C.EconomicsOk, C.AmountOf, C.Usable, FieldAt, ModeText, C.RecordingOk;
    ExecuteStays(execute, text);
    AtSet(receipt, "requiredAmountAtomic", Str(text), "requiredAmountAtomic");
    AtSet(receipt, "requiredAmountAtomic", Str(text), "receiptId");
    SameLengthKeys();
    AtSet(receipt, "requiredAmountAtomic", Str(text), "referrerCreditAtomic");
    TermsStay(receipt, text, At(execute, "provider"));
    EconomicsStay(receipt, text);
  }

  lemma ExecuteFollows(lines: seq<Line>, text: string)
    requires C.QuoteOk(lines) && C.ExecuteOk(lines) && text != "" && Atomic(text).None?
    ensures C.QuoteOk(Repriced(lines, text)) && C.ExecuteOk(Repriced(lines, text))
  {
    hide C.Reply, At, Repriced, Content, Paid, C.QuoteContentOk, C.ExecuteContentOk, C.Capabilities, ReadProvider, C.Usable, C.LastById,
         NonEmpty, Atomic, C.FindRequest, C.BudgetOf, C.SameTerms, PositiveAt;
    ContentFollows(lines, text, C.ByTool(Quote));
    ContentFollows(lines, text, C.ByTool(Execute));
    QuoteStays(C.ContentOf(lines, Quote), text);
    ExecuteStays(C.ContentOf(lines, Execute), text);
    SearchStays(lines, text);
    CapabilitiesStay(lines, text);
  }

  lemma ReceiptFollows(lines: seq<Line>, text: string)
    requires C.ExecuteOk(lines) && C.ReceiptOk(lines) && text != "" && Atomic(text).None?
    ensures C.ReceiptOk(Repriced(lines, text))
  {
    hide C.Reply, At, Repriced, Content, Paid, C.ReceiptRecordOk, C.ProvidersOk, C.PaymentOk, C.SameTerms, RepricedReceipt,
         NonEmpty, Atomic, C.RecordingOk, C.Usable, FieldAt, ModeText, PositiveAt;
    var execute := C.ContentOf(lines, Execute);
    ContentFollows(lines, text, C.ByTool(Execute));
    ExecuteStays(execute, text);
    var id := NonEmpty(At(execute, "receiptId")).value;
    ContentFollows(lines, text, C.ByReceipt(id));
    var content := Content(C.Reply(lines, C.ByReceipt(id)));
    PaidReads(content, text, "receiptId");
    PaidReads(content, text, "receipt");
    ReceiptStays(execute, At(content, "receipt"), text);
  }

  /** Whatever log the checker accepts, it also accepts with any non-empty text that is no amount in place of
      the amount that was paid, if the receipt requires the same text: then the commission is tied to no
      amount at all. */
  lemma UnreadablePaymentIsAccepted(lines: seq<Line>, text: string)
    requires C.Accepted(lines) && text != "" && Atomic(text).None?
    ensures C.Accepted(Repriced(lines, text))
    ensures At(C.ContentOf(Repriced(lines, text), Execute), "amountPaidAtomic") == Some(Str(text))
  {
    hide C.Reply, At, Repriced, Content, Paid, C.ToolsOk, C.SearchOk, C.QuoteOk, C.ReceiptOk, C.ProvidersOk, C.PaymentOk, C.SameTerms,
         C.ExecuteContentOk, Atomic;
    ContentFollows(lines, text, C.ByMethod(Initialize));
    ContentFollows(lines, text, C.ByTool(Execute));
    ToolsStay(lines, text);
    SearchStays(lines, text);
    ExecuteFollows(lines, text);
    ReceiptFollows(lines, text);
    ExecuteStays(C.ContentOf(lines, Execute), text);
  }
}
