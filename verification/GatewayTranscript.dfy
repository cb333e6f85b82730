/** What the checker's searches find in the transcript that the collector records. */
module GatewayTranscript {
  import opened Text
  import opened Json
  import opened JsonRead
  import opened JsonLines
  import opened GatewayMessages
  import opened GatewayCollector
  import C = GatewayChecker

  // --- reading the collector's requests ---------------------------------------------------------------------------

  lemma {:induction false} TermsOfRequest(c: Settings, receiptId: string, step: Step)
    requires step in {Search, Quote, Execute} && c.capability != "" && c.maxAmount != ""
    ensures var m := Some(RequestMessage(c, receiptId, step));
            C.CapabilityOf(m) == Some(c.capability) && C.BudgetOf(m) == Some(c.maxAmount)
  {
    hide Lookup, IdOf, MethodOf, ToolName, RequestMessage;
    MethodNames();
    RequestEnvelope(c, receiptId, step);
    var arguments := ArgumentsOf(c, receiptId, step);
    LookupLast(arguments, 0);
    LookupLast(arguments, |arguments| - 1);
    var budget := [Member("maxAmountAtomic", Str(c.maxAmount))];
    LookupLast(budget, 0);
  }

  /** The query that the checker finds the request of a step by. */
  function QueryOf(step: Step, receiptId: string): C.Query {
    if step.GetReceipt? then C.ByReceipt(receiptId)
    else if IsToolCall(step) then C.ByTool(step)
    else C.ByMethod(step)
  }

  lemma {:induction false} OnlyOwnRequest(c: Settings, receiptId: string, step: Step, t: Step)
    ensures C.Matches(RequestMessage(c, receiptId, t), QueryOf(step, receiptId)) <==> t == step
  {
    hide Lookup, IdOf, MethodOf, ToolName, RequestMessage;
    MethodNames();
    RequestEnvelope(c, receiptId, t);
    if IsToolCall(t) && IsToolCall(step) {
      ToolNamesDiffer(t, step);
    }
    if t.GetReceipt? {
      LookupLast(ArgumentsOf(c, receiptId, t), 0);
    }
  }

  // --- searching exchanges --------------------------------------------------------------------------------------------

  lemma {:induction false} FindRequestConcat(x: seq<Line>, y: seq<Line>, q: C.Query)
    ensures C.FindRequest(x + y, q) == if C.FindRequest(x, q).Some? then C.FindRequest(x, q) else C.FindRequest(y, q)
  {
    hide C.Matches;
    if x == [] {
      assert x + y == y;
    } else {
      assert (x + y)[1..] == x[1..] + y;
      FindRequestConcat(x[1..], y, q);
    }
  }

  lemma {:induction false} FindResponseConcat(x: seq<Line>, y: seq<Line>, id: Option<Json>)
    ensures C.FindResponse(x + y, id) == if C.FindResponse(x, id).Some? then C.FindResponse(x, id) else C.FindResponse(y, id)
  {
    hide C.Answers;
    if x == [] {
      assert x + y == y;
    } else {
      assert (x + y)[1..] == x[1..] + y;
      FindResponseConcat(x[1..], y, id);
    }
  }

  /** The answer of a step carries the id of its request. */
  predicate EchoesId(a: Answers, step: Step) {
    AnswerTo(a, step).Some? ==> At(AnswerTo(a, step), "id") == Some(Str(IdOf(step)))
  }

  lemma {:induction false} InOneExchange(c: Settings, receiptId: string, a: Answers, step: Step, t: Step)
    requires EchoesId(a, t)
    ensures var lines := Exchange(c, receiptId, a, t);
            && C.FindRequest(lines, QueryOf(step, receiptId)) == (if t == step then Some(RequestMessage(c, receiptId, t)) else None)
            && C.FindResponse(lines, Some(Str(IdOf(step)))) == (if t == step && Answered(AnswerTo(a, t)) then AnswerTo(a, t) else None)
  {
    hide RequestMessage, C.Matches, AnswerTo, IdOf, At, NoError;
    OnlyOwnRequest(c, receiptId, step, t);
    IdsDiffer(step, t);
    var q, id := QueryOf(step, receiptId), Some(Str(IdOf(step)));
    var request := [Request(RequestMessage(c, receiptId, t))];
    var response := ResponseLine(AnswerTo(a, t));
    OneLineSearch(request[0], q, id);
    if response != [] { OneLineSearch(response[0], q, id); }
    FindRequestConcat(request, response, q);
    FindResponseConcat(request, response, id);
  }

  lemma {:induction false} OneLineSearch(line: Line, q: C.Query, id: Option<Json>)
    ensures C.FindRequest([line], q) == if line.Request? && C.Matches(line.message, q) then Some(line.message) else None
    ensures C.FindResponse([line], id) == if C.Answers(line, id) then Some(line.message) else None
  {
    hide C.Matches, C.Answers;
    assert [line][1..] == [];
  }

  /** In the exchanges of steps, the request of a step is found by its query, and its answer by its id. */
  lemma {:induction false} InExchanges(c: Settings, receiptId: string, a: Answers, steps: seq<Step>, step: Step)
    requires forall t | t in steps :: EchoesId(a, t)
    ensures var lines := Exchanges(c, receiptId, a, steps);
            && C.FindRequest(lines, QueryOf(step, receiptId)) ==
                 (if step in steps then Some(RequestMessage(c, receiptId, step)) else None)
            && C.FindResponse(lines, Some(Str(IdOf(step)))) ==
                 (if step in steps && Answered(AnswerTo(a, step)) then AnswerTo(a, step) else None)
  {
    hide RequestMessage, C.Matches, AnswerTo, IdOf, QueryOf, EchoesId, Answered, Exchange;
    if steps != [] {
      var init, last := steps[..|steps| - 1], steps[|steps| - 1];
      assert steps == init + [last];
      InExchanges(c, receiptId, a, init, step);
      InOneExchange(c, receiptId, a, step, last);
      var x, y := Exchanges(c, receiptId, a, init), Exchange(c, receiptId, a, last);
      FindRequestConcat(x, y, QueryOf(step, receiptId));
      FindResponseConcat(x, y, Some(Str(IdOf(step))));
    }
  }

  lemma AllSteps(c: Settings, a: Answers)
    requires c.capture && ExecutionOf(a).Some?
    ensures forall step: Step :: step in StepsOf(c, a)
  {
    hide ExecutionOf;
    var steps := StepsOf(c, a);
    assert steps == [Initialize, ListTools, Search, Quote, Execute, GetReceipt];
    forall step: Step ensures step in steps {
      match step
      case Initialize => assert steps[0] == step;
      case ListTools => assert steps[1] == step;
      case Search => assert steps[2] == step;
      case Quote => assert steps[3] == step;
      case Execute => assert steps[4] == step;
      case GetReceipt => assert steps[5] == step;
    }
  }

  /** In the transcript of a run up to the receipt, the checker finds each request, and as its reply the
      answer, if that is no error. */
  lemma {:induction false} FindsStep(c: Settings, a: Answers, step: Step)
    requires c.capture && ExecutionOf(a).Some? && forall t: Step :: EchoesId(a, t)
    ensures var lines, q := TranscriptOf(c, a), QueryOf(step, ReceiptIdOf(a));
            && C.FindRequest(lines, q) == Some(RequestMessage(c, ReceiptIdOf(a), step))
            && C.Reply(lines, q) == if Answered(AnswerTo(a, step)) then AnswerTo(a, step) else None
  {
    hide RequestMessage, C.Matches, AnswerTo, IdOf, QueryOf, EchoesId, Answered, Exchanges, ExecutionOf, At, MethodOf, ToolName,
         ArgumentsOf;
    AllSteps(c, a);
    InExchanges(c, ReceiptIdOf(a), a, StepsOf(c, a), step);
    RequestEnvelope(c, ReceiptIdOf(a), step);
  }
}
