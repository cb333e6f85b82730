/** The settlement log and the mock payment middleware that appends to it. */
module Settlement {
  import opened Text
  import opened Json
  import J = Json
  import opened JsonRoundTrip
  import opened JsonLines
  import Price

  // --- the log file ----------------------------------------------------------------------------------------

  /** `contents.split("\n")`. */
  function SplitFeeds(s: string): (lines: seq<string>)
    ensures lines != []
  {
    if s == "" then [""]
    else if s[0] == '\n' then [""] + SplitFeeds(s[1..])
    else var rest := SplitFeeds(s[1..]); [[s[0]] + rest[0]] + rest[1..]
  }

  /** The values of the non-empty lines, or None when one of them is not JSON. */
  function ParseLines(lines: seq<string>): Option<seq<Json>> {
    if lines == [] then Some([])
    else if lines[0] == "" then ParseLines(lines[1..])
    else match (Parse(lines[0]), ParseLines(lines[1..]))
      case (Some(v), Some(more)) => Some([v] + more)
      case _ => None
  }

  function Decode(contents: string): Option<seq<Json>> {
    ParseLines(SplitFeeds(contents))
  }

  /** The file that appending these records in order leaves. */
  function LogText(records: seq<Json>): string {
    if records == [] then "" else LogText(records[..|records| - 1]) + Stringify(records[|records| - 1]) + "\n"
  }

  function PaymentIdOf(record: Json): Option<Json> {
    if record.Obj? then Lookup(record.members, "paymentId") else None
  }

  /** `records.find((record) => record.paymentId === paymentId)`. */
  function Find(records: seq<Json>, paymentId: string): Option<Json> {
    if records == [] then None
    else if PaymentIdOf(records[0]) == Some(Str(paymentId)) then Some(records[0])
    else Find(records[1..], paymentId)
  }

  predicate AllValid(records: seq<Json>) {
    forall i | 0 <= i < |records| :: Valid(records[i])
  }

  lemma {:induction false} LogGrows(records: seq<Json>, record: Json)
    ensures LogText([]) == ""
    ensures LogText(records + [record]) == LogText(records) + (Stringify(record) + "\n")
  {
    hide Stringify;
    var all := records + [record];
    assert all[..|all| - 1] == records;
    assert LogText(records) + Stringify(record) + "\n" == LogText(records) + (Stringify(record) + "\n");
  }

  // --- what can be observed -------------------------------------------------------------------------------

  datatype Reason = MissingSignature | InvalidSignature | BadIdentifier | Mismatch

  /** A record appended to the file, a refusal sent, the response header set, the handler behind the
      middleware run for another route or for a paid request. */
  datatype Event =
    | Appended(record: Json) | Refused(reason: Reason) | HeaderSet(settlement: Json) | Passed | Ran(paymentId: string)

  /** The records that were appended, in order. */
  function Recorded(events: seq<Event>): seq<Json> {
    if events == [] then []
    else
      var last := events[|events| - 1];
      Recorded(events[..|events| - 1]) + if last.Appended? then [last.record] else []
  }

  lemma {:induction false} RecordedConcat(a: seq<Event>, b: seq<Event>)
    ensures Recorded(a + b) == Recorded(a) + Recorded(b)
  {
    if b == [] {
      assert a + b == a;
    } else {
      assert (a + b)[..|a + b| - 1] == a + b[..|b| - 1];
      RecordedConcat(a, b[..|b| - 1]);
    }
  }

  /** Everything that happened, in order. */
  class Trace {
    var events: seq<Event>

    constructor ()
      ensures events == []
    {
      events := [];
    }

    method Note(event: Event)
      modifies this
      ensures events == old(events) + [event]
    {
      events := events + [event];
    }
  }

  /** The store: `contents` is its file, None while the file does not exist. */
  class SettlementStore {
    const trace: Trace
    var contents: Option<string>
    ghost var records: seq<Json>

    ghost predicate Valid()
      reads this
    {
      && AllValid(records)
      && contents == if records == [] then None else Some(LogText(records))
    }

    constructor (trace: Trace)
      ensures Valid() && records == [] && this.trace == trace
    {
      this.trace := trace;
      contents := None;
      records := [];
    }

    /** `append`. */
    method Append(record: Json)
      requires Valid() && J.Valid(record)
      modifies this, trace
      ensures Valid() && records == old(records) + [record]
      ensures trace.events == old(trace.events) + [Appended(record)]
    {
      hide Stringify, J.Valid, LogText;
      LogGrows(records, record);
      contents := Some((if contents.Some? then contents.value else "") + (Stringify(record) + "\n"));
      records := records + [record];
      trace.Note(Appended(record));
    }

    /** `list`; it never throws on its own file. */
    method List() returns (list: seq<Json>)
      requires Valid()
      ensures list == records
    {
      hide LogText;
      if contents.None? {
        return [];
      }
      LogDecodes(records);
      var decoded := Decode(contents.value);
      list := decoded.value;
    }

    /** `findByPaymentId`. */
    method FindByPaymentId(paymentId: string) returns (r: Option<Json>)
      requires Valid()
      ensures r == Find(records, paymentId)
    {
      var list := List();
      for i := 0 to |list|
        invariant Find(list, paymentId) == Find(list[i..], paymentId)
      {
        assert list[i..][0] == list[i] && list[i..][1..] == list[i + 1..];
        if PaymentIdOf(list[i]) == Some(Str(paymentId)) {
          return Some(list[i]);
        }
      }
      r := None;
    }
  }

  // --- the file decodes to the records -----------------------------------------------------------------------

  lemma {:induction false} SplitFeedsAt(a: string, line: string)
    requires OneLine(line)
    ensures a == "" || a[|a| - 1] == '\n' ==>
              SplitFeeds(a + line + "\n") == SplitFeeds(a)[..|SplitFeeds(a)| - 1] + [line, ""]
  {
    hide SplitFeeds, OneLine;
    if a == "" {
      SplitOneLine(line);
      SplitFeedsEmpty();
      assert a + line + "\n" == line + "\n";
    } else if a[|a| - 1] == '\n' {
      assert a + line + "\n" == [a[0]] + (a[1..] + line + "\n") && a == [a[0]] + a[1..];
      SplitFeedsStep(a[0], a[1..] + line + "\n");
      SplitFeedsStep(a[0], a[1..]);
      SplitFeedsAt(a[1..], line);
      EndsInEmpty(a[1..]);
    }
  }

  lemma {:induction false} SplitFeedsStep(c: char, rest: string)
    ensures SplitFeeds([c] + rest) ==
            if c == '\n' then [""] + SplitFeeds(rest) else [[c] + SplitFeeds(rest)[0]] + SplitFeeds(rest)[1..]
  {
    assert ([c] + rest)[1..] == rest;
  }

  lemma SplitFeedsEmpty()
    ensures SplitFeeds("") == [""]
  {
  }

  lemma {:induction false} EndsInEmpty(a: string)
    requires a != "" ==> a[|a| - 1] == '\n'
    ensures SplitFeeds(a)[|SplitFeeds(a)| - 1] == ""
    ensures a != "" ==> |SplitFeeds(a)| >= 2
  {
    if a != "" { EndsInEmpty(a[1..]); }
  }

  lemma {:induction false} SplitOneLine(line: string)
    requires OneLine(line)
    ensures SplitFeeds(line + "\n") == [line, ""]
  {
    if line == "" {
      assert (line + "\n")[1..] == "";
    } else {
      assert (line + "\n")[1..] == line[1..] + "\n";
      SplitOneLine(line[1..]);
      assert [line[0]] + line[1..] == line;
    }
  }

  lemma {:induction false} ParseLinesConcat(a: seq<string>, b: seq<string>)
    requires ParseLines(a).Some? && ParseLines(b).Some?
    ensures ParseLines(a + b) == Some(ParseLines(a).value + ParseLines(b).value)
  {
    hide Parse;
    if a == [] {
      assert a + b == b;
      assert [] + ParseLines(b).value == ParseLines(b).value;
    } else {
      assert (a + b)[1..] == a[1..] + b && (a + b)[0] == a[0];
      ParseLinesConcat(a[1..], b);
      if a[0] != "" {
        var v, more := Parse(a[0]).value, ParseLines(a[1..]).value;
        assert [v] + (more + ParseLines(b).value) == ([v] + more) + ParseLines(b).value;
      }
    }
  }

  lemma {:induction false} ParseOneRecord(v: Json)
    requires Valid(v)
    ensures ParseLines([Stringify(v), ""]) == Some([v])
  {
    hide Parse, Print, Valid;
    ParsePrinted(v, "", "");
    assert Stringify(v) + "" == Stringify(v);
    PrintStart(v, "", "");
    assert [Stringify(v), ""][1..] == [""] && [""][1..] == [];
    assert ParseLines([""]) == Some([]);
    assert [v] + [] == [v];
  }

  lemma {:induction false} LogEnds(records: seq<Json>)
    ensures LogText(records) == "" || LogText(records)[|LogText(records)| - 1] == '\n'
  {
  }

  /** The file decodes to exactly the appended records, in order. */
  lemma {:induction false} LogDecodes(records: seq<Json>)
    requires AllValid(records)
    ensures Decode(LogText(records)) == Some(records)
  {
    hide Parse, Stringify, Valid, SplitFeeds, ParseLines;
    if records == [] {
      EmptyDecodes();
    } else {
      var init, last := records[..|records| - 1], records[|records| - 1];
      LogDecodes(init);
      LogEnds(init);
      DecodeAppended(LogText(init), init, last);
      assert records == init + [last];
    }
  }

  lemma EmptyDecodes()
    ensures Decode("") == Some([])
  {
    assert [""][1..] == [];
  }

  lemma {:induction false} DecodeAppended(contents: string, records: seq<Json>, last: Json)
    requires Valid(last) && Decode(contents) == Some(records)
    requires contents == "" || contents[|contents| - 1] == '\n'
    ensures Decode(contents + Stringify(last) + "\n") == Some(records + [last])
  {
    hide Parse, Print, Valid, SplitFeeds, ParseLines;
    StringifyIsOneLine(last);
    SplitFeedsAt(contents, Stringify(last));
    EndsInEmpty(contents);
    var lines := SplitFeeds(contents);
    var init := lines[..|lines| - 1];
    assert lines == init + [""];
    DropEmptyLast(init);
    ParseOneRecord(last);
    ParseLinesConcat(init, [Stringify(last), ""]);
  }

  lemma {:induction false} DropEmptyLast(lines: seq<string>)
    ensures ParseLines(lines + [""]) == ParseLines(lines)
  {
    hide Parse;
    if lines == [] {
      assert [""][1..] == [];
      assert lines + [""] == [""];
    } else {
      assert (lines + [""])[1..] == lines[1..] + [""];
      DropEmptyLast(lines[1..]);
    }
  }

  // --- first record of a payment id --------------------------------------------------------------------------

  /** A payment id that was found once is found again with the same record, whatever is appended. */
  lemma {:induction false} FindIsStable(records: seq<Json>, more: seq<Json>, paymentId: string)
    requires Find(records, paymentId).Some?
    ensures Find(records + more, paymentId) == Find(records, paymentId)
  {
    if PaymentIdOf(records[0]) != Some(Str(paymentId)) {
      assert (records + more)[1..] == records[1..] + more;
      FindIsStable(records[1..], more, paymentId);
    }
  }

  lemma {:induction false} FindAppended(records: seq<Json>, record: Json, paymentId: string)
    requires PaymentIdOf(record) == Some(Str(paymentId))
    ensures Find(records + [record], paymentId).Some?
  {
    if records != [] {
      assert (records + [record])[1..] == records[1..] + [record];
      FindAppended(records[1..], record, paymentId);
    }
  }

  // --- the middleware ------------------------------------------------------------------------------------------

  const PAID_DEMO_ROUTE := "/v1/paid-demo"
  const PAID_DEMO_METHOD := "GET"

  datatype Config = Config(network: string, asset: string, priceUsd: string, payTo: string)

  datatype Requirements = Requirements(scheme: string, network: string, asset: string, amount: string, payTo: string)

  /** A decoded payment payload, with what the payment-identifier extension says of it. */
  datatype Payload = Payload(accepted: Requirements, identifierValid: bool, paymentId: Option<string>, payer: Option<string>)

  datatype Request = Request(httpMethod: string, path: string, signature: Option<string>, receivedAt: string)

  /** `createAcceptedPayment`. */
  function AcceptedPayment(config: Config): Requirements {
    Requirements("exact", config.network, config.asset, Price.UsdToAtomicUnits(config.priceUsd), config.payTo)
  }

  /** `acceptedPaymentMatches`. */
  predicate AcceptedMatches(accepted: Requirements, expected: Requirements) {
    && accepted.scheme == expected.scheme && accepted.network == expected.network && accepted.asset == expected.asset
    && accepted.amount == expected.amount && accepted.payTo == expected.payTo
  }

  function PayerMember(payer: Option<string>): seq<Member> {
    match payer
    case None => []
    case Some(p) => [Member("payer", Str(p))]
  }

  /** The mock settlement of a payment. */
  function SettleResponse(config: Config, paymentId: string, payer: Option<string>): Json {
    Obj([Member("success", Bool(true)), Member("transaction", Str("mock:" + paymentId)),
         Member("network", Str(config.network)), Member("amount", Str(AcceptedPayment(config).amount))]
        + PayerMember(payer))
  }

  /** The record that the middleware appends. */
  function SettlementRecord(config: Config, paymentId: string, payer: Option<string>, createdAt: string): Json {
    Obj([Member("paymentId", Str(paymentId))] + RecordDetails(config, paymentId, payer, createdAt))
  }

  function RecordDetails(config: Config, paymentId: string, payer: Option<string>, createdAt: string): seq<Member> {
    [Member("route", Str(PAID_DEMO_ROUTE)), Member("method", Str(PAID_DEMO_METHOD)),
     Member("amount", Str(AcceptedPayment(config).amount)), Member("asset", Str(config.asset)),
     Member("network", Str(config.network))]
    + PayerMember(payer)
    + [Member("transaction", Str("mock:" + paymentId)), Member("status", Str("mock-settled")),
       Member("raw", SettleResponse(config, paymentId, payer)), Member("createdAt", Str(createdAt))]
  }

  /** What one request makes happen, in order. */
  function Steps(config: Config, decode: string -> Option<Payload>, req: Request): seq<Event> {
    if req.httpMethod != PAID_DEMO_METHOD || req.path != PAID_DEMO_ROUTE then [Passed]
    else match req.signature
      case None => [Refused(MissingSignature)]
      case Some(signature) =>
        if signature == "" then [Refused(MissingSignature)]
        else match decode(signature)
          case None => [Refused(InvalidSignature)]
          case Some(p) =>
            if !p.identifierValid || p.paymentId.None? || p.paymentId.value == "" then [Refused(BadIdentifier)]
            else if !AcceptedMatches(p.accepted, AcceptedPayment(config)) then [Refused(Mismatch)]
            else
              var id := p.paymentId.value;
              [Appended(SettlementRecord(config, id, p.payer, req.receivedAt)), HeaderSet(SettleResponse(config, id, p.payer)), Ran(id)]
  }

  // --- what one request makes happen, by configuration and request alone ------------------------------------------------

  /** floor(price * 10^6). */
  function Floor(price: Price.Price): nat
    requires price.Valid()
  {
    price.Numerator() * 1_000_000 / price.Denominator()
  }

  /** What a payer must accept: the exact scheme, the configured network, asset and receiver, and as its amount
      the numeral of floor(price * 10^6). */
  predicate Offers(config: Config, price: Price.Price, accepted: Requirements)
    requires price.Valid()
  {
    && accepted.scheme == "exact" && accepted.network == config.network
    && accepted.asset == config.asset && accepted.payTo == config.payTo
    && IsCanonical(accepted.amount) && NatOf(accepted.amount) == Floor(price)
  }

  /** The value of a member, None if there is no such member. */
  function Get(v: Json, key: string): Option<Json> {
    if v.Obj? then Lookup(v.members, key) else None
  }

  function TextOf(text: Option<string>): Option<Json> {
    match text
    case None => None
    case Some(s) => Some(Str(s))
  }

  /** The numeral of the amount to pay. */
  function AmountText(price: Price.Price): string
    requires price.Valid()
  {
    Digits(Floor(price))
  }

  predicate IsSettlement(v: Json, config: Config, price: Price.Price, id: string, payer: Option<string>)
    requires price.Valid()
  {
    && Get(v, "success") == Some(Bool(true)) && Get(v, "transaction") == Some(Str("mock:" + id))
    && Get(v, "network") == Some(Str(config.network)) && Get(v, "amount") == Some(Str(AmountText(price)))
    && Get(v, "payer") == TextOf(payer)
  }

  predicate IsRecord(v: Json, config: Config, price: Price.Price, id: string, payer: Option<string>, at: string)
    requires price.Valid()
  {
    && Get(v, "paymentId") == Some(Str(id)) && Get(v, "route") == Some(Str("/v1/paid-demo")) && Get(v, "method") == Some(Str("GET"))
    && Get(v, "amount") == Some(Str(AmountText(price))) && Get(v, "asset") == Some(Str(config.asset))
    && Get(v, "network") == Some(Str(config.network)) && Get(v, "payer") == TextOf(payer)
    && Get(v, "transaction") == Some(Str("mock:" + id)) && Get(v, "status") == Some(Str("mock-settled"))
    && Get(v, "createdAt") == Some(Str(at))
    && Get(v, "raw").Some? && IsSettlement(Get(v, "raw").value, config, price, id, payer)
  }

  /** The events of one request. */
  predicate Follows(config: Config, price: Price.Price, decode: string -> Option<Payload>, req: Request, events: seq<Event>)
    requires price.Valid()
  {
    if req.httpMethod != "GET" || req.path != "/v1/paid-demo" then events == [Passed]
    else if req.signature == None || req.signature == Some("") then events == [Refused(MissingSignature)]
    else if decode(req.signature.value).None? then events == [Refused(InvalidSignature)]
    else
      var p := decode(req.signature.value).value;
      if !p.identifierValid || p.paymentId == None || p.paymentId == Some("") then events == [Refused(BadIdentifier)]
      else if !Offers(config, price, p.accepted) then events == [Refused(Mismatch)]
      else
        && |events| == 3 && events[0].Appended? && events[1].HeaderSet? && events[2] == Ran(p.paymentId.value)
        && IsRecord(events[0].record, config, price, p.paymentId.value, p.payer, req.receivedAt)
        && IsSettlement(events[1].settlement, config, price, p.paymentId.value, p.payer)
  }

  lemma MillionIs()
    ensures Pow10(Price.USDC_DECIMALS) == 1_000_000
  {
    assert Pow10(3) == 1000 && Pow10(6) == 1000 * Pow10(3);
  }

  lemma FloorIs(price: Price.Price)
    requires price.Valid()
    ensures price.Numerator() * Pow10(Price.USDC_DECIMALS) / price.Denominator() == Floor(price)
  {
    hide Pow10;
    MillionIs();
  }

  lemma AmountIs(config: Config, price: Price.Price)
    requires price.Valid() && config.priceUsd == price.Text()
    ensures AcceptedPayment(config).amount == AmountText(price)
  {
    hide Pow10, Floor, Digits, NatOf, IsCanonical;
    Price.AtomicUnitsAreFloor(price);
    FloorIs(price);
    DigitsOfNat(AcceptedPayment(config).amount);
  }

  lemma OffersIff(config: Config, price: Price.Price, accepted: Requirements)
    requires price.Valid() && config.priceUsd == price.Text()
    ensures AcceptedMatches(accepted, AcceptedPayment(config)) <==> Offers(config, price, accepted)
  {
    hide NatOf, Digits, Floor, IsCanonical;
    AmountIs(config, price);
    NatOfDigits(Floor(price));
    if IsCanonical(accepted.amount) { DigitsOfNat(accepted.amount); }
    CanonicalDigits(Floor(price));
  }

  lemma CanonicalDigits(n: nat)
    ensures IsCanonical(Digits(n))
  {
  }

  lemma {:induction false} SettlementIs(config: Config, price: Price.Price, id: string, payer: Option<string>)
    requires price.Valid() && config.priceUsd == price.Text()
    ensures IsSettlement(SettleResponse(config, id, payer), config, price, id, payer)
  {
    hide Lookup, AmountText;
    AmountIs(config, price);
    var members := SettleResponse(config, id, payer).members;
    hide AcceptedPayment, DistinctKeys;
    if payer.Some? {
      ByShape(members, [(7, 's'), (11, 't'), (7, 'n'), (6, 'a'), (5, 'p')]);
      LookupDistinct(members, 4);
    } else {
      ByShape(members, [(7, 's'), (11, 't'), (7, 'n'), (6, 'a')]);
      LookupAbsent(members, "payer");
    }
    LookupDistinct(members, 0);
    LookupDistinct(members, 1);
    LookupDistinct(members, 2);
    LookupDistinct(members, 3);
  }

  lemma {:induction false} PaidKeys(config: Config, id: string, payer: string, at: string)
    ensures DistinctKeys(SettlementRecord(config, id, Some(payer), at).members)
  {
    hide AcceptedPayment, SettleResponse, DistinctKeys, PAID_DEMO_ROUTE;
    ByShape(SettlementRecord(config, id, Some(payer), at).members,
            [(9, 'p'), (5, 'r'), (6, 'm'), (6, 'a'), (5, 'a'), (7, 'n'), (5, 'p'), (11, 't'), (6, 's'), (3, 'r'), (9, 'c')]);
  }

  lemma {:induction false} AnonymousKeys(config: Config, id: string, at: string)
    ensures DistinctKeys(SettlementRecord(config, id, None, at).members)
  {
    hide AcceptedPayment, SettleResponse, DistinctKeys, PAID_DEMO_ROUTE;
    ByShape(SettlementRecord(config, id, None, at).members,
            [(9, 'p'), (5, 'r'), (6, 'm'), (6, 'a'), (5, 'a'), (7, 'n'), (11, 't'), (6, 's'), (3, 'r'), (9, 'c')]);
  }

  lemma {:induction false} RecordKeys(config: Config, id: string, payer: Option<string>, at: string)
    ensures DistinctKeys(SettlementRecord(config, id, payer, at).members)
  {
    hide SettlementRecord, DistinctKeys;
    match payer
    case None => AnonymousKeys(config, id, at);
    case Some(s) => PaidKeys(config, id, s, at);
  }

  lemma {:induction false} NoPayerKey(config: Config, id: string, at: string)
    ensures forall i | 0 <= i < |SettlementRecord(config, id, None, at).members| :: SettlementRecord(config, id, None, at).members[i].key != "payer"
  {
    hide AcceptedPayment, SettleResponse, PAID_DEMO_ROUTE;
    assert "route"[0] != "payer"[0] && "asset"[0] != "payer"[0];
  }

  lemma {:induction false} RecordIs(config: Config, price: Price.Price, id: string, payer: Option<string>, at: string)
    requires price.Valid() && config.priceUsd == price.Text()
    ensures IsRecord(SettlementRecord(config, id, payer, at), config, price, id, payer, at)
  {
    hide Lookup, AmountText, SettleResponse, IsSettlement, DistinctKeys;
    AmountIs(config, price);
    SettlementIs(config, price, id, payer);
    hide AcceptedPayment;
    RecordKeys(config, id, payer, at);
    var members := SettlementRecord(config, id, payer, at).members;
    LookupDistinct(members, 0);
    LookupDistinct(members, 1);
    LookupDistinct(members, 2);
    LookupDistinct(members, 3);
    LookupDistinct(members, 4);
    LookupDistinct(members, 5);
    LookupDistinct(members, |members| - 4);
    LookupDistinct(members, |members| - 3);
    LookupDistinct(members, |members| - 2);
    LookupDistinct(members, |members| - 1);
    if payer.Some? {
      LookupDistinct(members, 6);
    } else {
      NoPayerKey(config, id, at);
      LookupAbsent(members, "payer");
    }
  }

  lemma {:induction false} StepsFollow(config: Config, price: Price.Price, decode: string -> Option<Payload>, req: Request)
    requires price.Valid() && config.priceUsd == price.Text()
    ensures Follows(config, price, decode, req, Steps(config, decode, req))
  {
    hide SettlementRecord, SettleResponse, AcceptedPayment, IsSettlement, IsRecord, Offers, AcceptedMatches;
    if req.signature.Some? && decode(req.signature.value).Some? {
      var p := decode(req.signature.value).value;
      OffersIff(config, price, p.accepted);
      if p.paymentId.Some? {
        RecordIs(config, price, p.paymentId.value, p.payer, req.receivedAt);
        SettlementIs(config, price, p.paymentId.value, p.payer);
      }
    }
  }

  /** The handlers behind the middleware.  The paid one may be run only once the payment is in the store. */
  class Application {
    const store: SettlementStore

    constructor (store: SettlementStore)
      ensures this.store == store
    {
      this.store := store;
    }

    /** `next()`, with the payment id that the middleware left in `res.locals`. */
    method Next(paymentId: Option<string>)
      requires paymentId.Some? ==> Find(store.records, paymentId.value).Some?
      modifies store.trace
      ensures store.trace.events == old(store.trace.events) + [if paymentId.Some? then Ran(paymentId.value) else Passed]
    {
      store.trace.Note(if paymentId.Some? then Ran(paymentId.value) else Passed);
    }
  }

  /** The request handler over its store. */
  class MockPaymentMiddleware {
    const config: Config
    const store: SettlementStore
    const app: Application

    constructor (config: Config, app: Application)
      ensures this.config == config && this.app == app && this.store == app.store
    {
      this.config := config;
      this.store := app.store;
      this.app := app;
    }

    /** `sendPaymentRequired`. */
    method SendPaymentRequired(reason: Reason)
      modifies store.trace
      ensures store.trace.events == old(store.trace.events) + [Refused(reason)]
    {
      store.trace.Note(Refused(reason));
    }

    /** One request. */
    method Handle(req: Request, decode: string -> Option<Payload>)
      requires store.Valid() && store == app.store
      modifies store, store.trace
      ensures store.Valid()
      ensures store.trace.events == old(store.trace.events) + Steps(config, decode, req)
      ensures store.records == old(store.records) + Recorded(Steps(config, decode, req))
      ensures old(store.trace.events) <= store.trace.events
      ensures forall price: Price.Price | price.Valid() && price.Text() == config.priceUsd ::
                Follows(config, price, decode, req, store.trace.events[|old(store.trace.events)|..])
    {
      hide SettlementRecord, AcceptedPayment, SettleResponse, Recorded, Find, Follows;
      forall price: Price.Price | price.Valid() && price.Text() == config.priceUsd
        ensures Follows(config, price, decode, req, Steps(config, decode, req))
      {
        StepsFollow(config, price, decode, req);
      }
      if req.httpMethod != PAID_DEMO_METHOD || req.path != PAID_DEMO_ROUTE {
        RecordedNothing(Passed);
        app.Next(None);
        return;
      }
      if req.signature.None? || req.signature.value == "" {
        RecordedNothing(Refused(MissingSignature));
        SendPaymentRequired(MissingSignature);
        return;
      }
      var paymentPayload := decode(req.signature.value);
      if paymentPayload.None? {
        RecordedNothing(Refused(InvalidSignature));
        SendPaymentRequired(InvalidSignature);
        return;
      }
      var payload := paymentPayload.value;
      if !payload.identifierValid || payload.paymentId.None? || payload.paymentId.value == "" {
        RecordedNothing(Refused(BadIdentifier));
        SendPaymentRequired(BadIdentifier);
        return;
      }
      if !AcceptedMatches(payload.accepted, AcceptedPayment(config)) {
        RecordedNothing(Refused(Mismatch));
        SendPaymentRequired(Mismatch);
        return;
      }
      Settle(payload.paymentId.value, payload.payer, req.receivedAt);
    }

    /** The paid request: its record is appended, the header is set, and the handler is run. */
    method Settle(paymentId: string, payer: Option<string>, receivedAt: string)
      requires store.Valid() && store == app.store
      modifies store, store.trace
      ensures store.Valid()
      ensures var record, settlement := SettlementRecord(config, paymentId, payer, receivedAt), SettleResponse(config, paymentId, payer);
              var steps := [Appended(record), HeaderSet(settlement), Ran(paymentId)];
              && store.trace.events == old(store.trace.events) + steps
              && store.records == old(store.records) + Recorded(steps)
    {
      hide SettlementRecord, AcceptedPayment, SettleResponse, Recorded, Find;
      var settlement, record := SettleResponse(config, paymentId, payer), SettlementRecord(config, paymentId, payer, receivedAt);
      RecordIsValid(config, paymentId, payer, receivedAt);
      RecordPaymentId(config, paymentId, payer, receivedAt);
      FindAppended(store.records, record, paymentId);
      RecordedPaid(record, settlement, paymentId);
      store.Append(record);
      store.trace.Note(HeaderSet(settlement));
      app.Next(Some(paymentId));
    }
  }

  lemma RecordedNothing(event: Event)
    requires !event.Appended?
    ensures Recorded([event]) == []
  {
    assert [event][..0] == [];
  }

  lemma {:induction false} RecordedPaid(record: Json, settlement: Json, paymentId: string)
    ensures Recorded([Appended(record), HeaderSet(settlement), Ran(paymentId)]) == [record]
  {
    var appended, all := [Appended(record)], [Appended(record), HeaderSet(settlement), Ran(paymentId)];
    assert appended[..0] == [];
    assert Recorded(appended) == [] + [record];
    RecordedNothing(HeaderSet(settlement));
    RecordedNothing(Ran(paymentId));
    RecordedConcat(appended, [HeaderSet(settlement)]);
    RecordedConcat(appended + [HeaderSet(settlement)], [Ran(paymentId)]);
    assert all == appended + [HeaderSet(settlement)] + [Ran(paymentId)];
  }

  lemma {:induction false} ValidConcat(a: seq<Member>, b: seq<Member>)
    requires Valid(Obj(a)) && Valid(Obj(b))
    ensures Valid(Obj(a + b))
  {
  }

  lemma {:induction false} PayerIsValid(payer: Option<string>)
    ensures Valid(Obj(PayerMember(payer)))
  {
    if payer.Some? { assert Valid(Str(payer.value)); }
  }

  lemma {:induction false} ResponseIsValid(config: Config, paymentId: string, payer: Option<string>)
    ensures Valid(SettleResponse(config, paymentId, payer))
  {
    hide AcceptedPayment;
    PayerIsValid(payer);
    ValidConcat([Member("success", Bool(true)), Member("transaction", Str("mock:" + paymentId)),
                 Member("network", Str(config.network)), Member("amount", Str(AcceptedPayment(config).amount))],
                PayerMember(payer));
  }

  lemma {:induction false} DetailsAreValid(config: Config, paymentId: string, payer: Option<string>, createdAt: string)
    ensures Valid(Obj(RecordDetails(config, paymentId, payer, createdAt)))
  {
    hide AcceptedPayment, SettleResponse;
    var first := [Member("route", Str(PAID_DEMO_ROUTE)), Member("method", Str(PAID_DEMO_METHOD)),
                  Member("amount", Str(AcceptedPayment(config).amount)), Member("asset", Str(config.asset)),
                  Member("network", Str(config.network))];
    var last := [Member("transaction", Str("mock:" + paymentId)), Member("status", Str("mock-settled")),
                 Member("raw", SettleResponse(config, paymentId, payer)), Member("createdAt", Str(createdAt))];
    ResponseIsValid(config, paymentId, payer);
    PayerIsValid(payer);
    assert Valid(Obj(first)) by { assert forall i | 0 <= i < 5 :: first[i].value.Str?; }
    assert Valid(Obj(last)) by {
      assert last[0].value.Str? && last[1].value.Str? && last[3].value.Str?;
      assert Valid(last[2].value);
    }
    ValidConcat(first, PayerMember(payer));
    ValidConcat(first + PayerMember(payer), last);
  }

  lemma {:induction false} RecordIsValid(config: Config, paymentId: string, payer: Option<string>, createdAt: string)
    ensures J.Valid(SettlementRecord(config, paymentId, payer, createdAt))
  {
    hide AcceptedPayment, RecordDetails;
    DetailsAreValid(config, paymentId, payer, createdAt);
    ValidConcat([Member("paymentId", Str(paymentId))], RecordDetails(config, paymentId, payer, createdAt));
  }

  lemma {:induction false} RecordPaymentId(config: Config, paymentId: string, payer: Option<string>, createdAt: string)
    ensures PaymentIdOf(SettlementRecord(config, paymentId, payer, createdAt)) == Some(Str(paymentId))
  {
    var details := RecordDetails(config, paymentId, payer, createdAt);
    assert "createdAt"[0] != "paymentId"[0];
    LookupAbsent(details, "paymentId");
    LookupConcat([Member("paymentId", Str(paymentId))], details, "paymentId");
  }

  // --- every run -------------------------------------------------------------------------------------------------

  /** Everything that a sequence of requests makes happen. */
  function Run(config: Config, decode: string -> Option<Payload>, reqs: seq<Request>): seq<Event> {
    if reqs == [] then []
    else Run(config, decode, reqs[..|reqs| - 1]) + Steps(config, decode, reqs[|reqs| - 1])
  }

  /** The request asks for the paid route with a decodable payload, a usable payment identifier, and the five
      requirements of the configured payment. */
  predicate Pays(config: Config, decode: string -> Option<Payload>, req: Request) {
    && req.httpMethod == PAID_DEMO_METHOD && req.path == PAID_DEMO_ROUTE
    && req.signature !in {None, Some("")}
    && decode(req.signature.value).Some?
    && var p := decode(req.signature.value).value;
    && p.identifierValid && p.paymentId !in {None, Some("")}
    && p.accepted == AcceptedPayment(config)
  }

  /** Such a request appends a record and runs the paid handler; every other one does neither, and is refused
      or passed on. */
  lemma {:induction false} PaidIff(config: Config, decode: string -> Option<Payload>, req: Request)
    ensures var steps := Steps(config, decode, req);
            && (Pays(config, decode, req) <==> exists i | 0 <= i < |steps| :: steps[i].Ran?)
            && (Pays(config, decode, req) <==> Recorded(steps) != [])
            && (Pays(config, decode, req) <==> forall i | 0 <= i < |steps| :: !steps[i].Passed? && !steps[i].Refused?)
  {
    hide SettlementRecord, SettleResponse, AcceptedPayment, Recorded;
    var steps := Steps(config, decode, req);
    if Pays(config, decode, req) {
      var p := decode(req.signature.value).value;
      var record := SettlementRecord(config, p.paymentId.value, p.payer, req.receivedAt);
      RecordedPaid(record, SettleResponse(config, p.paymentId.value, p.payer), p.paymentId.value);
      assert steps[2].Ran?;
    } else {
      RecordedNothing(steps[0]);
    }
  }

  /** What a record says of the configured payment: its amount, asset and network. */
  predicate RecordsConfiguredPayment(config: Config, record: Json) {
    && record.Obj?
    && Lookup(record.members, "amount") == Some(Str(AcceptedPayment(config).amount))
    && Lookup(record.members, "asset") == Some(Str(config.asset))
    && Lookup(record.members, "network") == Some(Str(config.network))
  }

  lemma {:induction false} RecordMatches(config: Config, paymentId: string, payer: Option<string>, createdAt: string)
    ensures RecordsConfiguredPayment(config, SettlementRecord(config, paymentId, payer, createdAt))
  {
    hide Lookup, AcceptedPayment, SettleResponse, DistinctKeys;
    RecordKeys(config, paymentId, payer, createdAt);
    var members := SettlementRecord(config, paymentId, payer, createdAt).members;
    LookupDistinct(members, 3);
    LookupDistinct(members, 4);
    LookupDistinct(members, 5);
  }

  predicate AllConfigured(config: Config, records: seq<Json>) {
    forall i | 0 <= i < |records| :: RecordsConfiguredPayment(config, records[i])
  }

  /** What a request appends can be printed and records the configured payment; the paid handler runs last,
      after the append of its own record and nothing else. */
  lemma {:induction false} StepsRecord(config: Config, decode: string -> Option<Payload>, req: Request)
    ensures var steps := Steps(config, decode, req);
            && AllValid(Recorded(steps)) && AllConfigured(config, Recorded(steps))
            && forall i | 0 <= i < |steps| && steps[i].Ran? ::
                 && i == 2 && |steps| == 3 && steps[0].Appended? && steps[1].HeaderSet?
                 && PaymentIdOf(steps[0].record) == Some(Str(steps[2].paymentId))
                 && Recorded(steps[..2]) == Recorded(steps) == [steps[0].record]
  {
    hide SettlementRecord, SettleResponse, AcceptedPayment, PaymentIdOf, RecordsConfiguredPayment, Valid, Recorded;
    var steps := Steps(config, decode, req);
    if !Pays(config, decode, req) {
      RecordedNothing(steps[0]);
      assert [steps[0]] == steps;
    } else {
      var p := decode(req.signature.value).value;
      RecordMatches(config, p.paymentId.value, p.payer, req.receivedAt);
      RecordIsValid(config, p.paymentId.value, p.payer, req.receivedAt);
      RecordPaymentId(config, p.paymentId.value, p.payer, req.receivedAt);
      RecordedPaid(steps[0].record, steps[1].settlement, steps[2].paymentId);
      RecordedConcat(steps[..2], steps[2..]);
      RecordedNothing(steps[2]);
      assert steps[..2] + steps[2..] == steps && steps[2..] == [steps[2]];
      assert Recorded(steps[..2]) + [] == Recorded(steps[..2]);
    }
  }

  /** Over every sequence of requests: the file decodes to exactly the records that were appended, in order,
      and each of them records the configured payment. */
  lemma {:induction false} RunDecodes(config: Config, decode: string -> Option<Payload>, reqs: seq<Request>)
    ensures var records := Recorded(Run(config, decode, reqs));
            && AllValid(records) && AllConfigured(config, records)
            && Decode(LogText(records)) == Some(records)
  {
    hide Steps, Decode, LogText, RecordsConfiguredPayment, Valid, Recorded;
    RunIsConfigured(config, decode, reqs);
    LogDecodes(Recorded(Run(config, decode, reqs)));
  }

  lemma {:induction false} RunIsConfigured(config: Config, decode: string -> Option<Payload>, reqs: seq<Request>)
    ensures var records := Recorded(Run(config, decode, reqs)); AllValid(records) && AllConfigured(config, records)
  {
    hide Steps, RecordsConfiguredPayment, Valid;
    if reqs != [] {
      hide Recorded;
      var init, last := reqs[..|reqs| - 1], reqs[|reqs| - 1];
      RunIsConfigured(config, decode, init);
      StepsRecord(config, decode, last);
      RecordedConcat(Run(config, decode, init), Steps(config, decode, last));
    }
  }

  /** In every run: the paid handler runs for a payment id only after a record of that id was appended and
      the header set, so that the id is found in the store as it then is; and from then on the id is always
      found with the same record. */
  lemma {:induction false} PaidIsRecorded(config: Config, decode: string -> Option<Payload>, reqs: seq<Request>, k: nat)
    requires k < |Run(config, decode, reqs)| && Run(config, decode, reqs)[k].Ran?
    ensures var run := Run(config, decode, reqs);
            var id := run[k].paymentId;
            && k >= 2 && run[k - 2].Appended? && run[k - 1].HeaderSet?
            && PaymentIdOf(run[k - 2].record) == Some(Str(id))
            && Find(Recorded(run[..k]), id).Some?
            && Find(Recorded(run), id) == Find(Recorded(run[..k]), id)
    decreases |reqs|
  {
    hide Steps, Find, PaymentIdOf, Recorded;
    var run := Run(config, decode, reqs);
    var before, steps := Run(config, decode, reqs[..|reqs| - 1]), Steps(config, decode, reqs[|reqs| - 1]);
    assert run == before + steps;
    RecordedConcat(before, steps);
    if k < |before| {
      PaidIsRecorded(config, decode, reqs[..|reqs| - 1], k);
      assert run[..k] == before[..k];
      FindIsStable(Recorded(before), Recorded(steps), run[k].paymentId);
    } else {
      StepsRecord(config, decode, reqs[|reqs| - 1]);
      assert run[k] == steps[k - |before|];
      assert run[..k] == before + steps[..2];
      RecordedConcat(before, steps[..2]);
      FindAppended(Recorded(before), steps[0].record, run[k].paymentId);
    }
  }

  /** A payment is accepted on its amount exactly when the amounts are equal as numbers, for canonical
      amounts and a well-formed price. */
  lemma AmountMatchIsNumeric(config: Config, price: Price.Price, amount: string)
    requires price.Valid() && config.priceUsd == price.Text() && IsCanonical(amount)
    ensures amount == AcceptedPayment(config).amount <==>
            NatOf(amount) == price.Numerator() * Pow10(Price.USDC_DECIMALS) / price.Denominator()
  {
    Price.AtomicUnitsAreFloor(price);
    Price.AmountsEqualIff(amount, AcceptedPayment(config).amount);
  }
}
