/** What it means that a read artifact is accepted: for any artifact, what it then shows; for artifacts built from
    their fields, exactly when. */
module ReadMeaning {
  import opened Text
  import opened Json
  import opened JsonLines
  import opened JsonRead
  import opened ReadArtifacts

  // --- any artifact -----------------------------------------------------------------------------------------------------

  /** A text of an amount above zero. */
  ghost predicate PositiveText(v: Option<Json>) {
    exists n: nat :: n > 0 && v == Some(Str(Digits(n)))
  }

  ghost predicate ZeroText(v: Option<Json>) {
    v == Some(Str(Digits(0)))
  }

  /** Some element of a list has this property; the list is not empty. */
  ghost predicate SomeShows(v: Option<Json>, key: string, text: string) {
    v.Some? && v.value.Arr? && exists i | 0 <= i < |v.value.items| :: At(Some(v.value.items[i]), key) == Some(Str(text))
  }

  ghost predicate SomeAbove(v: Option<Json>, key: string) {
    v.Some? && v.value.Arr? && exists i | 0 <= i < |v.value.items| :: PositiveText(At(Some(v.value.items[i]), key))
  }

  /** Covered without a deficit, or in deficit with one. */
  ghost predicate Balanced(asset: Option<Json>) {
    || (At(asset, "fundingStatus") == Some(Str("covered")) && ZeroText(At(asset, "fundingDeficitAtomic")))
    || (At(asset, "fundingStatus") == Some(Str("deficit")) && PositiveText(At(asset, "fundingDeficitAtomic")))
  }

  ghost predicate AllBalanced(v: Option<Json>) {
    && v.Some? && v.value.Arr? && v.value.items != []
    && forall i | 0 <= i < |v.value.items| :: Balanced(Some(v.value.items[i]))
  }

  /** The record that holds the obligations: the summary, or the artifact itself. */
  function Holder(v: Json): Option<Json> {
    var summary := At(Some(v), "summary");
    if summary.Some? && (summary.value.Obj? || summary.value.Arr?) then summary else Some(v)
  }

  ghost predicate Total(v: Option<Json>) {
    exists n: int :: n > 0 && At(v, "total") == Some(Int(n))
  }

  lemma AmountAbove(v: Option<Json>)
    ensures PositiveAt(v).Some? ==> PositiveText(v)
    ensures AtomicAt(v) == Some(0) ==> ZeroText(v)
  {
    hide Digits, NatOf;
    if AtomicAt(v).Some? { DigitsOfNat(v.value.s); }
  }

  lemma ObligationsAbove(asset: Option<Json>)
    ensures SomePositive(asset, OBLIGATION_KEYS) ==>
              PositiveText(At(asset, "outstandingAmountAtomic")) || PositiveText(At(asset, "totalAccruedAmountAtomic"))
    ensures SomePositive(asset, EARNING_KEYS) ==> PositiveText(At(asset, "totalEarnedAmountAtomic"))
  {
    hide At, PositiveAt, PositiveText;
    AmountAbove(At(asset, "outstandingAmountAtomic"));
    AmountAbove(At(asset, "totalAccruedAmountAtomic"));
    AmountAbove(At(asset, "totalEarnedAmountAtomic"));
  }

  lemma HolderIs(side: Side, v: Json)
    ensures SummaryOf(side, Some(v)).Some? ==> SummaryOf(side, Some(v)) == Holder(v)
  {
    hide At;
  }

  /** What an accepted artifact shows. */
  ghost predicate Shows(artifact: Artifact, v: Json) {
    match artifact
    case AgentDiscovery => SomeShows(At(Some(v), "routes"), "status", "active")
    case ReferrerBalance => SomeAbove(At(At(Some(v), "summary"), "assets"), "totalEarnedAmountAtomic")
    case DashboardSummary =>
      var summary := At(Some(v), "summary");
      Total(At(summary, "campaigns")) && Total(At(summary, "routes"))
    case WebhookDelivery => SomeShows(At(Some(v), "events"), "status", "delivered")
    case PayoutObligation =>
      || SomeAbove(At(Holder(v), "assets"), "outstandingAmountAtomic")
      || SomeAbove(At(Holder(v), "assets"), "totalAccruedAmountAtomic")
    case FundingBalance => AllBalanced(At(Holder(v), "assets"))
  }

  /** On either side, an artifact is accepted only if it shows what it is evidence of: an active route, a
      positive earning, campaigns and routes, a delivered event, an obligation, or funds that are covered
      exactly where there is no deficit. */
  lemma AcceptedShows(side: Side, artifact: Artifact, v: Json)
    requires ArtifactOk(side, artifact, v)
    ensures Shows(artifact, v)
  {
    hide At, PositiveText, SomePositive, AllAmounts, HasText, SummaryOf, Holder, DashboardSchema, ObligationSchema, Count;
    HolderIs(side, v);
    match artifact
    case AgentDiscovery =>
    case ReferrerBalance =>
      var assets := Elements(At(At(Some(v), "summary"), "assets"));
      var i :| 0 <= i < |assets| && SomePositive(Some(assets[i]), EARNING_KEYS);
      ObligationsAbove(Some(assets[i]));
    case DashboardSummary =>
      var summary := At(Some(v), "summary");
      CountIsInt(At(At(summary, "campaigns"), "total"));
      CountIsInt(At(At(summary, "routes"), "total"));
    case WebhookDelivery =>
    case PayoutObligation =>
      NothingIsOk();
      var assets := Elements(At(Holder(v), "assets"));
      var i :| 0 <= i < |assets| && SomePositive(Some(assets[i]), OBLIGATION_KEYS);
      ObligationsAbove(Some(assets[i]));
    case FundingBalance =>
      NothingIsOk();
      var assets := Elements(At(Holder(v), "assets"));
      forall i | 0 <= i < |assets| ensures Balanced(Some(assets[i])) { FundingIsBalanced(Some(assets[i])); }
  }

  lemma CountIsInt(v: Option<Json>)
    ensures Count(v).Some? ==> v == Some(Int(Count(v).value))
  {
  }

  lemma FundingIsBalanced(asset: Option<Json>)
    requires FundingAssetOk(asset)
    ensures Balanced(asset)
  {
    hide At, PositiveText;
    AmountAbove(At(asset, "fundingDeficitAtomic"));
  }

  // --- artifacts built from their fields ----------------------------------------------------------------------------------

  /** A text that a side takes for one: the checker any but the empty one, the collector one that is not all
      white space. */
  ghost predicate Filled(side: Side, v: Json) {
    v.Str? && (if side.Checker? then v.s != "" else exists i | 0 <= i < |v.s| :: !IsSpace(v.s[i]))
  }

  lemma FilledIff(side: Side, v: Json)
    ensures HasText(side, Some(v)) <==> Filled(side, v)
  {
    if v.Str? { TrimIsTrimmed(v.s); }
  }

  /** A route with any values under its keys. */
  datatype Route = Route(id: Json, routeId: Json, campaignId: Json, referrerWallet: Json, payoutWallet: Json, status: Json) {
    function Members(): seq<Member> {
      [Member("id", id), Member("routeId", routeId), Member("campaignId", campaignId),
       Member("referrerWallet", referrerWallet), Member("payoutWallet", payoutWallet), Member("status", status)]
    }

    ghost predicate Complete(side: Side) {
      && (Filled(side, id) || Filled(side, routeId))
      && Filled(side, campaignId) && Filled(side, referrerWallet) && Filled(side, payoutWallet)
    }
  }

  lemma RouteAt(r: Route)
    ensures var v := Some(Obj(r.Members()));
            && At(v, "id") == Some(r.id) && At(v, "routeId") == Some(r.routeId) && At(v, "campaignId") == Some(r.campaignId)
            && At(v, "referrerWallet") == Some(r.referrerWallet) && At(v, "payoutWallet") == Some(r.payoutWallet)
            && At(v, "status") == Some(r.status)
  {
    hide Lookup;
    var members := r.Members();
    ByShape(members, [(2, 'i'), (7, 'r'), (10, 'c'), (14, 'r'), (12, 'p'), (6, 's')]);
    LookupDistinct(members, 0);
    LookupDistinct(members, 1);
    LookupDistinct(members, 2);
    LookupDistinct(members, 3);
    LookupDistinct(members, 4);
    LookupDistinct(members, 5);
  }

  lemma RouteIff(side: Side, r: Route)
    ensures RouteOk(side, Some(Obj(r.Members()))) <==> r.Complete(side)
    ensures At(Some(Obj(r.Members())), "status") == Some(r.status)
  {
    hide At, HasText, Filled;
    RouteAt(r);
    FilledIff(side, r.id);
    FilledIff(side, r.routeId);
    FilledIff(side, r.campaignId);
    FilledIff(side, r.referrerWallet);
    FilledIff(side, r.payoutWallet);
  }

  /** The one member of an object. */
  lemma OneAt(key: string, v: Json)
    ensures At(Some(Obj([Member(key, v)])), key) == Some(v)
  {
    hide Lookup;
    LookupLast([Member(key, v)], 0);
  }

  function Discovery(routes: seq<Route>): Json {
    Obj([Member("routes", Arr(seq(|routes|, i requires 0 <= i < |routes| => Obj(routes[i].Members()))))])
  }

  /** A discovery artifact with these routes is accepted if and only if each has one of its ids, its campaign and
      its two wallets, and some route is active. */
  lemma DiscoveryIff(side: Side, routes: seq<Route>)
    ensures ArtifactOk(side, AgentDiscovery, Discovery(routes)) <==>
              && (forall i | 0 <= i < |routes| :: routes[i].Complete(side))
              && (exists i | 0 <= i < |routes| :: routes[i].status == Str("active"))
  {
    hide At, RouteOk, Route.Complete, Route.Members;
    var v := Discovery(routes);
    OneAt("routes", v.members[0].value);
    var items := Elements(At(Some(v), "routes"));
    forall i | 0 <= i < |routes|
      ensures items[i] == Obj(routes[i].Members())
      ensures RouteOk(side, Some(items[i])) <==> routes[i].Complete(side)
      ensures At(Some(items[i]), "status") == Some(routes[i].status)
    {
      RouteIff(side, routes[i]);
    }
    if exists i | 0 <= i < |routes| :: routes[i].status == Str("active") {
      var i :| 0 <= i < |routes| && routes[i].status == Str("active");
      assert At(Some(items[i]), "status") == Some(Str("active"));
    }
  }

  /** An event with any values under its keys. */
  datatype Event = Event(eventType: Json, status: Json) {
    function Members(): seq<Member> {
      [Member("eventType", eventType), Member("status", status)]
    }
  }

  lemma EventAt(e: Event)
    ensures var v := Some(Obj(e.Members())); At(v, "eventType") == Some(e.eventType) && At(v, "status") == Some(e.status)
  {
    hide Lookup;
    TwoAt("eventType", e.eventType, "status", e.status);
  }

  function Delivery(events: seq<Event>): Json {
    Obj([Member("events", Arr(seq(|events|, i requires 0 <= i < |events| => Obj(events[i].Members()))))])
  }

  /** A delivery artifact with these events is accepted if and only if each has its type and status, and some
      event was delivered. */
  lemma DeliveryIff(side: Side, events: seq<Event>)
    ensures ArtifactOk(side, WebhookDelivery, Delivery(events)) <==>
              && (forall i | 0 <= i < |events| :: Filled(side, events[i].eventType) && Filled(side, events[i].status))
              && (exists i | 0 <= i < |events| :: events[i].status == Str("delivered"))
  {
    hide At, HasText, Filled, Event.Members;
    var v := Delivery(events);
    OneAt("events", v.members[0].value);
    var items := Elements(At(Some(v), "events"));
    forall i | 0 <= i < |events|
      ensures EventOk(side, Some(items[i])) <==> Filled(side, events[i].eventType) && Filled(side, events[i].status)
      ensures At(Some(items[i]), "status") == Some(events[i].status)
    {
      assert items[i] == Obj(events[i].Members());
      EventAt(events[i]);
      FilledIff(side, events[i].eventType);
      FilledIff(side, events[i].status);
    }
    if exists i | 0 <= i < |events| :: events[i].status == Str("delivered") {
      var i :| 0 <= i < |events| && events[i].status == Str("delivered");
      assert At(Some(items[i]), "status") == Some(Str("delivered"));
    }
  }

  /** The earnings in one asset, with any values under their keys. */
  datatype Earning = Earning(asset: Json, pending: Json, available: Json, held: Json, inFlight: Json, paid: Json, totalEarned: Json) {
    function Members(): seq<Member> {
      [Member("asset", asset), Member("pendingAmountAtomic", pending), Member("availableAmountAtomic", available),
       Member("heldAmountAtomic", held), Member("inFlightAmountAtomic", inFlight), Member("paidAmountAtomic", paid),
       Member("totalEarnedAmountAtomic", totalEarned)]
    }

    ghost predicate Complete(side: Side) {
      && Filled(side, asset) && IsAmount(pending) && IsAmount(available) && IsAmount(held) && IsAmount(inFlight)
      && IsAmount(paid) && IsAmount(totalEarned)
    }
  }

  lemma EarningKeys(e: Earning)
    ensures DistinctKeys(e.Members())
  {
    ByShape(e.Members(), [(5, 'a'), (19, 'p'), (21, 'a'), (16, 'h'), (20, 'i'), (16, 'p'), (23, 't')]);
  }

  lemma EarningAt(e: Earning)
    ensures var v := Some(Obj(e.Members()));
            && At(v, "asset") == Some(e.asset) && At(v, "pendingAmountAtomic") == Some(e.pending)
            && At(v, "availableAmountAtomic") == Some(e.available) && At(v, "heldAmountAtomic") == Some(e.held)
            && At(v, "inFlightAmountAtomic") == Some(e.inFlight) && At(v, "paidAmountAtomic") == Some(e.paid)
            && At(v, "totalEarnedAmountAtomic") == Some(e.totalEarned)
  {
    hide Lookup, DistinctKeys;
    var members := e.Members();
    EarningKeys(e);
    LookupDistinct(members, 0);
    LookupDistinct(members, 1);
    LookupDistinct(members, 2);
    LookupDistinct(members, 3);
    LookupDistinct(members, 4);
    LookupDistinct(members, 5);
    LookupDistinct(members, 6);
  }

  /** All amounts of a record, by position. */
  lemma AmountsByIndex(record: Option<Json>, keys: seq<string>)
    ensures AllAmounts(record, keys) <==> forall j | 0 <= j < |keys| :: AtomicAt(At(record, keys[j])).Some?
    ensures SomePositive(record, keys) <==> exists j | 0 <= j < |keys| :: PositiveAt(At(record, keys[j])).Some?
  {
    hide At, AtomicAt, PositiveAt;
  }

  /** The amounts of a balance, key by key. */
  lemma BalanceAmounts(record: Option<Json>)
    ensures AllAmounts(record, BALANCE_KEYS) <==>
              && AtomicAt(At(record, "pendingAmountAtomic")).Some? && AtomicAt(At(record, "availableAmountAtomic")).Some?
              && AtomicAt(At(record, "heldAmountAtomic")).Some? && AtomicAt(At(record, "inFlightAmountAtomic")).Some?
              && AtomicAt(At(record, "paidAmountAtomic")).Some? && AtomicAt(At(record, "totalEarnedAmountAtomic")).Some?
    ensures SomePositive(record, EARNING_KEYS) <==> PositiveAt(At(record, "totalEarnedAmountAtomic")).Some?
  {
    hide At, AtomicAt, PositiveAt, AllAmounts, SomePositive;
    var keys := BALANCE_KEYS;
    assert |keys| == 6;
    assert keys[0] == "pendingAmountAtomic";
    assert keys[1] == "availableAmountAtomic";
    assert keys[2] == "heldAmountAtomic";
    assert keys[3] == "inFlightAmountAtomic";
    assert keys[4] == "paidAmountAtomic";
    assert keys[5] == "totalEarnedAmountAtomic";
    AmountsByIndex(record, keys);
    AmountsByIndex(record, EARNING_KEYS);
    assert EARNING_KEYS[0] == "totalEarnedAmountAtomic";
  }

  lemma EarningIff(side: Side, e: Earning)
    ensures var v := Some(Obj(e.Members()));
            && (HasText(side, At(v, "asset")) && AllAmounts(v, BALANCE_KEYS) <==> e.Complete(side))
            && (SomePositive(v, EARNING_KEYS) <==> IsAbove(e.totalEarned))
  {
    hide At, HasText, Filled, AllAmounts, SomePositive, AtomicAt, PositiveAt, IsAmount, IsAbove, Earning.Members;
    EarningAt(e);
    BalanceAmounts(Some(Obj(e.Members())));
    FilledIff(side, e.asset);
    AmountIff(e.pending);
    AmountIff(e.available);
    AmountIff(e.held);
    AmountIff(e.inFlight);
    AmountIff(e.paid);
    AmountIff(e.totalEarned);
  }

  /** Two members with keys of different lengths or first letters. */
  lemma TwoAt(k: string, x: Json, l: string, y: Json)
    requires k != "" && l != "" && (|k| != |l| || k[0] != l[0])
    ensures var v := Some(Obj([Member(k, x), Member(l, y)])); At(v, k) == Some(x) && At(v, l) == Some(y)
  {
    hide Lookup;
    var members := [Member(k, x), Member(l, y)];
    LookupLast(members, 0);
    LookupLast(members, 1);
  }

  function Balance(referrerWallet: Json, assets: seq<Earning>): Json {
    var list := Arr(seq(|assets|, i requires 0 <= i < |assets| => Obj(assets[i].Members())));
    Obj([Member("summary", Obj([Member("referrerWallet", referrerWallet), Member("assets", list)]))])
  }

  /** A balance of these assets is accepted if and only if the referrer and each asset are named, all amounts are
      amounts, and something was earned. */
  lemma BalanceIff(side: Side, referrerWallet: Json, assets: seq<Earning>)
    ensures ArtifactOk(side, ReferrerBalance, Balance(referrerWallet, assets)) <==>
              && Filled(side, referrerWallet)
              && (forall i | 0 <= i < |assets| :: assets[i].Complete(side))
              && (exists i | 0 <= i < |assets| :: IsAbove(assets[i].totalEarned))
  {
    hide At, HasText, Filled, AllAmounts, SomePositive, Earning.Complete, Earning.Members, IsAbove;
    var v := Balance(referrerWallet, assets);
    var summary := v.members[0].value;
    OneAt("summary", summary);
    TwoAt("referrerWallet", referrerWallet, "assets", summary.members[1].value);
    FilledIff(side, referrerWallet);
    var items := Elements(At(Some(summary), "assets"));
    forall i | 0 <= i < |assets|
      ensures IsRecord(Some(items[i])) && (HasText(side, At(Some(items[i]), "asset")) && AllAmounts(Some(items[i]), BALANCE_KEYS) <==> assets[i].Complete(side))
      ensures SomePositive(Some(items[i]), EARNING_KEYS) <==> IsAbove(assets[i].totalEarned)
    {
      assert items[i] == Obj(assets[i].Members());
      EarningIff(side, assets[i]);
    }
  }

  /** The obligation in one asset, with any values under its keys. */
  datatype Obligation =
    Obligation(outstanding: Json, totalAccrued: Json, pending: Json, available: Json, held: Json, inFlight: Json, paid: Json) {
    function Members(): seq<Member> {
      [Member("outstandingAmountAtomic", outstanding), Member("totalAccruedAmountAtomic", totalAccrued),
       Member("pendingAmountAtomic", pending), Member("availableAmountAtomic", available), Member("heldAmountAtomic", held),
       Member("inFlightAmountAtomic", inFlight), Member("paidAmountAtomic", paid)]
    }

    ghost predicate Complete() {
      && IsAmount(outstanding) && IsAmount(totalAccrued) && IsAmount(pending) && IsAmount(available) && IsAmount(held)
      && IsAmount(inFlight) && IsAmount(paid)
    }

    ghost predicate Open() {
      IsAbove(outstanding) || IsAbove(totalAccrued)
    }
  }

  lemma ObligationKeys(o: Obligation)
    ensures DistinctKeys(o.Members())
  {
    ByShape(o.Members(), [(23, 'o'), (24, 't'), (19, 'p'), (21, 'a'), (16, 'h'), (20, 'i'), (16, 'p')]);
  }

  lemma ObligationAt(o: Obligation)
    ensures var v := Some(Obj(o.Members()));
            && At(v, "outstandingAmountAtomic") == Some(o.outstanding) && At(v, "totalAccruedAmountAtomic") == Some(o.totalAccrued)
            && At(v, "pendingAmountAtomic") == Some(o.pending) && At(v, "availableAmountAtomic") == Some(o.available)
            && At(v, "heldAmountAtomic") == Some(o.held) && At(v, "inFlightAmountAtomic") == Some(o.inFlight)
            && At(v, "paidAmountAtomic") == Some(o.paid)
  {
    hide Lookup, DistinctKeys;
    var members := o.Members();
    ObligationKeys(o);
    LookupDistinct(members, 0);
    LookupDistinct(members, 1);
    LookupDistinct(members, 2);
    LookupDistinct(members, 3);
    LookupDistinct(members, 4);
    LookupDistinct(members, 5);
    LookupDistinct(members, 6);
  }

  /** The amounts of an obligation, key by key. */
  lemma PayoutAmounts(record: Option<Json>)
    ensures AllAmounts(record, PAYOUT_KEYS) <==>
              && AtomicAt(At(record, "outstandingAmountAtomic")).Some? && AtomicAt(At(record, "totalAccruedAmountAtomic")).Some?
              && AtomicAt(At(record, "pendingAmountAtomic")).Some? && AtomicAt(At(record, "availableAmountAtomic")).Some?
              && AtomicAt(At(record, "heldAmountAtomic")).Some? && AtomicAt(At(record, "inFlightAmountAtomic")).Some?
              && AtomicAt(At(record, "paidAmountAtomic")).Some?
    ensures SomePositive(record, OBLIGATION_KEYS) <==>
              PositiveAt(At(record, "outstandingAmountAtomic")).Some? || PositiveAt(At(record, "totalAccruedAmountAtomic")).Some?
  {
    hide At, AtomicAt, PositiveAt, AllAmounts, SomePositive;
    var keys := PAYOUT_KEYS;
    assert |keys| == 7;
    assert keys[0] == "outstandingAmountAtomic";
    assert keys[1] == "totalAccruedAmountAtomic";
    assert keys[2] == "pendingAmountAtomic";
    assert keys[3] == "availableAmountAtomic";
    assert keys[4] == "heldAmountAtomic";
    assert keys[5] == "inFlightAmountAtomic";
    assert keys[6] == "paidAmountAtomic";
    AmountsByIndex(record, keys);
    AmountsByIndex(record, OBLIGATION_KEYS);
    assert OBLIGATION_KEYS[0] == "outstandingAmountAtomic" && OBLIGATION_KEYS[1] == "totalAccruedAmountAtomic";
  }

  lemma ObligationIff(o: Obligation)
    ensures AllAmounts(Some(Obj(o.Members())), PAYOUT_KEYS) <==> o.Complete()
    ensures SomePositive(Some(Obj(o.Members())), OBLIGATION_KEYS) <==> o.Open()
  {
    hide At, AllAmounts, SomePositive, AtomicAt, PositiveAt, IsAmount, IsAbove, Obligation.Members;
    ObligationAt(o);
    PayoutAmounts(Some(Obj(o.Members())));
    AmountIff(o.outstanding);
    AmountIff(o.totalAccrued);
    AmountIff(o.pending);
    AmountIff(o.available);
    AmountIff(o.held);
    AmountIff(o.inFlight);
    AmountIff(o.paid);
  }

  lemma Schemas()
    ensures ObligationSchema() == "split402.merchant_obligation_summary.v1"
    ensures DashboardSchema() == "split402.merchant_dashboard_summary.v1"
  {
  }

  /** An obligation summary, alone or under `summary`. */
  function Summary(nested: bool, schema: Json, assets: seq<Json>): Json {
    var summary := Obj([Member("schema", schema), Member("assets", Arr(assets))]);
    if nested then Obj([Member("summary", summary)]) else summary
  }

  lemma SummaryIs(side: Side, nested: bool, schema: Json, assets: seq<Json>)
    ensures var summary := SummaryOf(side, Some(Summary(nested, schema, assets)));
            && At(summary, "schema") == Some(schema) && At(summary, "assets") == Some(Arr(assets))
  {
    hide Lookup;
    var summary := Summary(false, schema, assets);
    TwoAt("schema", schema, "assets", Arr(assets));
    LookupAbsent(summary.members, "summary");
    OneAt("summary", summary);
  }

  /** A payout artifact with this schema and these assets is accepted if and only if the schema is the obligation
      summary's, all amounts are amounts, and something is outstanding or was accrued. */
  lemma PayoutIff(side: Side, nested: bool, schema: Json, assets: seq<Obligation>)
    ensures var v := Summary(nested, schema, seq(|assets|, i requires 0 <= i < |assets| => Obj(assets[i].Members())));
            ArtifactOk(side, PayoutObligation, v) <==>
              && schema == Str("split402.merchant_obligation_summary.v1")
              && (forall i | 0 <= i < |assets| :: assets[i].Complete())
              && (exists i | 0 <= i < |assets| :: assets[i].Open())
  {
    hide ObligationSchema, At, SummaryOf, AllAmounts, SomePositive, Obligation.Complete, Obligation.Members, Obligation.Open;
    var list := seq(|assets|, i requires 0 <= i < |assets| => Obj(assets[i].Members()));
    SummaryIs(side, nested, schema, list);
    Schemas();
    forall i | 0 <= i < |assets|
      ensures AllAmounts(Some(list[i]), PAYOUT_KEYS) <==> assets[i].Complete()
      ensures SomePositive(Some(list[i]), OBLIGATION_KEYS) <==> assets[i].Open()
    {
      ObligationIff(assets[i]);
    }
  }

  /** The funding of one asset, with any values under its keys. */
  datatype Funding = Funding(status: Json, amount: Json, deficit: Json) {
    function Members(): seq<Member> {
      [Member("fundingStatus", status), Member("fundingAmountAtomic", amount), Member("fundingDeficitAtomic", deficit)]
    }

    ghost predicate InOrder() {
      && IsAmount(amount)
      && ((status == Str("covered") && deficit == Str(Digits(0))) || (status == Str("deficit") && IsAbove(deficit)))
    }
  }

  lemma FundingAt(f: Funding)
    ensures var v := Some(Obj(f.Members()));
            && At(v, "fundingStatus") == Some(f.status) && At(v, "fundingAmountAtomic") == Some(f.amount)
            && At(v, "fundingDeficitAtomic") == Some(f.deficit)
  {
    hide Lookup;
    ByShape(f.Members(), [(13, 'f'), (19, 'f'), (20, 'f')]);
    LookupDistinct(f.Members(), 0);
    LookupDistinct(f.Members(), 1);
    LookupDistinct(f.Members(), 2);
  }

  lemma FundingIff(f: Funding)
    ensures FundingAssetOk(Some(Obj(f.Members()))) <==> f.InOrder()
  {
    hide At, AtomicAt, IsAmount, IsAbove, Digits;
    FundingAt(f);
    AmountIff(f.amount);
    AmountIff(f.deficit);
    assert "covered"[0] != "deficit"[0];
  }

  /** A funding artifact with this schema and these assets is accepted if and only if the schema is the obligation
      summary's, there is an asset, and each has an amount and is covered with no deficit or in deficit with one. */
  lemma FundingArtifactIff(side: Side, nested: bool, schema: Json, assets: seq<Funding>)
    ensures var v := Summary(nested, schema, seq(|assets|, i requires 0 <= i < |assets| => Obj(assets[i].Members())));
            ArtifactOk(side, FundingBalance, v) <==>
              && schema == Str("split402.merchant_obligation_summary.v1")
              && assets != []
              && (forall i | 0 <= i < |assets| :: assets[i].InOrder())
  {
    hide ObligationSchema, At, SummaryOf, FundingAssetOk, Funding.InOrder, Funding.Members;
    var list := seq(|assets|, i requires 0 <= i < |assets| => Obj(assets[i].Members()));
    SummaryIs(side, nested, schema, list);
    Schemas();
    forall i | 0 <= i < |assets| ensures FundingAssetOk(Some(list[i])) <==> assets[i].InOrder() { FundingIff(assets[i]); }
  }

  /** A dashboard with any values under its keys. */
  datatype Dashboard = Dashboard(schema: Json, merchant: Json, campaignTotal: Json, campaignIds: Json, routeTotal: Json, routeIds: Json) {
    function Campaigns(): Json {
      Obj([Member("total", campaignTotal), Member("activeCampaignIds", campaignIds)])
    }

    function Routes(): Json {
      Obj([Member("total", routeTotal), Member("activeRouteIds", routeIds)])
    }

    function Members(): seq<Member> {
      [Member("schema", schema), Member("merchant", merchant), Member("campaigns", Campaigns()), Member("routes", Routes())]
    }
  }

  lemma DashboardAt(d: Dashboard)
    ensures var v := Some(Obj(d.Members()));
            && At(v, "schema") == Some(d.schema) && At(v, "merchant") == Some(d.merchant)
            && At(v, "campaigns") == Some(d.Campaigns()) && At(v, "routes") == Some(d.Routes())
  {
    hide Lookup;
    ByShape(d.Members(), [(6, 's'), (8, 'm'), (9, 'c'), (6, 'r')]);
    LookupDistinct(d.Members(), 0);
    LookupDistinct(d.Members(), 1);
    LookupDistinct(d.Members(), 2);
    LookupDistinct(d.Members(), 3);
  }

  /** A dashboard artifact is accepted if and only if the schema is the dashboard summary's, the merchant is a
      record, both totals are positive integers and both lists of active ids have an element. */
  lemma DashboardIff(side: Side, d: Dashboard)
    ensures ArtifactOk(side, DashboardSummary, Obj([Member("summary", Obj(d.Members()))])) <==>
              && d.schema == Str("split402.merchant_dashboard_summary.v1")
              && (d.merchant.Obj? || d.merchant.Arr?)
              && d.campaignTotal.Int? && d.campaignTotal.n > 0 && d.routeTotal.Int? && d.routeTotal.n > 0
              && d.campaignIds.Arr? && d.campaignIds.items != [] && d.routeIds.Arr? && d.routeIds.items != []
  {
    hide DashboardSchema, At, Dashboard.Members;
    OneAt("summary", Obj(d.Members()));
    DashboardAt(d);
    TwoAt("total", d.campaignTotal, "activeCampaignIds", d.campaignIds);
    TwoAt("total", d.routeTotal, "activeRouteIds", d.routeIds);
    Schemas();
  }
}
