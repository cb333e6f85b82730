/** The messages of the MCP gateway, the values both sides read in them, and the transcript they form. */
module GatewayMessages {
  import opened Text
  import opened Json
  import opened JsonRead

  datatype Mode = DemoMock | LiveSdk

  function ModeText(m: Mode): string {
    match m
    case DemoMock => "router-demo-mock"
    case LiveSdk => "router-live-agent-sdk"
  }

  /** `readExecutionMode`. */
  function ModeAt(v: Option<Json>): Option<Mode> {
    if v == Some(Str(ModeText(DemoMock))) then Some(DemoMock)
    else if v == Some(Str(ModeText(LiveSdk))) then Some(LiveSdk)
    else None
  }

  lemma ModeIsText(v: Option<Json>, m: Mode)
    ensures ModeAt(v) == Some(m) <==> v == Some(Str(ModeText(m)))
  {
    assert |ModeText(DemoMock)| == 16 && |ModeText(LiveSdk)| == 21;
  }

  // --- provider summaries -------------------------------------------------------------------------------------

  datatype Field =
    | ProviderId | Network | Asset | MerchantOrigin | OperationId | CampaignId
    | Amount | PayToWallet | RouteId | ReferrerWallet | PayoutWallet | Source

  const FIELDS: seq<Field> :=
    [ProviderId, Network, Asset, MerchantOrigin, OperationId, CampaignId,
     Amount, PayToWallet, RouteId, ReferrerWallet, PayoutWallet, Source]

  lemma FieldsAreAll()
    ensures forall f: Field :: f in FIELDS
  {
    forall f: Field ensures f in FIELDS {
      match f
      case ProviderId => assert FIELDS[0] == f;
      case Network => assert FIELDS[1] == f;
      case Asset => assert FIELDS[2] == f;
      case MerchantOrigin => assert FIELDS[3] == f;
      case OperationId => assert FIELDS[4] == f;
      case CampaignId => assert FIELDS[5] == f;
      case Amount => assert FIELDS[6] == f;
      case PayToWallet => assert FIELDS[7] == f;
      case RouteId => assert FIELDS[8] == f;
      case ReferrerWallet => assert FIELDS[9] == f;
      case PayoutWallet => assert FIELDS[10] == f;
      case Source => assert FIELDS[11] == f;
    }
  }

  function KeyOf(f: Field): string {
    match f
    case ProviderId => "providerId"
    case Network => "network"
    case Asset => "asset"
    case MerchantOrigin => "merchantOrigin"
    case OperationId => "operationId"
    case CampaignId => "campaignId"
    case Amount => "amountAtomic"
    case PayToWallet => "payToWallet"
    case RouteId => "routeId"
    case ReferrerWallet => "referrerWallet"
    case PayoutWallet => "payoutWallet"
    case Source => "source"
  }

  /** `readProviderSource`. */
  function SourceAt(v: Option<Json>): Option<string> {
    var s := NonEmpty(v);
    if s in {Some("static"), Some("control_plane"), Some("external_x402")} then s else None
  }

  /** A field of a provider record. */
  function FieldAt(v: Option<Json>, f: Field): (r: Option<string>)
    ensures r.Some? ==> At(v, KeyOf(f)) == Some(Str(r.value)) && r.value != ""
  {
    if f == Source then SourceAt(At(v, KeyOf(f))) else NonEmpty(At(v, KeyOf(f)))
  }

  /** A provider summary has every field. */
  type Provider = m: map<Field, string> | forall f: Field :: f in m
    witness map f: Field :: ""

  /** `readProviderSummary`. */
  function ReadProvider(v: Option<Json>): (r: Option<Provider>)
    ensures r.Some? <==> forall f: Field :: FieldAt(v, f).Some?
    ensures r.Some? ==> forall f: Field :: FieldAt(v, f) == Some(r.value[f])
  {
    if forall f: Field :: FieldAt(v, f).Some? then Some(map f: Field :: FieldAt(v, f).value) else None
  }

  /** A text that is not empty. */
  predicate IsText(v: Option<Json>) {
    v.Some? && v.value.Str? && v.value.s != ""
  }

  const TEXT_KEYS: seq<string> :=
    ["providerId", "network", "asset", "merchantOrigin", "operationId", "campaignId", "amountAtomic", "payToWallet",
     "routeId", "referrerWallet", "payoutWallet"]

  lemma TextKeys()
    ensures forall i | 0 <= i < |TEXT_KEYS| :: FIELDS[i] != Source && KeyOf(FIELDS[i]) == TEXT_KEYS[i]
    ensures |TEXT_KEYS| == 11 && |FIELDS| == 12 && FIELDS[11] == Source && KeyOf(Source) == "source"
  {
  }

  lemma SourceIs(v: Option<Json>)
    ensures SourceAt(v).Some? <==> v in {Some(Str("static")), Some(Str("control_plane")), Some(Str("external_x402"))}
  {
  }

  /** A record is a provider summary exactly when eleven keys hold texts and its source is one of three; and
      the summary holds these texts. */
  lemma ProviderIff(v: Option<Json>)
    ensures ReadProvider(v).Some? <==>
            && (forall i | 0 <= i < |TEXT_KEYS| :: IsText(At(v, TEXT_KEYS[i])))
            && At(v, "source") in {Some(Str("static")), Some(Str("control_plane")), Some(Str("external_x402"))}
    ensures ReadProvider(v).Some? ==>
              && (forall i | 0 <= i < |TEXT_KEYS| :: At(v, TEXT_KEYS[i]) == Some(Str(ReadProvider(v).value[FIELDS[i]])))
              && At(v, "source") == Some(Str(ReadProvider(v).value[Source]))
  {
    hide At, KeyOf, ReadProvider, SourceAt, TEXT_KEYS, FIELDS;
    TextKeys();
    SourceIs(At(v, "source"));
    FieldsAreAll();
    forall i | 0 <= i < |TEXT_KEYS| ensures FieldAt(v, FIELDS[i]).Some? <==> IsText(At(v, TEXT_KEYS[i])) {
    }
    assert FieldAt(v, Source) == SourceAt(At(v, "source"));
    if (forall i | 0 <= i < |TEXT_KEYS| :: IsText(At(v, TEXT_KEYS[i]))) && SourceAt(At(v, "source")).Some? {
      forall f: Field ensures FieldAt(v, f).Some? {
        assert f in FIELDS;
        var i :| 0 <= i < |FIELDS| && FIELDS[i] == f;
      }
    }
  }

  // --- messages and the transcript ----------------------------------------------------------------------------

  datatype Line = Request(message: Json) | Response(message: Json)

  /** The JSON of a transcript line. */
  function LineJson(line: Line): Json {
    Obj([Member("direction", Str(if line.Request? then "request" else "response")), Member("message", line.message)])
  }

  /** `isMcpGatewayTranscriptLine`, with the line it stands for. */
  function LineOf(v: Json): Option<Line> {
    var direction := At(Some(v), "direction");
    var message := At(Some(v), "message");
    if !IsRecord(message) then None
    else if direction == Some(Str("request")) then Some(Request(message.value))
    else if direction == Some(Str("response")) then Some(Response(message.value))
    else None
  }

  lemma LineOfJson(line: Line)
    requires IsRecord(Some(line.message))
    ensures LineOf(LineJson(line)) == Some(line)
  {
    var members := LineJson(line).members;
    assert members[..1] == [members[0]] && members[..1][..0] == [];
    assert Lookup(members, "message") == Some(line.message);
    assert Lookup(members, "direction") == Lookup(members[..1], "direction");
  }

  datatype Step = Initialize | ListTools | Search | Quote | Execute | GetReceipt

  function IdOf(step: Step): string {
    match step
    case Initialize => "initialize"
    case ListTools => "tools"
    case Search => "search"
    case Quote => "quote"
    case Execute => "execute"
    case GetReceipt => "receipt"
  }

  lemma IdsDiffer(s: Step, t: Step)
    ensures IdOf(s) == IdOf(t) <==> s == t
  {
    assert "tools"[0] != "quote"[0] && "execute"[0] != "receipt"[0];
  }

  predicate IsToolCall(step: Step) {
    !step.Initialize? && !step.ListTools?
  }

  /** The tool names of the four tool calls. */
  function ToolName(step: Step): string
    requires IsToolCall(step)
  {
    "split402." + match step
                  case Search => "searchCapabilities"
                  case Quote => "quote"
                  case Execute => "execute"
                  case _ => "getReceipt"
  }

  const TOOL_CALLS: seq<Step> := [Search, Quote, Execute, GetReceipt]

  lemma ToolNamesDiffer(s: Step, t: Step)
    requires IsToolCall(s) && IsToolCall(t)
    ensures ToolName(s) == ToolName(t) <==> s == t
  {
    assert |ToolName(Search)| == 27 && |ToolName(Quote)| == 14 && |ToolName(Execute)| == 16 && |ToolName(GetReceipt)| == 19;
  }

  function MethodOf(step: Step): string {
    match step
    case Initialize => "initialize"
    case ListTools => "tools/list"
    case _ => "tools/call"
  }

  /** `readStructuredContent`, before its record test. */
  function Content(message: Option<Json>): Option<Json> {
    At(At(message, "result"), "structuredContent")
  }

  /** The first capability with this provider id. */
  function FirstById(capabilities: seq<Json>, providerId: string): Option<Json> {
    if capabilities == [] then None
    else if At(Some(capabilities[0]), "providerId") == Some(Str(providerId)) then Some(capabilities[0])
    else FirstById(capabilities[1..], providerId)
  }

  /** `message.error === undefined`. */
  predicate NoError(message: Json) {
    At(Some(message), "error").None?
  }

  // --- problems -------------------------------------------------------------------------------------------------

  datatype Subject =
    | Answer(step: Step) | Arguments(step: Step) | QuoteProvider | ExecuteProvider | SelectedProvider
    | RankedProvider | Receipt | Collector | Transcript | Discovery

  /** What collector and checker report. */
  datatype Blocker =
    | NoRequest(step: Step)
    | NoResponse(step: Step)
    | CallFailed(step: Step)
    | NotCaptured(step: Step)
    | NoTool(step: Step)
    | Missing(subject: Subject, key: string)
    | Rejected(subject: Subject, key: string)
    | Unequal(left: Subject, key: string, right: Subject)
    | BadRow(index: nat)
}
