/**
 * fluent_control_automation.py: the labware and transfer records, the
 * instrument client (base URL, authentication, request shaping, the
 * pass/fail rule for responses, endpoint paths and the two POST payloads),
 * the standard layout and transfer-parameter builders, and the workflow of
 * `main` with its bounded status-polling loop.
 *
 * The network is a parameter: `send` is the instrument's answer to one
 * request, and `net(n)` is how the instrument answers the n-th request of a
 * workflow. The clock is a parameter too: `clock(n)` is the n-th reading of
 * `time.time()`.
 */
module FluentAutomation {
  import opened Prelude
  import opened Text
  import opened JsonModel

  // ================================================================ enumerations

  datatype LabwareType =
    | Microplate96 | Microplate384 | TubeRack24 | TubeRack48 | TubeRack96
    | Reservoir | TipRack96 | TipRack384 | AdapterPlate | Custom

  /** The declared value of each `LabwareType` member. */
  function LabwareTypeLabel(t: LabwareType): string {
    match t
    case Microplate96 => "96-well microplate"
    case Microplate384 => "384-well microplate"
    case TubeRack24 => "24-tube rack"
    case TubeRack48 => "48-tube rack"
    case TubeRack96 => "96-tube rack"
    case Reservoir => "reservoir"
    case TipRack96 => "96-tip rack"
    case TipRack384 => "384-tip rack"
    case AdapterPlate => "adapter plate"
    case Custom => "custom"
  }

  /** Lookup of a member by its value (`LabwareType(label)`); `None` where Python raises. */
  function LabwareTypeFromLabel(s: string): (r: Option<LabwareType>)
    ensures r.Some? ==> LabwareTypeLabel(r.value) == s
  {
    if s == "96-well microplate" then Some(Microplate96)
    else if s == "384-well microplate" then Some(Microplate384)
    else if s == "24-tube rack" then Some(TubeRack24)
    else if s == "48-tube rack" then Some(TubeRack48)
    else if s == "96-tube rack" then Some(TubeRack96)
    else if s == "reservoir" then Some(Reservoir)
    else if s == "96-tip rack" then Some(TipRack96)
    else if s == "384-tip rack" then Some(TipRack384)
    else if s == "adapter plate" then Some(AdapterPlate)
    else if s == "custom" then Some(Custom)
    else None
  }

  lemma LabwareTypeLabelRoundTrip(t: LabwareType)
    ensures LabwareTypeFromLabel(LabwareTypeLabel(t)) == Some(t)
  {
  }

  lemma LabwareTypeLabelsDistinct(a: LabwareType, b: LabwareType)
    ensures LabwareTypeLabel(a) == LabwareTypeLabel(b) ==> a == b
  {
    LabwareTypeLabelRoundTrip(a);
    LabwareTypeLabelRoundTrip(b);
  }

  datatype PositionStatus = Empty | Occupied | Reserved | Error

  /** The declared value of each `PositionStatus` member. */
  function PositionStatusLabel(s: PositionStatus): string {
    match s
    case Empty => "empty"
    case Occupied => "occupied"
    case Reserved => "reserved"
    case Error => "error"
  }

  function PositionStatusFromLabel(s: string): (r: Option<PositionStatus>)
    ensures r.Some? ==> PositionStatusLabel(r.value) == s
  {
    if s == "empty" then Some(Empty)
    else if s == "occupied" then Some(Occupied)
    else if s == "reserved" then Some(Reserved)
    else if s == "error" then Some(Error)
    else None
  }

  lemma PositionStatusLabelRoundTrip(s: PositionStatus)
    ensures PositionStatusFromLabel(PositionStatusLabel(s)) == Some(s)
  {
  }

  lemma PositionStatusLabelsDistinct(a: PositionStatus, b: PositionStatus)
    ensures PositionStatusLabel(a) == PositionStatusLabel(b) ==> a == b
  {
    PositionStatusLabelRoundTrip(a);
    PositionStatusLabelRoundTrip(b);
  }

  // ================================================================ records

  /** One deck slot; the defaults are those of the dataclass. */
  datatype LabwarePosition = LabwarePosition(
    positionId: string,
    labwareType: LabwareType,
    barcode: Option<string> := None,
    status: PositionStatus := Empty,
    description: Option<string> := None,
    customProperties: Option<JsonObject> := None)

  /** One aspirate/dispense step; every tuning field defaults to unset. */
  datatype TransferParameters = TransferParameters(
    sourcePosition: string,
    destinationPosition: string,
    volumeUl: real,
    liquidClass: string,
    tipType: string,
    aspirationSpeed: Option<real> := None,
    dispenseSpeed: Option<real> := None,
    airGap: Option<real> := None,
    touchOff: Option<bool> := None,
    mixCycles: Option<int> := None,
    mixVolume: Option<real> := None,
    blowOut: Option<bool> := None,
    retractDistance: Option<real> := None)

  /** Only the required fields: every optional one is unset, a position is empty. */
  lemma RecordDefaults(id: string, t: LabwareType, src: string, dst: string, v: real, lc: string, tt: string)
    ensures var p := LabwarePosition(id, t);
      p.barcode.None? && p.status == Empty && p.description.None? && p.customProperties.None?
    ensures var x := TransferParameters(src, dst, v, lc, tt);
      && x.aspirationSpeed.None? && x.dispenseSpeed.None? && x.airGap.None? && x.touchOff.None?
      && x.mixCycles.None? && x.mixVolume.None? && x.blowOut.None? && x.retractDistance.None?
  {
  }

  // ================================================================ request payloads

  /** The body of `post_deck_layout`; `asdict` copies each position field for field. */
  datatype DeckLayoutPayload = DeckLayoutPayload(positions: seq<LabwarePosition>, timestamp: real, version: string)

  /** The body of `post_transfer_session`. */
  datatype TransferSessionPayload =
    TransferSessionPayload(transfers: seq<TransferParameters>, sessionId: string, timestamp: real, status: string)

  datatype Payload = LayoutPayload(layout: DeckLayoutPayload) | SessionPayload(session: TransferSessionPayload)

  function DeckLayoutBody(positions: seq<LabwarePosition>, now: real): (p: DeckLayoutPayload)
    ensures |p.positions| == |positions|
    ensures forall i :: 0 <= i < |positions| ==> p.positions[i] == positions[i]
    ensures p.version == "1.0" && p.timestamp == now
  {
    DeckLayoutPayload(positions, now, "1.0")
  }

  const SessionIdPrefix := "session_"

  /** The client's session name, `f"session_{int(t)}"`. */
  function SessionIdHint(t: real): (id: string)
    ensures |id| > |SessionIdPrefix| && id[..|SessionIdPrefix|] == SessionIdPrefix
    ensures DecimalToInt(id[|SessionIdPrefix|..]) == Some(TruncateTowardZero(t))
    ensures id[|SessionIdPrefix|..] == IntToDecimal(TruncateTowardZero(t))
  {
    var id := SessionIdPrefix + IntToDecimal(TruncateTowardZero(t));
    assert id[|SessionIdPrefix|..] == IntToDecimal(TruncateTowardZero(t));
    id
  }

  /**
   * Two hints coincide exactly when the two clock readings truncate to the
   * same second: sessions created within one second share a hint.
   */
  lemma SessionIdHintsCollide(t1: real, t2: real)
    ensures SessionIdHint(t1) == SessionIdHint(t2) <==> TruncateTowardZero(t1) == TruncateTowardZero(t2)
  {
    var a, b := SessionIdHint(t1), SessionIdHint(t2);
    if a == b {
      assert a[|SessionIdPrefix|..] == b[|SessionIdPrefix|..];
    }
  }

  /**
   * The body of `post_transfer_session`. The session name and the timestamp
   * come from two separate clock readings, `idTime` and `now`.
   */
  function TransferSessionBody(transfers: seq<TransferParameters>, idTime: real, now: real): (p: TransferSessionPayload)
    ensures |p.transfers| == |transfers|
    ensures forall i :: 0 <= i < |transfers| ==> p.transfers[i] == transfers[i]
    ensures p.status == "pending" && p.timestamp == now
    ensures |p.sessionId| > |SessionIdPrefix| && p.sessionId[..|SessionIdPrefix|] == SessionIdPrefix
    ensures DecimalToInt(p.sessionId[|SessionIdPrefix|..]) == Some(TruncateTowardZero(idTime))
    ensures p.sessionId[|SessionIdPrefix|..] == IntToDecimal(TruncateTowardZero(idTime))
  {
    TransferSessionPayload(transfers, SessionIdHint(idTime), now, "pending")
  }

  // ================================================================ payload encoding

  /**
   * A field value as `asdict` leaves it: plain JSON data, or an `Enum`
   * member (carrying its declared value), which `json.dumps` rejects.
   */
  datatype PyValue = Data(json: Json) | EnumMember(value: string)

  function OptionalText(s: Option<string>): Json {
    match s
    case None => JNull
    case Some(t) => JString(t)
  }

  function OptionalObject(o: Option<JsonObject>): Json {
    match o
    case None => JNull
    case Some(fields) => JObject(fields)
  }

  /** `asdict(pos)`: every field under its name, the two enum fields as enum members. */
  function AsDict(p: LabwarePosition): (d: map<string, PyValue>)
    ensures d.Keys == {"position_id", "labware_type", "barcode", "status", "description", "custom_properties"}
    ensures d["labware_type"] == EnumMember(LabwareTypeLabel(p.labwareType))
    ensures d["status"] == EnumMember(PositionStatusLabel(p.status))
    ensures d["position_id"] == Data(JString(p.positionId))
    ensures d["barcode"] == Data(OptionalText(p.barcode))
    ensures d["description"] == Data(OptionalText(p.description))
    ensures d["custom_properties"] == Data(OptionalObject(p.customProperties))
  {
    map["position_id" := Data(JString(p.positionId)),
        "labware_type" := EnumMember(LabwareTypeLabel(p.labwareType)),
        "barcode" := Data(OptionalText(p.barcode)),
        "status" := EnumMember(PositionStatusLabel(p.status)),
        "description" := Data(OptionalText(p.description)),
        "custom_properties" := Data(OptionalObject(p.customProperties))]
  }

  /** Each enum member replaced by its `.value`, as the unit tests encode a position. */
  function EnumValues(d: map<string, PyValue>): (r: map<string, PyValue>)
    ensures r.Keys == d.Keys
    ensures forall k :: k in d ==> r[k].Data?
    ensures forall k :: k in d && d[k].EnumMember? ==> r[k] == Data(JString(d[k].value))
    ensures forall k :: k in d && d[k].Data? ==> r[k] == d[k]
  {
    map k | k in d :: match d[k] case EnumMember(v) => Data(JString(v)) case Data(j) => Data(j)
  }

  /** `json.dumps` of one dictionary: it raises `TypeError` on any enum member. */
  function DumpObject(d: map<string, PyValue>): (r: Option<JsonObject>)
    ensures r.Some? <==> forall k :: k in d ==> d[k].Data?
    ensures r.Some? ==> r.value.Keys == d.Keys && forall k :: k in d ==> r.value[k] == d[k].json
  {
    if forall k :: k in d ==> d[k].Data? then Some(map k | k in d :: d[k].json) else None
  }

  /** `json.dumps` of a list of dictionaries: it raises if any element does. */
  function DumpObjects(ds: seq<map<string, PyValue>>): (r: Option<seq<JsonObject>>)
    ensures r.Some? ==> |r.value| == |ds| && forall i :: 0 <= i < |ds| ==> DumpObject(ds[i]) == Some(r.value[i])
    decreases |ds|
  {
    if ds == [] then Some([])
    else
      match (DumpObject(ds[0]), DumpObjects(ds[1..]))
      case (Some(o), Some(rest)) => Some([o] + rest)
      case _ => None
  }

  /** A list of dictionaries dumps exactly when every element does. */
  lemma {:induction false} DumpObjectsSucceeds(ds: seq<map<string, PyValue>>)
    ensures DumpObjects(ds).Some? <==> forall i :: 0 <= i < |ds| ==> DumpObject(ds[i]).Some?
    decreases |ds|
  {
    if ds != [] {
      DumpObjectsSucceeds(ds[1..]);
      assert forall i :: 1 <= i < |ds| ==> ds[1..][i - 1] == ds[i];
    }
  }

  /** The `positions` list of the layout body, as `asdict` produces it. */
  function PositionDicts(positions: seq<LabwarePosition>): (ds: seq<map<string, PyValue>>)
    ensures |ds| == |positions| && forall i :: 0 <= i < |positions| ==> ds[i] == AsDict(positions[i])
  {
    seq(|positions|, i requires 0 <= i < |positions| => AsDict(positions[i]))
  }

  /**
   * As written, the debug line of `_make_request` dumps the layout body
   * before sending it: that fails for every non-empty layout, because each
   * position carries two enum members. (The timestamp and the version are
   * plain data.)
   */
  lemma AsWrittenLayoutDumpFails(positions: seq<LabwarePosition>)
    ensures DumpObjects(PositionDicts(positions)).None? <==> |positions| > 0
  {
    var ds := PositionDicts(positions);
    DumpObjectsSucceeds(ds);
    if |positions| > 0 {
      assert ds[0]["labware_type"].EnumMember?;
      assert DumpObject(ds[0]).None?;
    }
  }

  /** A position encoded with `.value` for its enum fields. */
  function EncodePosition(p: LabwarePosition): (o: JsonObject)
    ensures o.Keys == AsDict(p).Keys
    ensures o["position_id"] == JString(p.positionId)
    ensures o["labware_type"] == JString(LabwareTypeLabel(p.labwareType))
    ensures o["status"] == JString(PositionStatusLabel(p.status))
    ensures o["barcode"] == OptionalText(p.barcode) && o["description"] == OptionalText(p.description)
    ensures o["custom_properties"] == OptionalObject(p.customProperties)
    ensures DumpObject(EnumValues(AsDict(p))) == Some(o)
  {
    DumpObject(EnumValues(AsDict(p))).value
  }

  /** Reads back `OptionalText`: null is absent, a string is present; anything else is malformed. */
  function ReadOptionalText(j: Json): Option<Option<string>> {
    match j
    case JNull => Some(None)
    case JString(t) => Some(Some(t))
    case _ => None
  }

  /** Reads back `OptionalObject`. */
  function ReadOptionalObject(j: Json): Option<Option<JsonObject>> {
    match j
    case JNull => Some(None)
    case JObject(fields) => Some(Some(fields))
    case _ => None
  }

  /** An independent reader of one encoded position: every field must be present and well-typed. */
  function DecodePosition(o: JsonObject): Option<LabwarePosition> {
    if !("position_id" in o && "labware_type" in o && "barcode" in o && "status" in o
         && "description" in o && "custom_properties" in o)
    then None
    else if !(o["position_id"].JString? && o["labware_type"].JString? && o["status"].JString?) then None
    else
      match (LabwareTypeFromLabel(o["labware_type"].s), PositionStatusFromLabel(o["status"].s),
             ReadOptionalText(o["barcode"]), ReadOptionalText(o["description"]),
             ReadOptionalObject(o["custom_properties"]))
      case (Some(t), Some(st), Some(barcode), Some(description), Some(props)) =>
        Some(LabwarePosition(o["position_id"].s, t, barcode, st, description, props))
      case _ => None
  }

  /** The `.value` encoding loses nothing: every position decodes back to itself. */
  lemma EncodePositionRoundTrip(p: LabwarePosition)
    ensures DecodePosition(EncodePosition(p)) == Some(p)
  {
    LabwareTypeLabelRoundTrip(p.labwareType);
    PositionStatusLabelRoundTrip(p.status);
  }

  /** The `.value` encoding always dumps, and every dumped object decodes back to its position. */
  lemma EncodedLayoutDecodes(positions: seq<LabwarePosition>)
    ensures var ds := seq(|positions|, i requires 0 <= i < |positions| => EnumValues(AsDict(positions[i])));
      && DumpObjects(ds).Some?
      && forall i :: 0 <= i < |positions| ==>
           && DumpObjects(ds).value[i] == EncodePosition(positions[i])
           && LabwareTypeFromLabel(DumpObjects(ds).value[i]["labware_type"].s) == Some(positions[i].labwareType)
           && PositionStatusFromLabel(DumpObjects(ds).value[i]["status"].s) == Some(positions[i].status)
           && DecodePosition(DumpObjects(ds).value[i]) == Some(positions[i])
  {
    var ds := seq(|positions|, i requires 0 <= i < |positions| => EnumValues(AsDict(positions[i])));
    DumpObjectsSucceeds(ds);
    forall i | 0 <= i < |positions|
      ensures LabwareTypeFromLabel(EncodePosition(positions[i])["labware_type"].s) == Some(positions[i].labwareType)
      ensures PositionStatusFromLabel(EncodePosition(positions[i])["status"].s) == Some(positions[i].status)
      ensures DecodePosition(EncodePosition(positions[i])) == Some(positions[i])
    {
      LabwareTypeLabelRoundTrip(positions[i].labwareType);
      PositionStatusLabelRoundTrip(positions[i].status);
      EncodePositionRoundTrip(positions[i]);
    }
  }

  // ================================================================ endpoints

  datatype HttpMethod = Get | Post

  /** The seven instrument operations the client offers. */
  datatype Operation =
    | InstrumentStatus
    | ReadDeckLayout
    | WriteDeckLayout
    | CreateSession
    | StartSession(id: string)
    | SessionStatus(id: string)
    | CancelSession(id: string)

  datatype Route = Route(verb: HttpMethod, path: string)

  const SessionsPath := "/api/v1/transfers/session"

  /** The method and endpoint path each client method passes to `_make_request`. */
  function RouteOf(op: Operation): (r: Route)
    ensures |r.path| > 8 && r.path[..8] == "/api/v1/"
    ensures (op.StartSession? || op.SessionStatus? || op.CancelSession?) ==>
      && |r.path| > |SessionsPath| + 1 + |op.id|
      && r.path[..|SessionsPath| + 1] == SessionsPath + "/"
      && r.path[|SessionsPath| + 1..|SessionsPath| + 1 + |op.id|] == op.id
  {
    match op
    case InstrumentStatus => Route(Get, "/api/v1/status")
    case ReadDeckLayout => Route(Get, "/api/v1/deck/layout")
    case WriteDeckLayout => Route(Post, "/api/v1/deck/layout")
    case CreateSession => Route(Post, SessionsPath)
    case StartSession(id) => Route(Post, SessionsPath + "/" + id + "/start")
    case SessionStatus(id) => Route(Get, SessionsPath + "/" + id + "/status")
    case CancelSession(id) => Route(Post, SessionsPath + "/" + id + "/cancel")
  }

  predicate HasSuffix(s: string, suffix: string) {
    |suffix| <= |s| && s[|s| - |suffix|..] == suffix
  }

  /** How the instrument side reads a route back into an operation. */
  function ParseRoute(verb: HttpMethod, path: string): Option<Operation> {
    var prefix := SessionsPath + "/";
    var scoped := |path| > |prefix| && path[..|prefix|] == prefix;
    if verb == Get && path == "/api/v1/status" then Some(InstrumentStatus)
    else if verb == Get && path == "/api/v1/deck/layout" then Some(ReadDeckLayout)
    else if verb == Post && path == "/api/v1/deck/layout" then Some(WriteDeckLayout)
    else if verb == Post && path == SessionsPath then Some(CreateSession)
    else if scoped && verb == Post && HasSuffix(path[|prefix|..], "/start") then
      Some(StartSession(path[|prefix|..|path| - 6]))
    else if scoped && verb == Get && HasSuffix(path[|prefix|..], "/status") then
      Some(SessionStatus(path[|prefix|..|path| - 7]))
    else if scoped && verb == Post && HasSuffix(path[|prefix|..], "/cancel") then
      Some(CancelSession(path[|prefix|..|path| - 7]))
    else None
  }

  lemma StartRouteParses(id: string)
    ensures ParseRoute(Post, SessionsPath + "/" + id + "/start") == Some(StartSession(id))
  {
    var prefix := SessionsPath + "/";
    var path := prefix + id + "/start";
    assert path[..|prefix|] == prefix;
    assert path[|prefix|..] == id + "/start";
    assert path[|prefix|..|path| - 6] == id;
  }

  lemma StatusRouteParses(id: string)
    ensures ParseRoute(Get, SessionsPath + "/" + id + "/status") == Some(SessionStatus(id))
  {
    var prefix := SessionsPath + "/";
    var path := prefix + id + "/status";
    assert path[..|prefix|] == prefix;
    assert path[|prefix|..] == id + "/status";
    assert path[|prefix|..|path| - 7] == id;
  }

  lemma CancelRouteParses(id: string)
    ensures ParseRoute(Post, SessionsPath + "/" + id + "/cancel") == Some(CancelSession(id))
  {
    var prefix := SessionsPath + "/";
    var path := prefix + id + "/cancel";
    assert path[..|prefix|] == prefix;
    var tail := path[|prefix|..];
    assert tail == id + "/cancel";
    assert path[|prefix|..|path| - 7] == id;
    assert tail[|tail| - 1] == 'l';
    assert !HasSuffix(tail, "/start");
  }

  /** Every route reads back as the operation it came from; session ids travel unchanged. */
  lemma ParseRouteInvertsRouteOf(op: Operation)
    ensures ParseRoute(RouteOf(op).verb, RouteOf(op).path) == Some(op)
  {
    match op
    case StartSession(id) => StartRouteParses(id);
    case SessionStatus(id) => StatusRouteParses(id);
    case CancelSession(id) => CancelRouteParses(id);
    case _ =>
  }

  /** Distinct operations (in particular, distinct session ids) never share a route. */
  lemma RoutesDistinct(a: Operation, b: Operation)
    ensures RouteOf(a) == RouteOf(b) ==> a == b
  {
    ParseRouteInvertsRouteOf(a);
    ParseRouteInvertsRouteOf(b);
  }

  // ================================================================ HTTP exchange

  datatype Credentials = Credentials(username: string, password: string)

  /** What `session.request(...)` puts on the wire. */
  datatype HttpRequest = HttpRequest(
    verb: HttpMethod,
    url: string,
    json: Option<Payload>,
    headers: map<string, string>,
    auth: Option<Credentials>,
    timeout: int)

  /** The instrument's answer: a status code with a JSON-object body, or no answer at all. */
  datatype Reply = Response(status: int, body: JsonObject) | ConnectionFailed

  /** Why a request raised: an error status (with its body) or a transport failure. */
  datatype RequestFailure = HttpError(status: int, body: JsonObject) | TransportError

  /** The status codes `raise_for_status` raises for: 4xx client and 5xx server errors. */
  predicate RaisesForStatus(status: int) {
    400 <= status < 600
  }

  /**
   * `_make_request` after the transport has answered: an error status or a
   * transport failure raises, anything else yields the parsed body.
   */
  function Outcome(reply: Reply): (r: Result<JsonObject, RequestFailure>)
    ensures r.Success? <==> reply.Response? && !RaisesForStatus(reply.status)
    ensures r.Success? ==> r.value == reply.body
    ensures reply.Response? && RaisesForStatus(reply.status) ==> r == Failure(HttpError(reply.status, reply.body))
    ensures reply.ConnectionFailed? ==> r == Failure(TransportError)
  {
    match reply
    case ConnectionFailed => Failure(TransportError)
    case Response(status, body) =>
      if RaisesForStatus(status) then Failure(HttpError(status, body)) else Success(body)
  }

  /** A corollary of `Outcome`'s contract, stated for callers: an error status never yields a body. */
  lemma ErrorStatusNeverYieldsBody(reply: Reply)
    requires reply.Response? && 400 <= reply.status < 600
    ensures Outcome(reply).Failure? && Outcome(reply).error.status == reply.status
  {
  }

  // ================================================================ session and client

  /** The header and auth state of a `requests.Session`, as far as the client changes it. */
  class Session {
    var headers: map<string, string>
    var auth: Option<Credentials>

    constructor ()
      ensures headers == map[] && auth == None
    {
      headers := map[];
      auth := None;
    }

    /** `session.headers.update(update)`. */
    method UpdateHeaders(update: map<string, string>)
      modifies this
      ensures headers == old(headers) + update
      ensures auth == old(auth)
    {
      headers := headers + update;
    }
  }

  /** Python truthiness of an optional string: present and non-empty. */
  predicate Provided(s: Option<string>) {
    s.Some? && s.value != ""
  }

  datatype AuthMode = BearerToken(key: string) | BasicAuth(credentials: Credentials) | NoAuth

  /** Which authentication the constructor configures: API key first, then username and password. */
  function SelectAuth(username: Option<string>, password: Option<string>, apiKey: Option<string>): (m: AuthMode)
    ensures m.BearerToken? <==> Provided(apiKey)
    ensures m.BasicAuth? <==> !Provided(apiKey) && Provided(username) && Provided(password)
    ensures m.NoAuth? <==> !Provided(apiKey) && !(Provided(username) && Provided(password))
    ensures m.BearerToken? ==> m.key == apiKey.value
    ensures m.BasicAuth? ==> m.credentials == Credentials(username.value, password.value)
  {
    if Provided(apiKey) then BearerToken(apiKey.value)
    else if Provided(username) && Provided(password) then BasicAuth(Credentials(username.value, password.value))
    else NoAuth
  }

  const ContentTypeJson: map<string, string> := map["Content-Type" := "application/json"]

  class FluentControlClient {
    const baseUrl: string
    const timeout: int
    const session: Session

    /** The constructor's promise about the base URL: the join with an endpoint path has one '/'. */
    predicate Valid() {
      baseUrl == [] || baseUrl[|baseUrl| - 1] != '/'
    }

    constructor (baseUrl: string, username: Option<string> := None, password: Option<string> := None,
                 apiKey: Option<string> := None, timeout: int := 30)
      ensures Valid()
      ensures this.baseUrl == TrimTrailing(baseUrl, '/') && this.timeout == timeout
      ensures fresh(session)
      ensures "Content-Type" in session.headers && session.headers["Content-Type"] == "application/json"
      ensures Provided(apiKey) ==> session.headers == ContentTypeJson["Authorization" := "Bearer " + apiKey.value]
      ensures !Provided(apiKey) ==> session.headers == ContentTypeJson
      ensures session.auth ==
        (match SelectAuth(username, password, apiKey) case BasicAuth(c) => Some(c) case _ => None)
    {
      this.baseUrl := TrimTrailing(baseUrl, '/');
      this.timeout := timeout;
      var s := new Session();
      if Provided(apiKey) {
        s.UpdateHeaders(map["Authorization" := "Bearer " + apiKey.value, "Content-Type" := "application/json"]);
      } else if Provided(username) && Provided(password) {
        s.auth := Some(Credentials(username.value, password.value));
        s.UpdateHeaders(ContentTypeJson);
      } else {
        s.UpdateHeaders(ContentTypeJson);
      }
      this.session := s;
    }

    /** The request `_make_request` issues: the session's headers, auth and timeout on every call. */
    function BuildRequest(route: Route, data: Option<Payload>): (q: HttpRequest)
      reads session
      ensures q.verb == route.verb && q.json == data
      ensures |q.url| == |baseUrl| + |route.path|
      ensures q.url[..|baseUrl|] == baseUrl && q.url[|baseUrl|..] == route.path
      ensures q.headers == session.headers && q.auth == session.auth && q.timeout == timeout
    {
      HttpRequest(route.verb, baseUrl + route.path, data, session.headers, session.auth, timeout)
    }

    /** Endpoint paths all start with '/', so the joined URL has exactly one '/' at the seam. */
    lemma UrlSeam(op: Operation, data: Option<Payload>)
      requires Valid()
      ensures var url := BuildRequest(RouteOf(op), data).url;
        && url[|baseUrl|] == '/'
        && (|baseUrl| > 0 ==> url[|baseUrl| - 1] != '/')
    {
      var path := RouteOf(op).path;
      assert path[0] == path[..8][0] == '/';
    }

    /** `_make_request(method, endpoint, data)` followed by `response.json()`. */
    function MakeRequest(route: Route, data: Option<Payload>, send: HttpRequest -> Reply): (r: Result<JsonObject, RequestFailure>)
      reads session
      ensures var reply := send(BuildRequest(route, data));
        && (r.Success? <==> reply.Response? && !RaisesForStatus(reply.status))
        && (r.Success? ==> r.value == reply.body)
        && (r.Failure? ==> r == Outcome(reply))
    {
      Outcome(send(BuildRequest(route, data)))
    }

    /**
     * The five body-less calls: `get_instrument_status`, `get_deck_layout`,
     * `start_transfer_session`, `get_transfer_status`, `cancel_transfer_session`.
     */
    function Call(op: Operation, send: HttpRequest -> Reply): (r: Result<JsonObject, RequestFailure>)
      reads session
      requires !op.WriteDeckLayout? && !op.CreateSession?
      ensures var reply := send(BuildRequest(RouteOf(op), None));
        && (r.Success? <==> reply.Response? && !RaisesForStatus(reply.status))
        && (r.Success? ==> r.value == reply.body)
    {
      MakeRequest(RouteOf(op), None, send)
    }

    /**
     * `post_deck_layout(positions)`, stamped with the clock reading `now`, as
     * intended: the positions go out encoded as `EncodePosition` gives them
     * (enum fields by their `.value`), which `EncodedLayoutDecodes` shows
     * always encodes. `PostDeckLayoutAsWritten` is the source as written.
     */
    function PostDeckLayout(positions: seq<LabwarePosition>, now: real, send: HttpRequest -> Reply): (r: Result<JsonObject, RequestFailure>)
      reads session
      ensures var reply := send(BuildRequest(Route(Post, "/api/v1/deck/layout"), Some(LayoutPayload(DeckLayoutBody(positions, now)))));
        && (r.Success? <==> reply.Response? && !RaisesForStatus(reply.status))
        && (r.Success? ==> r.value == reply.body)
    {
      MakeRequest(RouteOf(WriteDeckLayout), Some(LayoutPayload(DeckLayoutBody(positions, now))), send)
    }

    /** `post_transfer_session(transfers)`; `idTime` and `now` are its two clock readings. */
    function PostTransferSession(transfers: seq<TransferParameters>, idTime: real, now: real, send: HttpRequest -> Reply): (r: Result<JsonObject, RequestFailure>)
      reads session
      ensures var reply := send(BuildRequest(Route(Post, SessionsPath), Some(SessionPayload(TransferSessionBody(transfers, idTime, now)))));
        && (r.Success? <==> reply.Response? && !RaisesForStatus(reply.status))
        && (r.Success? ==> r.value == reply.body)
    {
      MakeRequest(RouteOf(CreateSession), Some(SessionPayload(TransferSessionBody(transfers, idTime, now))), send)
    }

    /**
     * `post_deck_layout(positions)` as written: the debug line dumps the
     * `asdict` positions before the request is made, and a `TypeError` there
     * escapes `_make_request`, which catches only request errors.
     */
    function PostDeckLayoutAsWritten(positions: seq<LabwarePosition>, now: real, send: HttpRequest -> Reply)
      : (r: Result<JsonObject, LayoutPostError>)
      reads session
      ensures DumpObjects(PositionDicts(positions)).None? ==> r == Failure(NotSerializable)
      ensures DumpObjects(PositionDicts(positions)).Some? ==>
                match PostDeckLayout(positions, now, send)
                case Success(v) => r == Success(v)
                case Failure(e) => r == Failure(RequestError(e))
    {
      if DumpObjects(PositionDicts(positions)).None? then Failure(NotSerializable)
      else
        match PostDeckLayout(positions, now, send)
        case Success(v) => Success(v)
        case Failure(e) => Failure(RequestError(e))
    }

    /**
     * As written, posting any non-empty layout raises `TypeError` before a
     * request is made, whatever the instrument would answer.
     */
    lemma AsWrittenLayoutPostNeverSends(positions: seq<LabwarePosition>, now: real, send: HttpRequest -> Reply)
      requires |positions| > 0
      ensures PostDeckLayoutAsWritten(positions, now, send) == Failure(NotSerializable)
    {
      AsWrittenLayoutDumpFails(positions);
    }

    /** The layout every workflow posts first, the standard one, is such a layout. */
    lemma AsWrittenStandardLayoutPostRaises(now: real, send: HttpRequest -> Reply)
      ensures PostDeckLayoutAsWritten(Standard96Layout(), now, send) == Failure(NotSerializable)
    {
      Standard96LayoutShape();
      AsWrittenLayoutPostNeverSends(Standard96Layout(), now, send);
    }
  }

  /** Why the as-written layout post fails: the dump raised, or the request did. */
  datatype LayoutPostError = NotSerializable | RequestError(failure: RequestFailure)

  // ================================================================ record builders

  /** The slots of `create_standard_96_well_layout`: id, labware type and description. */
  const Standard96Config: seq<(string, LabwareType, string)> := [
    ("A1", Microplate96, "Source_Plate_01"),
    ("A2", Microplate96, "Destination_Plate_01"),
    ("A3", TipRack96, "Tips_01"),
    ("A4", TipRack96, "Tips_02"),
    ("B1", Reservoir, "Wash_Buffer"),
    ("B2", Reservoir, "Reagent_01"),
    ("B3", TipRack96, "Tips_03"),
    ("B4", TipRack96, "Tips_04")
  ]

  /** One configured slot as an occupied position with its description. */
  function OccupiedSlot(slot: (string, LabwareType, string)): LabwarePosition {
    LabwarePosition(slot.0, slot.1, description := Some(slot.2), status := Occupied)
  }

  /** The list `create_standard_96_well_layout` returns. */
  function Standard96Layout(): seq<LabwarePosition> {
    seq(|Standard96Config|, k requires 0 <= k < |Standard96Config| => OccupiedSlot(Standard96Config[k]))
  }

  /** `create_standard_96_well_layout`: appends one occupied position per configured slot. */
  method CreateStandard96WellLayout() returns (positions: seq<LabwarePosition>)
    ensures positions == Standard96Layout()
  {
    positions := [];
    for i := 0 to |Standard96Config|
      invariant positions == Standard96Layout()[..i]
    {
      var (posId, labwareType, description) := Standard96Config[i];
      var position := LabwarePosition(posId, labwareType, description := Some(description), status := Occupied);
      positions := positions + [position];
    }
  }

  /** Eight positions A1..A4, B1..B4 in that order, pairwise distinct, all occupied, nothing else set. */
  lemma Standard96LayoutShape()
    ensures var ps := Standard96Layout();
      && |ps| == 8
      && (forall k :: 0 <= k < 8 ==> ps[k].positionId == ["A1", "A2", "A3", "A4", "B1", "B2", "B3", "B4"][k])
      && (forall i, j :: 0 <= i < j < 8 ==> ps[i].positionId != ps[j].positionId)
      && (forall k :: 0 <= k < 8 ==> ps[k].status == Occupied && ps[k].barcode.None? && ps[k].customProperties.None?)
  {
  }

  /** `create_transfer_parameters(source_pos, dest_pos, volume_ul)` with its fixed defaults. */
  function CreateTransferParameters(sourcePos: string, destPos: string, volumeUl: real := 50.0): (t: TransferParameters)
    ensures t.sourcePosition == sourcePos && t.destinationPosition == destPos && t.volumeUl == volumeUl
    ensures t.liquidClass == "Standard" && t.tipType == "Standard_200uL"
    ensures t.mixCycles == Some(3)
    ensures t.mixVolume.Some? && 2.0 * t.mixVolume.value == volumeUl
    ensures t.aspirationSpeed == Some(100.0) && t.dispenseSpeed == Some(100.0) && t.airGap == Some(5.0)
    ensures t.touchOff == Some(true) && t.blowOut == Some(true) && t.retractDistance == Some(2.0)
  {
    TransferParameters(
      sourcePosition := sourcePos,
      destinationPosition := destPos,
      volumeUl := volumeUl,
      liquidClass := "Standard",
      tipType := "Standard_200uL",
      aspirationSpeed := Some(100.0),
      dispenseSpeed := Some(100.0),
      airGap := Some(5.0),
      touchOff := Some(true),
      mixCycles := Some(3),
      mixVolume := Some(volumeUl * 0.5),
      blowOut := Some(true),
      retractDistance := Some(2.0))
  }

  // ================================================================ status polling

  /** `status in ['completed', 'failed', 'cancelled']`: only these end a session. */
  predicate IsTerminal(status: Json) {
    status == JString("completed") || status == JString("failed") || status == JString("cancelled")
  }

  /**
   * How a polling loop ended: a terminal status after `polls` status calls,
   * the bound reached without one (no error is raised for that), or a
   * status call that raised.
   */
  datatype PollOutcome =
    | Reached(status: string, polls: nat)
    | NotReached(polls: nat)
    | PollFailed(error: RequestFailure, polls: nat)

  /** The answer to the k-th status call of a loop whose first call is request number `first`. */
  function StatusPoll(client: FluentControlClient, sessionId: string, net: nat -> HttpRequest -> Reply,
                      first: nat, k: nat): Result<JsonObject, RequestFailure>
    reads client.session
  {
    client.Call(SessionStatus(sessionId), net(first + k))
  }

  /** The k-th status call answered with a non-terminal status, so the loop goes on. */
  predicate StillPending(client: FluentControlClient, sessionId: string, net: nat -> HttpRequest -> Reply,
                         first: nat, k: nat)
    reads client.session
  {
    var r := StatusPoll(client, sessionId, net, first, k);
    r.Success? && !IsTerminal(GetField(r.value, "status"))
  }

  /** The polling loop from its `attempt`-th iteration on, with at most `maxAttempts` iterations. */
  function PollFrom(client: FluentControlClient, sessionId: string, net: nat -> HttpRequest -> Reply,
                    first: nat, maxAttempts: nat, attempt: nat): (o: PollOutcome)
    reads client.session
    requires attempt <= maxAttempts
    ensures o.polls <= maxAttempts
    ensures attempt < maxAttempts ==> attempt < o.polls
    ensures o.NotReached? ==> o.polls == maxAttempts
    decreases maxAttempts - attempt
  {
    if attempt == maxAttempts then NotReached(maxAttempts)
    else
      match StatusPoll(client, sessionId, net, first, attempt)
      case Failure(e) => PollFailed(e, attempt + 1)
      case Success(body) =>
        var status := GetField(body, "status");
        if IsTerminal(status) then Reached(status.s, attempt + 1)
        else PollFrom(client, sessionId, net, first, maxAttempts, attempt + 1)
  }

  /**
   * What each outcome means: every poll before the last one was pending; a
   * terminal outcome is the status of the last poll, an exhausted loop saw
   * only pending polls, a failed loop stopped at the poll that raised.
   */
  lemma {:induction false} PollOutcomeExplained(client: FluentControlClient, sessionId: string,
                                                net: nat -> HttpRequest -> Reply, first: nat, maxAttempts: nat, attempt: nat)
    requires attempt <= maxAttempts
    ensures var o := PollFrom(client, sessionId, net, first, maxAttempts, attempt);
      && (forall k :: attempt <= k < o.polls - 1 ==> StillPending(client, sessionId, net, first, k))
      && (o.NotReached? ==> forall k :: attempt <= k < maxAttempts ==> StillPending(client, sessionId, net, first, k))
      && (o.Reached? ==>
            var r := StatusPoll(client, sessionId, net, first, o.polls - 1);
            r.Success? && GetField(r.value, "status") == JString(o.status) && IsTerminal(JString(o.status)))
      && (o.PollFailed? ==> StatusPoll(client, sessionId, net, first, o.polls - 1) == Failure(o.error))
    decreases maxAttempts - attempt
  {
    if attempt < maxAttempts {
      var r := StatusPoll(client, sessionId, net, first, attempt);
      if r.Success? && !IsTerminal(GetField(r.value, "status")) {
        PollOutcomeExplained(client, sessionId, net, first, maxAttempts, attempt + 1);
      }
    }
  }

  /** The loop stops at the first terminal status: k pending polls and then a terminal one give k + 1 calls. */
  lemma {:induction false} PollStopsAtFirstTerminal(client: FluentControlClient, sessionId: string,
                                                    net: nat -> HttpRequest -> Reply, first: nat, maxAttempts: nat,
                                                    attempt: nat, k: nat)
    requires attempt <= k < maxAttempts
    requires forall j :: attempt <= j < k ==> StillPending(client, sessionId, net, first, j)
    requires StatusPoll(client, sessionId, net, first, k).Success?
    requires IsTerminal(GetField(StatusPoll(client, sessionId, net, first, k).value, "status"))
    ensures PollFrom(client, sessionId, net, first, maxAttempts, attempt)
         == Reached(GetField(StatusPoll(client, sessionId, net, first, k).value, "status").s, k + 1)
    decreases k - attempt
  {
    if attempt < k {
      assert StillPending(client, sessionId, net, first, attempt);
      PollStopsAtFirstTerminal(client, sessionId, net, first, maxAttempts, attempt + 1, k);
    }
  }

  /** With no terminal status within the bound the loop just ends: exactly `maxAttempts` calls, no error. */
  lemma {:induction false} PollGivesUpQuietly(client: FluentControlClient, sessionId: string,
                                              net: nat -> HttpRequest -> Reply, first: nat, maxAttempts: nat, attempt: nat)
    requires attempt <= maxAttempts
    requires forall j :: attempt <= j < maxAttempts ==> StillPending(client, sessionId, net, first, j)
    ensures PollFrom(client, sessionId, net, first, maxAttempts, attempt) == NotReached(maxAttempts)
    decreases maxAttempts - attempt
  {
    if attempt < maxAttempts {
      assert StillPending(client, sessionId, net, first, attempt);
      PollGivesUpQuietly(client, sessionId, net, first, maxAttempts, attempt + 1);
    }
  }

  /** The bound of the loop in `main`. */
  const MainPollLimit: nat := 10

  /** The monitoring loop of `main`: up to ten status calls, stopping at the first terminal status. */
  method MonitorTransfer(client: FluentControlClient, sessionId: string, net: nat -> HttpRequest -> Reply, first: nat)
    returns (o: PollOutcome)
    ensures o == PollFrom(client, sessionId, net, first, MainPollLimit, 0)
  {
    for i := 0 to MainPollLimit
      invariant PollFrom(client, sessionId, net, first, MainPollLimit, 0)
             == PollFrom(client, sessionId, net, first, MainPollLimit, i)
    {
      var statusResponse := client.Call(SessionStatus(sessionId), net(first + i));
      if statusResponse.Failure? {
        return PollFailed(statusResponse.error, i + 1);
      }
      var status := GetField(statusResponse.value, "status");
      if IsTerminal(status) {
        return Reached(status.s, i + 1);
      }
    }
    return NotReached(MainPollLimit);
  }

  // ================================================================ the workflow of main

  /** The three transfers `main` submits. */
  const MainTransfers: seq<TransferParameters> := [
    CreateTransferParameters("A1", "A2", volumeUl := 50.0),
    CreateTransferParameters("A1", "A2", volumeUl := 25.0),
    CreateTransferParameters("B1", "A2", volumeUl := 100.0)
  ]

  /** `response.get('session_id')` when it is a non-empty string. */
  function SessionIdOf(body: JsonObject): (id: Option<string>)
    ensures id.Some? <==> "session_id" in body && body["session_id"].JString? && body["session_id"].s != ""
    ensures id.Some? ==> body["session_id"] == JString(id.value)
  {
    match GetField(body, "session_id")
    case JString(s) => if s != "" then Some(s) else None
    case _ => None
  }

  /** What `main` observed: the session id it used, and how its monitoring ended. */
  datatype MainRun = MainRun(sessionId: Option<string>, monitor: Option<PollOutcome>)

  /**
   * The first three requests of `main` (requests 0, 1, 2): instrument status,
   * the standard layout (clock reading 0) and the transfer session (clock
   * readings 1 and 2). Yields the session response.
   */
  function MainSetup(client: FluentControlClient, net: nat -> HttpRequest -> Reply, clock: nat -> real)
    : Result<JsonObject, RequestFailure>
    reads client.session
  {
    match client.Call(InstrumentStatus, net(0))
    case Failure(e) => Failure(e)
    case Success(_) =>
      match client.PostDeckLayout(Standard96Layout(), clock(0), net(1))
      case Failure(e) => Failure(e)
      case Success(_) => client.PostTransferSession(MainTransfers, clock(1), clock(2), net(2))
  }

  /** `main` from its first request on; any raised failure propagates. */
  function MainRunSpec(client: FluentControlClient, net: nat -> HttpRequest -> Reply, clock: nat -> real)
    : Result<MainRun, RequestFailure>
    reads client.session
  {
    match MainSetup(client, net, clock)
    case Failure(e) => Failure(e)
    case Success(sessionResponse) =>
      match SessionIdOf(sessionResponse)
      case None => Success(MainRun(None, None))
      case Some(id) =>
        match client.Call(StartSession(id), net(3))
        case Failure(e) => Failure(e)
        case Success(_) =>
          match PollFrom(client, id, net, 4, MainPollLimit, 0)
          case PollFailed(e, _) => Failure(e)
          case o => Success(MainRun(Some(id), Some(o)))
  }

  /** `main` after the client is built: status, layout, session, start, then monitoring. */
  method RunMain(client: FluentControlClient, net: nat -> HttpRequest -> Reply, clock: nat -> real)
    returns (r: Result<MainRun, RequestFailure>)
    ensures r == MainRunSpec(client, net, clock)
  {
    var status := client.Call(InstrumentStatus, net(0));
    if status.Failure? {
      return Failure(status.error);
    }
    var deckPositions := CreateStandard96WellLayout();
    var layoutResponse := client.PostDeckLayout(deckPositions, clock(0), net(1));
    if layoutResponse.Failure? {
      return Failure(layoutResponse.error);
    }
    var sessionResponse := client.PostTransferSession(MainTransfers, clock(1), clock(2), net(2));
    if sessionResponse.Failure? {
      return Failure(sessionResponse.error);
    }
    var sessionId := SessionIdOf(sessionResponse.value);
    if sessionId.None? {
      return Success(MainRun(None, None));
    }
    var startResponse := client.Call(StartSession(sessionId.value), net(3));
    if startResponse.Failure? {
      return Failure(startResponse.error);
    }
    var outcome := MonitorTransfer(client, sessionId.value, net, 4);
    if outcome.PollFailed? {
      return Failure(outcome.error);
    }
    return Success(MainRun(sessionId, Some(outcome)));
  }

  /**
   * Without a session id `main` stops after its third request: neither start
   * nor any status call is made, so later replies cannot change the result.
   */
  lemma MainSkipsMonitoringWithoutSessionId(client: FluentControlClient, net: nat -> HttpRequest -> Reply,
                                            other: nat -> HttpRequest -> Reply, clock: nat -> real)
    requires forall k: nat, q: HttpRequest :: k < 3 ==> net(k)(q) == other(k)(q)
    requires MainSetup(client, net, clock).Success?
    requires SessionIdOf(MainSetup(client, net, clock).value).None?
    ensures MainRunSpec(client, net, clock) == Success(MainRun(None, None))
    ensures MainRunSpec(client, other, clock) == Success(MainRun(None, None))
  {
    assert MainSetup(client, net, clock) == MainSetup(client, other, clock);
  }

  /** With a session id `main` makes between one and ten status calls and reports how they ended. */
  lemma MainMonitorsAtMostTenTimes(client: FluentControlClient, net: nat -> HttpRequest -> Reply, clock: nat -> real)
    requires MainRunSpec(client, net, clock).Success?
    ensures var run := MainRunSpec(client, net, clock).value;
      && (run.sessionId.Some? <==> run.monitor.Some?)
      && (run.monitor.Some? ==> 1 <= run.monitor.value.polls <= 10 && !run.monitor.value.PollFailed?)
  {
  }
}
