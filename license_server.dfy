/**
  The license gate of the NoteMate server (server/src/index.ts): one process-wide
  cache of the active license, the handlers that activate, clear and report it,
  the `requireFeature` guard in front of the two premium routes, and the legacy
  routes that answer 410.

  Each handler runs as one atomic step. The remote activation service, the clock
  and `Math.random` are inputs: `remote` maps the activation request the server
  sends to what the service answered, `now` is the ISO timestamp and `suffix` the
  random base-36 tail of a generated host id.
 */
module LicenseServer {
  import opened Wrappers
  import opened JsonValue

  datatype Tier = Free | Pro

  function TierName(t: Tier): string {
    match t
    case Free => "FREE"
    case Pro => "PRO"
  }

  const ExportPdf: string := "exportPDF"
  const DarkMode: string := "darkMode"

  /** The capability list every successful activation stores. */
  const ProFeatures: seq<string> := [ExportPdf, DarkMode]

  /** The features that have a gated route (`/api/feature/<name>`). */
  const FeatureRoutes: seq<string> := [ExportPdf, DarkMode]

  /** The removed endpoints that answer 410 whatever the HTTP method. */
  const LegacyPaths: seq<string> :=
    ["/api/create-key", "/api/activate-key", "/api/deactivate-key", "/api/licenses"]

  /** `ActiveLicenseState`; `undefined` licensee fields are `None`. */
  datatype ActiveLicense = ActiveLicense(
    licenseKey: string,
    hostId: string,
    tier: Tier,
    features: seq<string>,
    lastActivatedAt: string,
    licenseeName: Option<Json>,
    licenseeEmail: Option<Json>)

  /** The gate's invariant: a cached license is always a PRO license with the fixed capability list. */
  predicate Entitled(active: Option<ActiveLicense>) {
    active.Some? ==> active.value.tier == Pro && active.value.features == ProFeatures
  }

  /** An HTTP reply: status code and JSON body (`res.json` answers 200). */
  datatype Reply = Reply(status: int, body: Json)

  /** A final status outside 2xx, for which axios rejects its promise with `e.response` set.
      HTTP status codes have three digits, and 1xx answers are never final. */
  type FailureStatus = s: int | 300 <= s < 1000 witness 500

  /** The payload POSTed to the activation service's `/key/activate`. */
  datatype ActivationRequest = ActivationRequest(
    productId: Option<string>,
    licenseKey: string,
    hostId: string,
    deviceTag: Option<string>)

  /** What the activation service did with one request. */
  datatype RemoteOutcome =
    | Activated(data: Json)                         // a 2xx answer with its parsed body
    | HttpError(status: FailureStatus, data: Json)  // an answer outside 2xx: `e.response` is set
    | TransportError(message: string)               // no answer at all: `e.response` is undefined

  /** The body of `/api/enter-license` after the schema accepted it. */
  datatype EnterRequest = EnterRequest(licenseKey: string, deviceTag: Option<string>, hostId: Option<string>)

  // ----- Replies -----

  function FeaturesJson(fs: seq<string>): Json {
    JArr(seq(|fs|, i requires 0 <= i < |fs| => JStr(fs[i])))
  }

  const FreeView: Json :=
    JObj([Member("tier", JStr("FREE")), Member("features", JArr([]))])

  function ServerError(message: string): Reply {
    Reply(500, JObj([Member("message", JStr("Server error")), Member("error", JStr(message))]))
  }

  function ActivatedBody(rec: ActiveLicense): Json {
    JObj([Member("message", JStr("License activated")),
          Member("tier", JStr(TierName(rec.tier))),
          Member("features", FeaturesJson(rec.features)),
          Member("hostId", JStr(rec.hostId))])
  }

  function ClearedReply(): Reply {
    Reply(200, JObj([Member("message", JStr("License cleared")),
                     Member("tier", JStr("FREE")),
                     Member("features", JArr([]))]))
  }

  function DenyReply(status: int, message: string, feature: string): Reply {
    Reply(status, JObj([Member("message", JStr(message)), Member("feature", JStr(feature))]))
  }

  function FeatureOkReply(feature: string): Reply {
    Reply(200, JObj([Member("ok", JBool(true)), Member("feature", JStr(feature))]))
  }

  const LegacyReplyValue: Reply :=
    Reply(410, JObj([Member("message", JStr("Endpoint removed in NoteMate demo refactor"))]))

  /** The TypeError message of reading `licenseeName` from a `null` response body. */
  const NullDataMessage: string := "Cannot read properties of null (reading 'licenseeName')"

  // ----- Request validation -----

  function Issues<T>(r: Result<T, seq<string>>): seq<string> {
    if r.Failure? then r.error else []
  }

  /** The schema's `z.string().optional()`: absent is accepted, a string is kept,
      any other value (including `null`) is an issue at that key. */
  function OptionalString(body: Json, key: string): Result<Option<string>, seq<string>> {
    match Get(body, key)
    case None => Success(None)
    case Some(JStr(s)) => Success(Some(s))
    case Some(_) => Failure([key])
  }

  function RequiredString(body: Json, key: string): Result<string, seq<string>> {
    match Get(body, key)
    case Some(JStr(s)) => Success(s)
    case _ => Failure([key])
  }

  /** `schema.parse(req.body)`: every failing field is reported, in schema order;
      a body that is not an object fails at the root path "". */
  function ParseBody(body: Json): (r: Result<EnterRequest, seq<string>>)
    ensures r.Success? <==>
      body.JObj? && RequiredString(body, "licenseKey").Success? &&
      OptionalString(body, "deviceTag").Success? && OptionalString(body, "hostId").Success?
    ensures r.Success? ==>
      && Get(body, "licenseKey") == Some(JStr(r.value.licenseKey))
      && (r.value.hostId.None? <==> Get(body, "hostId").None?)
      && (r.value.hostId.Some? ==> Get(body, "hostId") == Some(JStr(r.value.hostId.value)))
      && (r.value.deviceTag.None? <==> Get(body, "deviceTag").None?)
      && (r.value.deviceTag.Some? ==> Get(body, "deviceTag") == Some(JStr(r.value.deviceTag.value)))
    ensures r.Failure? ==> r.error != []
    ensures body.JObj? && !(exists s :: Get(body, "licenseKey") == Some(JStr(s))) ==>
      r.Failure? && r.error[0] == "licenseKey"
  {
    if !body.JObj? then Failure([""])
    else
      var key := RequiredString(body, "licenseKey");
      var tag := OptionalString(body, "deviceTag");
      var host := OptionalString(body, "hostId");
      if key.Success? && tag.Success? && host.Success? then
        Success(EnterRequest(key.value, tag.value, host.value))
      else
        Failure(Issues(key) + Issues(tag) + Issues(host))
  }

  /** The text the model reports for a rejected body: the failing paths, comma-separated. */
  function ValidationMessage(issues: seq<string>): string {
    if |issues| == 0 then ""
    else if |issues| == 1 then issues[0]
    else issues[0] + ", " + ValidationMessage(issues[1..])
  }

  // ----- Activation -----

  /** `hostId || \`host-${suffix}\``: a non-empty supplied id is kept, otherwise one is generated. */
  function ActivationHost(hostId: Option<string>, suffix: string): (h: string)
    ensures |h| > 0
    ensures hostId.Some? && hostId.value != "" ==> h == hostId.value
    ensures hostId.None? || hostId.value == "" ==> |h| >= 5 && h[..5] == "host-" && h[5..] == suffix
  {
    if hostId.Some? && hostId.value != "" then hostId.value else "host-" + suffix
  }

  /** The request the handler sends for an accepted body. */
  function RequestFor(productId: Option<string>, req: EnterRequest, suffix: string): ActivationRequest {
    ActivationRequest(productId, req.licenseKey, ActivationHost(req.hostId, suffix), req.deviceTag)
  }

  /** The activation went through: the body passed the schema and the service answered 2xx with a non-null body. */
  predicate ActivationSucceeds(productId: Option<string>, body: Json, suffix: string,
                               remote: ActivationRequest -> RemoteOutcome)
  {
    var parsed := ParseBody(body);
    parsed.Success? &&
    var outcome := remote(RequestFor(productId, parsed.value, suffix));
    outcome.Activated? && outcome.data != JNull
  }

  /** `/api/enter-license`: the new cache and the reply. */
  function Activate(active: Option<ActiveLicense>, productId: Option<string>, body: Json,
                    suffix: string, now: string, remote: ActivationRequest -> RemoteOutcome)
    : (r: (Option<ActiveLicense>, Reply))
    ensures r.1.status == 200 <==> ActivationSucceeds(productId, body, suffix, remote)
    // a failed attempt leaves the cache exactly as it was
    ensures r.1.status != 200 ==> r.0 == active
    // a successful one replaces it wholesale by a fresh PRO record
    ensures r.1.status == 200 ==>
      var req := ParseBody(body).value;
      var sent := RequestFor(productId, req, suffix);
      && r.0 == Some(ActiveLicense(req.licenseKey, sent.hostId, Pro, ProFeatures, now,
                                   Get(remote(sent).data, "licenseeName"),
                                   Get(remote(sent).data, "licenseeEmail")))
      && r.1.body == ActivatedBody(r.0.value)
    ensures Entitled(active) ==> Entitled(r.0)
    // error mapping: schema errors and transport errors are 500, service errors pass through
    ensures ParseBody(body).Failure? ==> r.1 == ServerError(ValidationMessage(ParseBody(body).error))
    ensures ParseBody(body).Success? ==>
      match remote(RequestFor(productId, ParseBody(body).value, suffix))
      case HttpError(status, data) => r.1 == Reply(status, data)
      case TransportError(message) => r.1 == ServerError(message)
      case Activated(data) => data == JNull ==> r.1 == ServerError(NullDataMessage)
  {
    match ParseBody(body)
    case Failure(issues) => (active, ServerError(ValidationMessage(issues)))
    case Success(req) =>
      var sent := RequestFor(productId, req, suffix);
      match remote(sent)
      case Activated(data) =>
        if data == JNull then (active, ServerError(NullDataMessage))
        else
          var rec := ActiveLicense(req.licenseKey, sent.hostId, Pro, ProFeatures, now,
                                   Get(data, "licenseeName"), Get(data, "licenseeEmail"));
          (Some(rec), Reply(200, ActivatedBody(rec)))
      case HttpError(status, data) => (active, Reply(status, data))
      case TransportError(message) => (active, ServerError(message))
  }

  /** The host id in the reply of a successful activation is the one stored and the one sent. */
  lemma ActivatedHostEchoed(active: Option<ActiveLicense>, productId: Option<string>, body: Json,
                            suffix: string, now: string, remote: ActivationRequest -> RemoteOutcome)
    requires ActivationSucceeds(productId, body, suffix, remote)
    ensures
      var r := Activate(active, productId, body, suffix, now, remote);
      var req := ParseBody(body).value;
      && Get(r.1.body, "hostId") == Some(JStr(r.0.value.hostId))
      && Get(r.1.body, "tier") == Some(JStr("PRO"))
      && r.0.value.hostId == RequestFor(productId, req, suffix).hostId
      && (req.hostId.Some? && req.hostId.value != "" ==> r.0.value.hostId == req.hostId.value)
  {
    var r := Activate(active, productId, body, suffix, now, remote);
    GetUnique(r.1.body.members, 3, "hostId");
    GetUnique(r.1.body.members, 1, "tier");
  }

  // ----- Reading the cache -----

  function OptionalMember(key: string, v: Option<Json>): seq<Member> {
    if v.Some? then [Member(key, v.value)] else []
  }

  /** The members every cached record serialises. */
  function FixedMembers(rec: ActiveLicense): seq<Member> {
    [Member("licenseKey", JStr(rec.licenseKey)),
     Member("hostId", JStr(rec.hostId)),
     Member("tier", JStr(TierName(rec.tier))),
     Member("features", FeaturesJson(rec.features)),
     Member("lastActivatedAt", JStr(rec.lastActivatedAt))]
  }

  /** `res.json(activeLicense)`: `undefined` licensee fields are omitted. */
  function RecordJson(rec: ActiveLicense): Json {
    JObj(FixedMembers(rec)
         + OptionalMember("licenseeName", rec.licenseeName)
         + OptionalMember("licenseeEmail", rec.licenseeEmail))
  }

  /** `/api/license-state`: the FREE default when nothing is cached, else the record itself. */
  function StateView(active: Option<ActiveLicense>): Json {
    if active.None? then FreeView else RecordJson(active.value)
  }

  /** A key that occurs once among the fixed members of an object and never in the
      members appended after them reads back its fixed value. */
  lemma GetFixedMember(fixed: seq<Member>, tail: seq<Member>, i: nat, key: string)
    requires i < |fixed| && fixed[i].key == key
    requires forall k :: 0 <= k < |fixed| && k != i ==> fixed[k].key != key
    requires forall k :: 0 <= k < |tail| ==> tail[k].key != key
    ensures Get(JObj(fixed + tail), key) == Some(fixed[i].value)
  {
    var ms := fixed + tail;
    forall k | 0 <= k < |ms| && k != i
      ensures ms[k].key != key
    {
      if k >= |fixed| { assert ms[k] == tail[k - |fixed|]; }
    }
    GetUnique(ms, i, key);
  }

  /** An optional member placed after all others, with keys distinct from it, reads back as itself. */
  lemma GetOptionalMember(fixed: seq<Member>, key: string, v: Option<Json>, tail: seq<Member>)
    requires forall k :: 0 <= k < |fixed| ==> fixed[k].key != key
    requires forall k :: 0 <= k < |tail| ==> tail[k].key != key
    ensures Get(JObj(fixed + OptionalMember(key, v) + tail), key) == v
  {
    var ms := fixed + OptionalMember(key, v) + tail;
    if v.Some? {
      GetFixedMember(fixed + OptionalMember(key, v), tail, |fixed|, key);
    } else {
      assert ms == fixed + tail;
      forall k | 0 <= k < |ms| ensures ms[k].key != key {
        if k >= |fixed| { assert ms[k] == tail[k - |fixed|]; }
      }
    }
  }

  /** The FREE default says tier FREE with no features and carries no key. */
  lemma FreeViewReadsBack()
    ensures Get(FreeView, "tier") == Some(JStr("FREE"))
    ensures Get(FreeView, "features") == Some(FeaturesJson([]))
    ensures Get(FreeView, "licenseKey") == None
  {
    GetUnique(FreeView.members, 0, "tier");
    GetUnique(FreeView.members, 1, "features");
    assert FeaturesJson([]) == JArr([]);
  }

  /** Every field of a cached record reads back from its projection. */
  lemma RecordReadsBack(rec: ActiveLicense)
    ensures
      var v := RecordJson(rec);
      && Get(v, "licenseKey") == Some(JStr(rec.licenseKey))
      && Get(v, "hostId") == Some(JStr(rec.hostId))
      && Get(v, "tier") == Some(JStr(TierName(rec.tier)))
      && Get(v, "features") == Some(FeaturesJson(rec.features))
      && Get(v, "lastActivatedAt") == Some(JStr(rec.lastActivatedAt))
      && Get(v, "licenseeName") == rec.licenseeName
      && Get(v, "licenseeEmail") == rec.licenseeEmail
  {
    FixedReadsBack(rec, 0, "licenseKey");
    FixedReadsBack(rec, 1, "hostId");
    FixedReadsBack(rec, 2, "tier");
    FixedReadsBack(rec, 3, "features");
    FixedReadsBack(rec, 4, "lastActivatedAt");
    LicenseeReadsBack(rec);
  }

  lemma FixedReadsBack(rec: ActiveLicense, i: nat, key: string)
    requires i < 5 && key == ["licenseKey", "hostId", "tier", "features", "lastActivatedAt"][i]
    ensures Get(RecordJson(rec), key) == Some(FixedMembers(rec)[i].value)
  {
    var fixed := FixedMembers(rec);
    var name := OptionalMember("licenseeName", rec.licenseeName);
    var email := OptionalMember("licenseeEmail", rec.licenseeEmail);
    var tail := name + email;
    assert RecordJson(rec).members == fixed + tail;
    forall k | 0 <= k < |tail| ensures tail[k].key != key {
      if k < |name| { assert tail[k] == name[k]; } else { assert tail[k] == email[k - |name|]; }
    }
    GetFixedMember(fixed, tail, i, key);
  }

  lemma LicenseeReadsBack(rec: ActiveLicense)
    ensures Get(RecordJson(rec), "licenseeName") == rec.licenseeName
    ensures Get(RecordJson(rec), "licenseeEmail") == rec.licenseeEmail
  {
    var fixed := FixedMembers(rec);
    var name := OptionalMember("licenseeName", rec.licenseeName);
    var email := OptionalMember("licenseeEmail", rec.licenseeEmail);
    assert forall k :: 0 <= k < |email| ==> email[k].key == "licenseeEmail";
    GetOptionalMember(fixed, "licenseeName", rec.licenseeName, email);
    var front: seq<Member> := fixed + name;
    assert forall k :: 0 <= k < |front| ==> front[k].key != "licenseeEmail";
    GetOptionalMember(front, "licenseeEmail", rec.licenseeEmail, []);
    assert fixed + name + email + [] == fixed + name + email;
  }

  /** `/api/license-state` reads back the cached record, or the FREE default. */
  lemma StateViewReadsBack(active: Option<ActiveLicense>)
    ensures Get(StateView(active), "tier") ==
      Some(JStr(if active.Some? then TierName(active.value.tier) else "FREE"))
    ensures Get(StateView(active), "features") ==
      Some(FeaturesJson(if active.Some? then active.value.features else []))
    ensures active.None? <==> Get(StateView(active), "licenseKey").None?
  {
    if active.None? {
      FreeViewReadsBack();
    } else {
      RecordReadsBack(active.value);
    }
  }

  // ----- The feature guard -----

  /** What `requireFeature(feature)` does: call `next()` or answer a denial. */
  datatype Guard = Next | Deny(reply: Reply)

  function RequireFeature(active: Option<ActiveLicense>, feature: string): (g: Guard)
    ensures g.Next? <==> active.Some? && feature in active.value.features
    ensures active.None? ==> g == Deny(DenyReply(402, "No active license", feature))
    ensures active.Some? && feature !in active.value.features ==>
      g == Deny(DenyReply(403, "Feature not available for current license", feature))
  {
    if active.None? then Deny(DenyReply(402, "No active license", feature))
    else if feature !in active.value.features then
      Deny(DenyReply(403, "Feature not available for current license", feature))
    else Next
  }

  /** `GET /api/feature/<name>`: `None` when no such gated route exists. */
  function FeatureReply(active: Option<ActiveLicense>, name: string): (r: Option<Reply>)
    ensures r.Some? <==> name in FeatureRoutes
    ensures r.Some? ==> (r.value.status == 200 <==> active.Some? && name in active.value.features)
    ensures r.Some? && r.value.status == 200 ==> r.value == FeatureOkReply(name)
    ensures r.Some? && active.None? ==> r.value.status == 402
    // a denied request gets exactly the guard's reply: 402 with nothing cached, 403 when not listed
    ensures r.Some? && RequireFeature(active, name).Deny? ==> r.value == RequireFeature(active, name).reply
  {
    if name !in FeatureRoutes then None
    else
      match RequireFeature(active, name)
      case Next => Some(FeatureOkReply(name))
      case Deny(reply) => Some(reply)
  }

  /** The catch-all for removed endpoints. */
  function LegacyReply(path: string): (r: Option<Reply>)
    ensures r.Some? <==> path in LegacyPaths
    ensures r.Some? ==> r.value.status == 410
  {
    if path in LegacyPaths then Some(LegacyReplyValue) else None
  }

  // ----- The handlers as one transition system -----

  /** One request to the gate's endpoints. */
  datatype Call =
    | EnterCall(body: Json, suffix: string, now: string, remote: ActivationRequest -> RemoteOutcome)
    | ClearCall
    | StateCall
    | FeatureCall(name: string)
    | LegacyCall(path: string)

  /** One atomic handler step: the new cache and the reply (`None` when no route of the gate matches). */
  function Step(active: Option<ActiveLicense>, productId: Option<string>, call: Call)
    : (r: (Option<ActiveLicense>, Option<Reply>))
    ensures Entitled(active) ==> Entitled(r.0)
    // only activation and clearing write the cache
    ensures !call.EnterCall? && !call.ClearCall? ==> r.0 == active
    ensures call.ClearCall? ==> r.0 == None
  {
    match call
    case EnterCall(body, suffix, now, remote) =>
      var (a, reply) := Activate(active, productId, body, suffix, now, remote);
      (a, Some(reply))
    case ClearCall => (None, Some(ClearedReply()))
    case StateCall => (active, Some(Reply(200, StateView(active))))
    case FeatureCall(name) => (active, FeatureReply(active, name))
    case LegacyCall(path) => (active, LegacyReply(path))
  }

  /** The cache after a sequence of requests served from process start. */
  function Run(productId: Option<string>, calls: seq<Call>): Option<ActiveLicense>
    decreases |calls|
  {
    if calls == [] then None
    else Step(Run(productId, calls[..|calls| - 1]), productId, calls[|calls| - 1]).0
  }

  /** Every reachable cache is a PRO record with the fixed capability list, or nothing. */
  lemma {:induction false} RunEntitled(productId: Option<string>, calls: seq<Call>)
    ensures Entitled(Run(productId, calls))
    decreases |calls|
  {
    if calls != [] {
      RunEntitled(productId, calls[..|calls| - 1]);
    }
  }

  /** In every reachable state the guard passes exactly when a license is active: the
      403 branch is never taken for the two gated features. */
  lemma {:induction false} ReachableGuard(productId: Option<string>, calls: seq<Call>, feature: string)
    requires feature in ProFeatures
    ensures RequireFeature(Run(productId, calls), feature).Next? <==> Run(productId, calls).Some?
    ensures RequireFeature(Run(productId, calls), feature).Deny? ==>
      RequireFeature(Run(productId, calls), feature).reply.status == 402
  {
    RunEntitled(productId, calls);
  }

  /** Clearing twice is clearing once: same cache, same reply. */
  lemma ClearIdempotent(active: Option<ActiveLicense>, productId: Option<string>)
    ensures Step(Step(active, productId, ClearCall).0, productId, ClearCall)
         == Step(active, productId, ClearCall)
  {
  }

  // ----- The server object -----

  /** The process-wide state: the configured product id and the `activeLicense` cache. */
  class Gate {
    const productId: Option<string>
    var active: Option<ActiveLicense>

    ghost predicate Valid()
      reads this
    {
      Entitled(active)
    }

    /** Process start: nothing is cached. */
    constructor (productId: Option<string>)
      ensures Valid() && this.productId == productId && active == None
    {
      this.productId := productId;
      active := None;
    }

    /** POST /api/enter-license */
    method EnterLicense(body: Json, suffix: string, now: string, remote: ActivationRequest -> RemoteOutcome)
      returns (reply: Reply)
      requires Valid()
      modifies this
      ensures Valid()
      ensures (active, reply) == Activate(old(active), productId, body, suffix, now, remote)
    {
      var parsed := ParseBody(body);
      if parsed.Failure? {
        reply := ServerError(ValidationMessage(parsed.error));
        return;
      }
      var req := parsed.value;
      var activationHost := ActivationHost(req.hostId, suffix);
      var outcome := remote(ActivationRequest(productId, req.licenseKey, activationHost, req.deviceTag));
      match outcome {
        case Activated(data) =>
          if data == JNull {
            reply := ServerError(NullDataMessage);
          } else {
            active := Some(ActiveLicense(req.licenseKey, activationHost, Pro, ProFeatures, now,
                                         Get(data, "licenseeName"), Get(data, "licenseeEmail")));
            reply := Reply(200, ActivatedBody(active.value));
          }
        case HttpError(status, data) =>
          reply := Reply(status, data);
        case TransportError(message) =>
          reply := ServerError(message);
      }
    }

    /** POST /api/clear-license */
    method ClearLicense() returns (reply: Reply)
      modifies this
      ensures Valid() && active == None
      ensures reply == ClearedReply()
    {
      active := None;
      reply := ClearedReply();
    }

    /** GET /api/license-state */
    method LicenseState() returns (reply: Reply)
      ensures reply == Reply(200, StateView(active))
    {
      if active.None? {
        return Reply(200, FreeView);
      }
      reply := Reply(200, RecordJson(active.value));
    }

    /** GET /api/feature/<name> */
    method Feature(name: string) returns (reply: Option<Reply>)
      ensures reply == FeatureReply(active, name)
    {
      if name !in FeatureRoutes {
        return None;
      }
      var guard := RequireFeature(active, name);
      if guard.Deny? {
        return Some(guard.reply);
      }
      reply := Some(FeatureOkReply(name));
    }

    /** Any method on a removed endpoint. */
    method Legacy(path: string) returns (reply: Option<Reply>)
      ensures reply == LegacyReply(path)
    {
      reply := if path in LegacyPaths then Some(LegacyReplyValue) else None;
    }

    /** Dispatch of one request to its handler. */
    method Handle(call: Call) returns (reply: Option<Reply>)
      requires Valid()
      modifies this
      ensures Valid()
      ensures (active, reply) == Step(old(active), productId, call)
    {
      match call {
        case EnterCall(body, suffix, now, remote) =>
          var r := EnterLicense(body, suffix, now, remote);
          reply := Some(r);
        case ClearCall =>
          var r := ClearLicense();
          reply := Some(r);
        case StateCall =>
          var r := LicenseState();
          reply := Some(r);
        case FeatureCall(name) =>
          reply := Feature(name);
        case LegacyCall(path) =>
          reply := Legacy(path);
      }
    }
  }
}
