/**
 * The HTTP client of client.go: the per-zone endpoint, URL building that
 * never touches the stored endpoint, authenticated requests, the
 * classification of a reply, and the Add* helpers that POST a record and
 * decode the answer back into it.
 */
module Clients {
  import opened Wrappers
  import opened Ints
  import opened Decimal
  import opened Paths
  import opened JsonView
  import opened Errors
  import opened Http
  import opened Records

  /** APIENDPOINT, "https://cp.gehirn.jp/api/dns/", as url.Parse splits it. */
  const ApiEndpoint: UrlValue := UrlValue("https", "cp.gehirn.jp", ["api", "dns"])

  const ContentType: string := "text/json;charset=utf8"

  datatype ApiKey = ApiKey(token: string, secret: string)

  /**
   * The endpoint path of the client for a zone: the API path, then
   * "resource", then the zone id in decimal. The id goes through Go's
   * `int(zoneId)`, so an id of 2^63 or more prints as a negative number.
   */
  function EndpointPath(zoneId: Uint64): (p: Path)
    ensures p == ["api", "dns", "resource", Itoa(Wrap64(zoneId))]
    ensures zoneId <= MaxInt64 ==> ParseInt(p[3]) == zoneId
    ensures zoneId > MaxInt64 ==> p[3][0] == '-'
  {
    var w := Wrap64(zoneId);
    var s := Itoa(w);
    ItoaRoundTrip(w);
    NonEmptyKeepsAll(["resource", s]);
    assert zoneId > MaxInt64 ==> w < 0;
    Join(ApiEndpoint.path, ["resource", s])
  }

  /**
   * Clients for distinct zones talk to distinct endpoints: `int(zoneId)`
   * is one-to-one on uint64, since two ids it maps to the same int64 differ
   * by a multiple of 2^64 and lie less than 2^64 apart.
   */
  lemma DistinctZonesDistinctEndpoints(z1: Uint64, z2: Uint64)
    requires z1 != z2
    ensures EndpointPath(z1) != EndpointPath(z2)
  {
    var w1, w2 := Wrap64(z1), Wrap64(z2);
    Wrap64InjectiveOnUint64(z1, z2);
    ItoaInjective(w1, w2);
    assert EndpointPath(z1)[3] != EndpointPath(z2)[3];
  }

  /**
   * The message of a non-200 reply whose body decodes into
   * `struct{ Error struct{ Code uint; Message string } }`, or None when it
   * does not decode (not JSON, or a member of the wrong type). A body that
   * decodes but carries no message gives the empty message.
   */
  function DecodeErrorBody(b: Body): (msg: Option<string>)
    ensures b.Malformed? ==> msg == None
    ensures b.WellFormed? && !(b.json.JObj? || b.json.JNull?) ==> msg == None
  {
    match b
    case Malformed => None
    case WellFormed(j) =>
      match j
      case JNull => Some("")
      case JObj(m) => if "error" !in m then Some("") else DecodeErrorObject(m["error"])
      case _ => None
  }

  /**
   * The "error" member decoded into `struct{ Code uint; Message string }`:
   * the message, or None when a member has the wrong type or the code does
   * not fit a uint.
   */
  function DecodeErrorObject(j: Json): (msg: Option<string>)
    ensures j.JNull? ==> msg == Some("")
    ensures !(j.JNull? || j.JObj?) ==> msg == None
    ensures j.JObj? && "code" in j.fields && j.fields["code"].JNum? && !(0 <= j.fields["code"].n <= MaxUint64) ==>
              msg == None
    ensures j.JObj? && "message" in j.fields && !(j.fields["message"].JStr? || j.fields["message"].JNull?) ==>
              msg == None
    ensures j.JObj? && "message" in j.fields && j.fields["message"].JStr? &&
            ("code" !in j.fields || j.fields["code"].JNull? ||
             (j.fields["code"].JNum? && 0 <= j.fields["code"].n <= MaxUint64)) ==>
              msg == Some(j.fields["message"].s)
    ensures msg.Some? && j.JObj? && msg.value != "" ==> "message" in j.fields && j.fields["message"] == JStr(msg.value)
  {
    match j
    case JNull => Some("")
    case JObj(e) =>
      var (_, okCode) := StoreInt(0, e, "code", 0, MaxUint64);
      var (message, okMessage) := StoreString("", e, "message");
      if okCode && okMessage then Some(message) else None
    case _ => None
  }

  /** The provider's error document `{"error": {"code": code, "message": message}}`. */
  function ErrorDocument(code: int, message: string): Json
  {
    JObj(map["error" := JObj(map["code" := JNum(code), "message" := JStr(message)])])
  }

  /** A well-formed provider error yields exactly its message. */
  lemma ErrorDocumentDecodes(code: Uint64, message: string)
    ensures DecodeErrorBody(WellFormed(ErrorDocument(code, message))) == Some(message)
  {
  }

  /**
   * `request`: classify the reply of one round trip and decode a 200 body
   * into `target`. A transport failure is returned as it is; a status other
   * than 200 gives the provider's message when the body decodes as an error
   * document and the status line otherwise, and never touches the target; a
   * 200 reply is decoded into the target and a decoding failure is returned.
   */
  function Request<T>(rt: RoundTrip, target: T, decode: (T, Json) -> (T, bool)): (out: (T, Option<Error>))
    ensures rt.Failed? ==> out == (target, Some(TransportError(rt.reason)))
    ensures rt.Received? && rt.response.statusCode != 200 ==> out.0 == target
    ensures rt.Received? && rt.response.statusCode != 200 && DecodeErrorBody(rt.response.body).None? ==>
              out.1 == Some(Message(rt.response.status))
    ensures rt.Received? && rt.response.statusCode != 200 && DecodeErrorBody(rt.response.body).Some? ==>
              out.1 == Some(Message(DecodeErrorBody(rt.response.body).value))
    ensures rt.Received? && rt.response.statusCode == 200 && rt.response.body.Malformed? ==>
              out == (target, Some(JsonError))
    ensures rt.Received? && rt.response.statusCode == 200 && rt.response.body.WellFormed? ==>
              var (decoded, ok) := decode(target, rt.response.body.json);
              out == (decoded, if ok then None else Some(JsonError))
  {
    match rt
    case Failed(reason) => (target, Some(TransportError(reason)))
    case Received(resp) =>
      if resp.statusCode != 200 then
        match DecodeErrorBody(resp.body)
        case None => (target, Some(Message(resp.status)))
        case Some(message) => (target, Some(Message(message)))
      else
        match resp.body
        case Malformed => (target, Some(JsonError))
        case WellFormed(j) =>
          var (decoded, ok) := decode(target, j);
          (decoded, if ok then None else Some(JsonError))
  }

  /** A 404 whose body reads `{"error":{"code":404,"message":"not found"}}` fails with "not found". */
  lemma NotFoundMessage<T>(target: T, decode: (T, Json) -> (T, bool))
    ensures var rt := Received(Response(404, "404 Not Found", WellFormed(ErrorDocument(404, "not found"))));
            Request(rt, target, decode) == (target, Some(Message("not found")))
  {
    ErrorDocumentDecodes(404, "not found");
  }

  /** A non-200 reply whose body is not JSON fails with the status line, not with a decoding error. */
  lemma UnparseableErrorGivesStatus<T>(target: T, decode: (T, Json) -> (T, bool), code: int, status: string)
    requires code != 200
    ensures Request(Received(Response(code, status, Malformed)), target, decode) == (target, Some(Message(status)))
  {
  }

  /**
   * A non-200 reply whose body is a JSON object without an "error" member
   * decodes cleanly, so the error carries the empty message rather than the
   * status line.
   */
  lemma MessagelessErrorIsEmpty<T>(target: T, decode: (T, Json) -> (T, bool), code: int, status: string,
                                   m: map<string, Json>)
    requires code != 200 && "error" !in m
    ensures Request(Received(Response(code, status, WellFormed(JObj(m)))), target, decode) == (target, Some(Message("")))
  {
  }

  /** The POST that AddResource sends: the record's envelope, to the client endpoint itself. */
  function PostRequest(endpoint: UrlValue, key: ApiKey, r: Record): (req: HttpRequest)
    ensures req.url == endpoint
    ensures req.httpMethod == "POST" && req.body == Some(ResourceEnvelope(r))
    ensures req.user == key.token && req.password == key.secret
  {
    HttpRequest("POST", endpoint.(path := Join(endpoint.path, [""])), key.token, key.secret,
                [("Content-Type", ContentType)], Some(ResourceEnvelope(r)))
  }

  /** The caller's record and the error after AddResource, given the transport's reply. */
  function AddResult(endpoint: UrlValue, key: ApiKey, r: Record, transport: HttpRequest -> RoundTrip): (out: (Record, Option<Error>))
    ensures KindOf(out.0) == KindOf(r)
    ensures var rt := transport(PostRequest(endpoint, key, r));
            rt.Failed? ==> out == (r, Some(TransportError(rt.reason)))
    ensures out.1.None? ==> var rt := transport(PostRequest(endpoint, key, r));
              rt.Received? && rt.response.statusCode == 200 && rt.response.body.WellFormed?
  {
    Request(transport(PostRequest(endpoint, key, r)), r, DecodeResourceEnvelope)
  }

  /** When the server echoes the record with an id, the caller's record gains that id and nothing fails. */
  lemma AddPicksUpServerId(endpoint: UrlValue, key: ApiKey, r: Record, id: string,
                           transport: HttpRequest -> RoundTrip)
    requires id != ""
    requires transport(PostRequest(endpoint, key, r)) ==
             Received(Response(200, "200 OK", WellFormed(ResourceEnvelope(r.(env := r.env.(id := id))))))
    ensures AddResult(endpoint, key, r, transport) == (r.(env := r.env.(id := id)), None)
  {
    EchoAssignsId(r, id);
  }

  /** A failed POST leaves the caller's record as it was. */
  lemma AddFailureKeepsRecord(endpoint: UrlValue, key: ApiKey, r: Record, transport: HttpRequest -> RoundTrip)
    requires transport(PostRequest(endpoint, key, r)).Failed? ||
             transport(PostRequest(endpoint, key, r)).response.statusCode != 200
    ensures AddResult(endpoint, key, r, transport).0 == r
    ensures AddResult(endpoint, key, r, transport).1.Some?
  {
  }

  class Client {
    const endpoint: Url
    const apiKey: ApiKey

    /** NewClient: the API endpoint with "resource/{zoneId}" appended. */
    constructor (zoneId: Uint64, apiKey: ApiKey)
      ensures fresh(endpoint) && this.apiKey == apiKey
      ensures endpoint.Value() == ApiEndpoint.(path := EndpointPath(zoneId))
    {
      var e := new Url(ApiEndpoint);
      e.path := Join(e.path, ["resource", Itoa(Wrap64(zoneId))]);
      endpoint := e;
      this.apiKey := apiKey;
    }

    /**
     * A new URL: a copy of the endpoint whose path has `relativePath`
     * joined on. The stored endpoint is not modified, so every call joins
     * onto the same base.
     */
    method BuildURL(relativePath: string) returns (u: Url)
      ensures fresh(u)
      ensures u.Value() == endpoint.Value().(path := Join(endpoint.path, [relativePath]))
    {
      u := new Url(endpoint.Value());
      u.path := Join(u.path, [relativePath]);
    }

    /** A request to `relativePath` with the token and secret as basic-auth credentials and the JSON content type. */
    method MakeRequest(httpMethod: string, relativePath: string, body: Option<Json>) returns (req: HttpRequest)
      ensures req.httpMethod == httpMethod && req.body == body
      ensures req.url == endpoint.Value().(path := Join(endpoint.path, [relativePath]))
      ensures req.user == apiKey.token && req.password == apiKey.secret
      ensures req.headers == [("Content-Type", ContentType)]
    {
      var u := BuildURL(relativePath);
      req := HttpRequest(httpMethod, u.Value(), apiKey.token, apiKey.secret,
                         [("Content-Type", ContentType)], body);
    }

    /**
     * POST the record's envelope to the endpoint and decode the reply into
     * the same envelope, which holds the caller's record. There is no id
     * check in this revision.
     */
    method AddResource(record: RecordRef, transport: HttpRequest -> RoundTrip)
      returns (err: Option<Error>, sent: HttpRequest)
      modifies record
      ensures sent == PostRequest(endpoint.Value(), apiKey, old(record.rec))
      ensures (record.rec, err) == AddResult(endpoint.Value(), apiKey, old(record.rec), transport)
    {
      sent := MakeRequest("POST", "", Some(ResourceEnvelope(record.rec)));
      var out := Request(transport(sent), record.rec, DecodeResourceEnvelope);
      record.rec, err := out.0, out.1;
    }

    method AddNS(name: string, ns: string, ttl: Int64, transport: HttpRequest -> RoundTrip)
      returns (record: RecordRef, err: Option<Error>)
      ensures fresh(record)
      ensures (record.rec, err) == AddResult(endpoint.Value(), apiKey, NewNS(name, ns, ttl), transport)
    {
      record := new RecordRef(NewNS(name, ns, ttl));
      var sent;
      err, sent := AddResource(record, transport);
    }

    method AddA(name: string, addr: string, ttl: Int64, transport: HttpRequest -> RoundTrip)
      returns (record: RecordRef, err: Option<Error>)
      ensures fresh(record)
      ensures (record.rec, err) == AddResult(endpoint.Value(), apiKey, NewA(name, addr, ttl), transport)
    {
      record := new RecordRef(NewA(name, addr, ttl));
      var sent;
      err, sent := AddResource(record, transport);
    }

    method AddAAAA(name: string, addr: string, ttl: Int64, transport: HttpRequest -> RoundTrip)
      returns (record: RecordRef, err: Option<Error>)
      ensures fresh(record)
      ensures (record.rec, err) == AddResult(endpoint.Value(), apiKey, NewAAAA(name, addr, ttl), transport)
    {
      record := new RecordRef(NewAAAA(name, addr, ttl));
      var sent;
      err, sent := AddResource(record, transport);
    }

    method AddCNAME(name: string, to: string, ttl: Int64, transport: HttpRequest -> RoundTrip)
      returns (record: RecordRef, err: Option<Error>)
      ensures fresh(record)
      ensures (record.rec, err) == AddResult(endpoint.Value(), apiKey, NewCNAME(name, to, ttl), transport)
    {
      record := new RecordRef(NewCNAME(name, to, ttl));
      var sent;
      err, sent := AddResource(record, transport);
    }

    method AddMX(name: string, mailServer: string, priority: Uint64, ttl: Int64,
                 transport: HttpRequest -> RoundTrip)
      returns (record: RecordRef, err: Option<Error>)
      ensures fresh(record)
      ensures (record.rec, err) ==
              AddResult(endpoint.Value(), apiKey, NewMX(name, mailServer, priority, ttl), transport)
    {
      record := new RecordRef(NewMX(name, mailServer, priority, ttl));
      var sent;
      err, sent := AddResource(record, transport);
    }

    method AddTXT(name: string, value: string, ttl: Int64, transport: HttpRequest -> RoundTrip)
      returns (record: RecordRef, err: Option<Error>)
      ensures fresh(record)
      ensures (record.rec, err) == AddResult(endpoint.Value(), apiKey, NewTXT(name, value, ttl), transport)
    {
      record := new RecordRef(NewTXT(name, value, ttl));
      var sent;
      err, sent := AddResource(record, transport);
    }

    method AddSRV(name: string, target: string, port: Uint64, weight: Uint64, priority: Uint64, ttl: Int64,
                  transport: HttpRequest -> RoundTrip)
      returns (record: RecordRef, err: Option<Error>)
      ensures fresh(record)
      ensures (record.rec, err) ==
              AddResult(endpoint.Value(), apiKey, NewSRV(name, target, port, weight, priority, ttl), transport)
    {
      record := new RecordRef(NewSRV(name, target, port, weight, priority, ttl));
      var sent;
      err, sent := AddResource(record, transport);
    }
  }
}
