/**
 * The earlier, single-file revision of the client (gehirndns.go). Its
 * record model is the one of record.go (module Records). What differs:
 * requests carry no Content-Type header, a non-200 reply becomes an error
 * holding the status line without its body being read, GetResources fetches
 * the whole zone and requires `is_success`, and the Add* helpers only print
 * the JSON they would send: nothing leaves the client and no error is ever
 * returned.
 */
module GehirnDns {
  import opened Wrappers
  import opened Ints
  import opened Paths
  import opened JsonView
  import opened Errors
  import opened Http
  import opened Records
  import Decimal
  import Clients

  // ---------------------------------------------------------------------
  // The body of a GetResources reply

  /** `Resource` of the reply: the SOA record and the seven record lists. */
  datatype ZoneContents = ZoneContents(
    soa: Record, ns: seq<Record>, a: seq<Record>, aaaa: seq<Record>,
    cname: seq<Record>, mx: seq<Record>, txt: seq<Record>, srv: seq<Record>)

  /** The whole reply: the zone and the `is_success` flag. */
  datatype ResourcesBody = ResourcesBody(resource: ZoneContents, successful: bool)

  /** The zero value of the reply struct, which GetResources decodes into. */
  const EmptyBody: ResourcesBody :=
    ResourcesBody(ZoneContents(Zero(SOA), [], [], [], [], [], [], []), false)

  /** Each list holds records of its own kind and the SOA is an SOA record. */
  predicate WellKinded(c: ZoneContents)
  {
    KindOf(c.soa) == SOA && AllOfKind(c.ns, NS) && AllOfKind(c.a, A) && AllOfKind(c.aaaa, AAAA) &&
    AllOfKind(c.cname, CNAME) && AllOfKind(c.mx, MX) && AllOfKind(c.txt, TXT) && AllOfKind(c.srv, SRV)
  }

  /** One array element, decoded into a fresh element of kind `k`: `null` keeps the zero record, a non-object is a type error. */
  function DecodeItem(k: Kind, j: Json): (out: (Record, bool))
    ensures KindOf(out.0) == k
    ensures j.JNull? ==> out == (Zero(k), true)
    ensures !(j.JNull? || j.JObj?) ==> out == (Zero(k), false)
    ensures j.JObj? ==> out.0.env == DecodeEnvelope(Zero(k).env, j.fields).0
  {
    match j
    case JNull => (Zero(k), true)
    case JObj(f) => DecodeRecord(Zero(k), f)
    case _ => (Zero(k), false)
  }

  /**
   * A JSON array decoded into a nil slice of kind `k`: one record per
   * element, in order, and an error if any element failed.
   */
  function DecodeItems(k: Kind, items: seq<Json>): (out: (seq<Record>, bool))
    ensures |out.0| == |items|
    ensures forall i :: 0 <= i < |items| ==> out.0[i] == DecodeItem(k, items[i]).0
    ensures out.1 <==> forall i :: 0 <= i < |items| ==> DecodeItem(k, items[i]).1
  {
    if items == [] then ([], true)
    else
      var (first, ok) := DecodeItem(k, items[0]);
      var (rest, okRest) := DecodeItems(k, items[1..]);
      assert forall i :: 1 <= i < |items| ==> items[i] == items[1..][i - 1];
      ([first] + rest, ok && okRest)
  }

  /** Member `key` stored into a struct field holding `cur`: absent or `null` keeps it, an object is decoded into it. */
  function StoreRecord(cur: Record, m: map<string, Json>, key: string): (out: (Record, bool))
    ensures KindOf(out.0) == KindOf(cur)
    ensures (key !in m || m[key].JNull?) ==> out == (cur, true)
    ensures key in m && !(m[key].JNull? || m[key].JObj?) ==> out == (cur, false)
    ensures key in m && m[key].JObj? ==> out.0.env == DecodeEnvelope(cur.env, m[key].fields).0
  {
    if key !in m then (cur, true)
    else match m[key]
      case JNull => (cur, true)
      case JObj(f) => DecodeRecord(cur, f)
      case _ => (cur, false)
  }

  /** Member `key` stored into a slice field: absent keeps it, `null` empties it, an array replaces it. */
  function StoreList(cur: seq<Record>, k: Kind, m: map<string, Json>, key: string): (out: (seq<Record>, bool))
    ensures AllOfKind(cur, k) ==> AllOfKind(out.0, k)
    ensures key !in m ==> out == (cur, true)
    ensures key in m && m[key].JNull? ==> out == ([], true)
    ensures key in m && m[key].JArr? ==> |out.0| == |m[key].items| && AllOfKind(out.0, k)
    ensures key in m && m[key].JArr? ==>
              forall i :: 0 <= i < |m[key].items| ==> out.0[i] == DecodeItem(k, m[key].items[i]).0
    ensures key in m && !(m[key].JNull? || m[key].JArr?) ==> out == (cur, false)
  {
    if key !in m then (cur, true)
    else match m[key]
      case JNull => ([], true)
      case JArr(items) => DecodeItems(k, items)
      case _ => (cur, false)
  }

  /** The members of `Resource`, decoded field by field. */
  function DecodeContents(c: ZoneContents, m: map<string, Json>): (out: (ZoneContents, bool))
    ensures WellKinded(c) ==> WellKinded(out.0)
  {
    var (soa, ok0) := StoreRecord(c.soa, m, "SOA");
    var (ns, ok1) := StoreList(c.ns, NS, m, "NS");
    var (a, ok2) := StoreList(c.a, A, m, "A");
    var (aaaa, ok3) := StoreList(c.aaaa, AAAA, m, "AAAA");
    var (cname, ok4) := StoreList(c.cname, CNAME, m, "CNAME");
    var (mx, ok5) := StoreList(c.mx, MX, m, "MX");
    var (txt, ok6) := StoreList(c.txt, TXT, m, "TXT");
    var (srv, ok7) := StoreList(c.srv, SRV, m, "SRV");
    (ZoneContents(soa, ns, a, aaaa, cname, mx, txt, srv), ok0 && ok1 && ok2 && ok3 && ok4 && ok5 && ok6 && ok7)
  }

  /** The reply document decoded into the body struct; a top-level `null` changes nothing. */
  function DecodeBody(b: ResourcesBody, j: Json): (out: (ResourcesBody, bool))
    ensures WellKinded(b.resource) ==> WellKinded(out.0.resource)
    ensures j.JNull? ==> out == (b, true)
    ensures !(j.JNull? || j.JObj?) ==> out == (b, false)
    ensures j.JObj? && ("Resource" !in j.fields || j.fields["Resource"].JNull?) ==> out.0.resource == b.resource
    ensures j.JObj? && "is_success" in j.fields && j.fields["is_success"].JBool? ==>
              out.0.successful == j.fields["is_success"].b
    ensures j.JObj? && ("is_success" !in j.fields || j.fields["is_success"].JNull?) ==>
              out.0.successful == b.successful
    ensures j.JObj? && "is_success" in j.fields && !(j.fields["is_success"].JBool? || j.fields["is_success"].JNull?) ==>
              !out.1
  {
    match j
    case JNull => (b, true)
    case JObj(m) =>
      var (c, okResource) :=
        if "Resource" !in m then (b.resource, true)
        else (match m["Resource"]
              case JNull => (b.resource, true)
              case JObj(f) => DecodeContents(b.resource, f)
              case _ => (b.resource, false));
      var (s, okFlag) := StoreBool(b.successful, m, "is_success");
      (ResourcesBody(c, s), okResource && okFlag)
    case _ => (b, false)
  }

  // ---------------------------------------------------------------------
  // The server's side: a reply that carries a zone

  function EncodeList(records: seq<Record>): (items: seq<Json>)
    ensures |items| == |records|
    ensures forall i :: 0 <= i < |records| ==> items[i] == JObj(EncodeRecord(records[i]))
  {
    seq(|records|, i requires 0 <= i < |records| => JObj(EncodeRecord(records[i])))
  }

  /** The members of `Resource`, holding the given values. */
  function ContentsMap(soa: Json, ns: Json, a: Json, aaaa: Json, cname: Json, mx: Json, txt: Json, srv: Json)
    : (m: map<string, Json>)
    ensures "SOA" in m && m["SOA"] == soa && "NS" in m && m["NS"] == ns
    ensures "A" in m && m["A"] == a && "AAAA" in m && m["AAAA"] == aaaa
    ensures "CNAME" in m && m["CNAME"] == cname && "MX" in m && m["MX"] == mx
    ensures "TXT" in m && m["TXT"] == txt && "SRV" in m && m["SRV"] == srv
  {
    map["SOA" := soa, "NS" := ns, "A" := a, "AAAA" := aaaa, "CNAME" := cname, "MX" := mx, "TXT" := txt, "SRV" := srv]
  }

  /** The members of `Resource` a server sends for zone `c`. */
  function ContentsFields(c: ZoneContents): (m: map<string, Json>)
    ensures "SOA" in m && m["SOA"] == JObj(EncodeRecord(c.soa))
    ensures "NS" in m && m["NS"] == JArr(EncodeList(c.ns))
    ensures "A" in m && m["A"] == JArr(EncodeList(c.a))
    ensures "AAAA" in m && m["AAAA"] == JArr(EncodeList(c.aaaa))
    ensures "CNAME" in m && m["CNAME"] == JArr(EncodeList(c.cname))
    ensures "MX" in m && m["MX"] == JArr(EncodeList(c.mx))
    ensures "TXT" in m && m["TXT"] == JArr(EncodeList(c.txt))
    ensures "SRV" in m && m["SRV"] == JArr(EncodeList(c.srv))
  {
    ContentsMap(JObj(EncodeRecord(c.soa)), JArr(EncodeList(c.ns)), JArr(EncodeList(c.a)), JArr(EncodeList(c.aaaa)),
                JArr(EncodeList(c.cname)), JArr(EncodeList(c.mx)), JArr(EncodeList(c.txt)), JArr(EncodeList(c.srv)))
  }

  /** The document a server sends for zone `c`, flagged successful. */
  function ZoneDocument(c: ZoneContents): (j: Json)
    ensures j.JObj? && "Resource" in j.fields && j.fields["Resource"] == JObj(ContentsFields(c))
    ensures "is_success" in j.fields && j.fields["is_success"] == JBool(true)
  {
    JObj(BodyMap(JObj(ContentsFields(c)), JBool(true)))
  }

  /** The reply's two members, holding the given values. */
  function BodyMap(resource: Json, flag: Json): (m: map<string, Json>)
    ensures "Resource" in m && m["Resource"] == resource && "is_success" in m && m["is_success"] == flag
  {
    map["Resource" := resource, "is_success" := flag]
  }

  /** An encoded list of records of kind `k` decodes back to the same list. */
  lemma ListRoundTrip(k: Kind, records: seq<Record>)
    requires AllOfKind(records, k)
    ensures DecodeItems(k, EncodeList(records)) == (records, true)
  {
    var items := EncodeList(records);
    forall i | 0 <= i < |records|
      ensures DecodeItem(k, items[i]) == (records[i], true)
    {
      ItemRoundTrip(k, records[i]);
    }
    var out := DecodeItems(k, items);
    assert out.0 == records;
  }

  lemma ItemRoundTrip(k: Kind, r: Record)
    requires KindOf(r) == k
    ensures DecodeItem(k, JObj(EncodeRecord(r))) == (r, true)
  {
    RecordRoundTrip(r);
  }

  /** A member holding the encoding of a list of kind `k` is stored as that list. */
  lemma StoreListEncoded(k: Kind, records: seq<Record>, m: map<string, Json>, key: string)
    requires AllOfKind(records, k)
    requires key in m && m[key] == JArr(EncodeList(records))
    ensures StoreList([], k, m, key) == (records, true)
  {
    ListRoundTrip(k, records);
  }

  /** Decoding the members of an encoded zone into the empty zone gives the zone back, with no error. */
  lemma ContentsRoundTrip(c: ZoneContents)
    requires WellKinded(c)
    ensures DecodeContents(EmptyBody.resource, ContentsFields(c)) == (c, true)
  {
    var m := ContentsFields(c);
    RecordRoundTrip(c.soa);
    assert StoreRecord(Zero(SOA), m, "SOA") == (c.soa, true);
    StoreListEncoded(NS, c.ns, m, "NS");
    StoreListEncoded(A, c.a, m, "A");
    StoreListEncoded(AAAA, c.aaaa, m, "AAAA");
    StoreListEncoded(CNAME, c.cname, m, "CNAME");
    StoreListEncoded(MX, c.mx, m, "MX");
    StoreListEncoded(TXT, c.txt, m, "TXT");
    StoreListEncoded(SRV, c.srv, m, "SRV");
  }

  // ---------------------------------------------------------------------
  // Requests

  /**
   * `request`: a transport failure is returned as is, a non-200 reply
   * becomes an error holding its status line (the body is not read), and a
   * 200 body is decoded into the target.
   */
  function Request<T>(rt: RoundTrip, target: T, decode: (T, Json) -> (T, bool)): (out: (T, Option<Error>))
    ensures rt.Failed? ==> out == (target, Some(TransportError(rt.reason)))
    ensures rt.Received? && rt.response.statusCode != 200 ==> out == (target, Some(Message(rt.response.status)))
    ensures rt.Received? && rt.response.statusCode == 200 && rt.response.body.Malformed? ==>
              out == (target, Some(JsonError))
    ensures rt.Received? && rt.response.statusCode == 200 && rt.response.body.WellFormed? ==>
              var (decoded, ok) := decode(target, rt.response.body.json);
              out == (decoded, if ok then None else Some(JsonError))
  {
    match rt
    case Failed(reason) => (target, Some(TransportError(reason)))
    case Received(resp) =>
      if resp.statusCode != 200 then (target, Some(Message(resp.status)))
      else
        match resp.body
        case Malformed => (target, Some(JsonError))
        case WellFormed(j) =>
          var (decoded, ok) := decode(target, j);
          (decoded, if ok then None else Some(JsonError))
  }

  /** The text of the error returned when the reply is not flagged successful. */
  const Unsuccessful: string := "unsuccessful"

  /**
   * What GetResources prints and returns for one round trip: the zone is
   * printed exactly when no error is returned, and that takes a 200 reply
   * that decodes and is flagged successful.
   */
  function GetResourcesOutcome(rt: RoundTrip): (out: (Option<ZoneContents>, Option<Error>))
    ensures out.0.Some? <==> out.1.None?
    ensures out.1.None? ==> rt.Received? && rt.response.statusCode == 200 && rt.response.body.WellFormed?
    ensures out.0.Some? ==> WellKinded(out.0.value)
  {
    var (body, err) := Request(rt, EmptyBody, DecodeBody);
    if err.Some? then (None, err)
    else if !body.successful then (None, Some(Message(Unsuccessful)))
    else (Some(body.resource), None)
  }

  /** A reply carrying a zone, flagged successful, is printed as exactly that zone. */
  lemma GetResourcesReturnsZone(c: ZoneContents, status: string)
    requires WellKinded(c)
    ensures GetResourcesOutcome(Received(Response(200, status, WellFormed(ZoneDocument(c))))) == (Some(c), None)
  {
    BodyRoundTrip(c);
  }

  /** The whole server document decodes into the empty body as the zone, flagged successful. */
  lemma BodyRoundTrip(c: ZoneContents)
    requires WellKinded(c)
    ensures DecodeBody(EmptyBody, ZoneDocument(c)) == (ResourcesBody(c, true), true)
  {
    ContentsRoundTrip(c);
    BodyDecodesMembers(ZoneDocument(c).fields, ContentsFields(c), c);
  }

  /** A body object whose `Resource` decodes to `c` and whose flag is true decodes to exactly that. */
  lemma BodyDecodesMembers(m: map<string, Json>, f: map<string, Json>, c: ZoneContents)
    requires "Resource" in m && m["Resource"] == JObj(f) && DecodeContents(EmptyBody.resource, f) == (c, true)
    requires "is_success" in m && m["is_success"] == JBool(true)
    ensures DecodeBody(EmptyBody, JObj(m)) == (ResourcesBody(c, true), true)
  {
  }

  /** A 200 reply whose body decodes cleanly is accepted if and only if it says `"is_success": true`. */
  lemma SuccessFlagDecides(m: map<string, Json>, status: string)
    requires DecodeBody(EmptyBody, JObj(m)).1
    ensures var out := GetResourcesOutcome(Received(Response(200, status, WellFormed(JObj(m)))));
            out.1.None? <==> ("is_success" in m && m["is_success"] == JBool(true))
    ensures var out := GetResourcesOutcome(Received(Response(200, status, WellFormed(JObj(m)))));
            out.1.Some? ==> out.1 == Some(Message(Unsuccessful))
  {
  }

  /** A refused request reports its status line and prints nothing, whatever the body says. */
  lemma RefusedReplyReportsStatus(code: int, status: string, body: Body)
    requires code != 200
    ensures GetResourcesOutcome(Received(Response(code, status, body))) == (None, Some(Message(status)))
  {
  }

  // ---------------------------------------------------------------------
  // The client

  class Client {
    const endpoint: Url
    const apiToken: string
    const apiSecret: string

    /** NewClient: the API endpoint with "resource/{zoneId}" appended, as in the later revision. */
    constructor (zoneId: Uint64, apiToken: string, apiSecret: string)
      ensures fresh(endpoint) && this.apiToken == apiToken && this.apiSecret == apiSecret
      ensures endpoint.Value() == Clients.ApiEndpoint.(path := Clients.EndpointPath(zoneId))
    {
      var e := new Url(Clients.ApiEndpoint);
      e.path := Join(e.path, ["resource", Decimal.Itoa(Wrap64(zoneId))]);
      endpoint := e;
      this.apiToken := apiToken;
      this.apiSecret := apiSecret;
    }

    /** A copy of the endpoint with `relativePath` joined on; the endpoint itself is untouched. */
    method BuildURL(relativePath: string) returns (u: Url)
      ensures fresh(u)
      ensures u.Value() == endpoint.Value().(path := Join(endpoint.path, [relativePath]))
    {
      u := new Url(endpoint.Value());
      u.path := Join(u.path, [relativePath]);
    }

    /** A request with the token and secret as basic-auth credentials and no header besides the Authorization header they make. */
    method MakeRequest(httpMethod: string, relativePath: string, body: Option<Json>) returns (req: HttpRequest)
      ensures req.httpMethod == httpMethod && req.body == body
      ensures req.url == endpoint.Value().(path := Join(endpoint.path, [relativePath]))
      ensures req.user == apiToken && req.password == apiSecret
      ensures req.headers == []
    {
      var u := BuildURL(relativePath);
      req := HttpRequest(httpMethod, u.Value(), apiToken, apiSecret, [], body);
    }

    /**
     * GetResources: GET the endpoint itself, decode the reply into an empty
     * body, and print the zone when the reply is flagged successful.
     */
    method GetResources(transport: HttpRequest -> RoundTrip)
      returns (err: Option<Error>, printed: Option<ZoneContents>, sent: HttpRequest)
      ensures sent == HttpRequest("GET", endpoint.Value(), apiToken, apiSecret, [], None)
      ensures (printed, err) == GetResourcesOutcome(transport(sent))
    {
      sent := MakeRequest("GET", "", None);
      assert NonEmpty([""]) == [];
      var reply := Request(transport(sent), EmptyBody, DecodeBody);
      var body := reply.0;
      err := reply.1;
      if err.Some? {
        printed := None;
        return;
      }
      if !body.successful {
        err, printed := Some(Message(Unsuccessful)), None;
        return;
      }
      printed := Some(body.resource);
    }

    /** AddResource: print `{"Resource": record}` and report no error; nothing is sent and the record is not touched. */
    method AddResource(record: RecordRef) returns (err: Option<Error>, printed: Json)
      ensures err == None && printed == ResourceEnvelope(record.rec)
    {
      printed := ResourceEnvelope(record.rec);
      err := None;
    }

    /** AddNS: a new NS record, printed; the error result is never set. */
    method AddNS(name: string, ns: string, ttl: Int64) returns (record: RecordRef, err: Option<Error>, printed: Json)
      ensures fresh(record) && record.rec == NewNS(name, ns, ttl)
      ensures err == None && printed == ResourceEnvelope(NewNS(name, ns, ttl))
    {
      record := new RecordRef(NewNS(name, ns, ttl));
      var discarded;
      discarded, printed := AddResource(record);
      err := None;
    }

    method AddA(name: string, addr: string, ttl: Int64) returns (record: RecordRef, err: Option<Error>, printed: Json)
      ensures fresh(record) && record.rec == NewA(name, addr, ttl)
      ensures err == None && printed == ResourceEnvelope(NewA(name, addr, ttl))
    {
      record := new RecordRef(NewA(name, addr, ttl));
      var discarded;
      discarded, printed := AddResource(record);
      err := None;
    }

    method AddAAAA(name: string, addr: string, ttl: Int64) returns (record: RecordRef, err: Option<Error>, printed: Json)
      ensures fresh(record) && record.rec == NewAAAA(name, addr, ttl)
      ensures err == None && printed == ResourceEnvelope(NewAAAA(name, addr, ttl))
    {
      record := new RecordRef(NewAAAA(name, addr, ttl));
      var discarded;
      discarded, printed := AddResource(record);
      err := None;
    }

    method AddCNAME(name: string, to: string, ttl: Int64) returns (record: RecordRef, err: Option<Error>, printed: Json)
      ensures fresh(record) && record.rec == NewCNAME(name, to, ttl)
      ensures err == None && printed == ResourceEnvelope(NewCNAME(name, to, ttl))
    {
      record := new RecordRef(NewCNAME(name, to, ttl));
      var discarded;
      discarded, printed := AddResource(record);
      err := None;
    }

    method AddMX(name: string, mailServer: string, priority: Uint64, ttl: Int64)
      returns (record: RecordRef, err: Option<Error>, printed: Json)
      ensures fresh(record) && record.rec == NewMX(name, mailServer, priority, ttl)
      ensures err == None && printed == ResourceEnvelope(NewMX(name, mailServer, priority, ttl))
    {
      record := new RecordRef(NewMX(name, mailServer, priority, ttl));
      var discarded;
      discarded, printed := AddResource(record);
      err := None;
    }

    method AddTXT(name: string, value: string, ttl: Int64) returns (record: RecordRef, err: Option<Error>, printed: Json)
      ensures fresh(record) && record.rec == NewTXT(name, value, ttl)
      ensures err == None && printed == ResourceEnvelope(NewTXT(name, value, ttl))
    {
      record := new RecordRef(NewTXT(name, value, ttl));
      var discarded;
      discarded, printed := AddResource(record);
      err := None;
    }

    method AddSRV(name: string, target: string, port: Uint64, weight: Uint64, priority: Uint64, ttl: Int64)
      returns (record: RecordRef, err: Option<Error>, printed: Json)
      ensures fresh(record) && record.rec == NewSRV(name, target, port, weight, priority, ttl)
      ensures err == None && printed == ResourceEnvelope(NewSRV(name, target, port, weight, priority, ttl))
    {
      record := new RecordRef(NewSRV(name, target, port, weight, priority, ttl));
      var discarded;
      discarded, printed := AddResource(record);
      err := None;
    }
  }
}
