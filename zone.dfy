/**
 * The zone handle of zone.go: record collections fetched for one zone, the
 * normalising pass run over them after a fetch, the request paths
 * "resource/{zone}/{record}", and the create/update/delete operations with
 * their id guards.
 */
module Zones {
  import opened Wrappers
  import opened Ints
  import opened Decimal
  import opened Paths
  import opened JsonView
  import opened Errors
  import opened Http
  import opened Records
  import Clients

  /** ZoneId.String: the zone id (a Go `int`) in decimal. */
  function ZoneIdString(id: Int64): (s: string)
    ensures |s| > 0 && '/' !in s
    ensures ParseInt(s) == id
  {
    ItoaRoundTrip(id);
    Itoa(id)
  }

  /** The path makeRequest builds: `path.Join("resource", zone id, record id)`. */
  function RequestPath(zone: Int64, recordId: string): (p: Path)
    ensures recordId == "" ==> p == ["resource", ZoneIdString(zone)]
    ensures recordId != "" ==> p == ["resource", ZoneIdString(zone), recordId]
  {
    var segs := ["resource", ZoneIdString(zone), recordId];
    assert NonEmpty(segs[2..]) == NonEmpty([recordId]);
    assert NonEmpty(segs) == ["resource", ZoneIdString(zone)] + NonEmpty([recordId]);
    Join([], segs)
  }

  /** As text: "resource/{zone}" for an empty record id, "resource/{zone}/{id}" otherwise. */
  lemma RequestPathText(zone: Int64, recordId: string)
    ensures Paths.Text(RequestPath(zone, recordId)) ==
            "resource/" + ZoneIdString(zone) + (if recordId == "" then "" else "/" + recordId)
  {
    var z := ZoneIdString(zone);
    assert "resource" + "/" == "resource/";
    if recordId == "" {
      TextPair("resource", z);
      assert "resource/" + z + "" == "resource/" + z;
    } else {
      TextPair(z, recordId);
      TextCons("resource", [z, recordId]);
      assert "resource" + "/" + (z + "/" + recordId) == "resource/" + z + ("/" + recordId);
    }
  }

  /** Distinct (zone, record id) pairs never share a request path. */
  lemma RequestPathInjective(z1: Int64, id1: string, z2: Int64, id2: string)
    requires RequestPath(z1, id1) == RequestPath(z2, id2)
    ensures z1 == z2 && id1 == id2
  {
    var p := RequestPath(z1, id1);
    assert p[1] == ZoneIdString(z1) == ZoneIdString(z2);
    assert ParseInt(ZoneIdString(z1)) == z1 && ParseInt(ZoneIdString(z2)) == z2;
  }

  /** What zone.go hands to the client's makeRequest: method, relative path and JSON body. */
  datatype ZoneRequest = ZoneRequest(httpMethod: string, path: Path, body: Option<Json>)

  /** The result of one write operation: the caller's record afterwards, the error, and the request sent (if any). */
  datatype Outcome = Outcome(record: Record, err: Option<Error>, sent: Option<ZoneRequest>)

  /** The reply to `req`, decoded into `struct{ Resource IRecord }` holding the caller's record `r`. */
  function Exchange(req: ZoneRequest, r: Record, transport: ZoneRequest -> RoundTrip): (o: Outcome)
    ensures o.sent == Some(req) && KindOf(o.record) == KindOf(r)
    ensures transport(req).Failed? ==> o.record == r && o.err == Some(TransportError(transport(req).reason))
    ensures transport(req).Received? && transport(req).response.statusCode != 200 ==> o.record == r && o.err.Some?
    ensures o.err.None? ==> transport(req).Received? && transport(req).response.statusCode == 200
  {
    var (decoded, err) := Clients.Request(transport(req), r, DecodeResourceEnvelope);
    Outcome(decoded, err, Some(req))
  }

  /** AddResource: refuse a record with an id; otherwise POST its envelope to "resource/{zone}". */
  function AddOutcome(zone: Int64, r: Record, transport: ZoneRequest -> RoundTrip): (o: Outcome)
    ensures o.sent.None? <==> GetId(r) != ""
    ensures o.sent.None? ==> o.record == r && o.err == Some(MaybeRegistered)
    ensures o.sent.Some? ==> o.sent.value.httpMethod == "POST" && o.sent.value.body == Some(ResourceEnvelope(r))
    ensures KindOf(o.record) == KindOf(r)
  {
    if GetId(r) != "" then Outcome(r, Some(MaybeRegistered), None)
    else Exchange(ZoneRequest("POST", RequestPath(zone, ""), Some(ResourceEnvelope(r))), r, transport)
  }

  /** UpdateResource: refuse a record without id; otherwise clear its name and PUT it to "resource/{zone}/{id}". */
  function UpdateOutcome(zone: Int64, r: Record, transport: ZoneRequest -> RoundTrip): (o: Outcome)
    ensures o.sent.None? <==> GetId(r) == ""
    ensures o.sent.None? ==> o.record == r && o.err == Some(IdUnset)
    ensures o.sent.Some? ==> o.sent.value.httpMethod == "PUT" && o.sent.value.path == RequestPath(zone, GetId(r))
    ensures KindOf(o.record) == KindOf(r)
  {
    if GetId(r) == "" then Outcome(r, Some(IdUnset), None)
    else
      var cleared := ClearName(r);
      Exchange(ZoneRequest("PUT", RequestPath(zone, GetId(cleared)), Some(ResourceEnvelope(cleared))),
               cleared, transport)
  }

  /** DeleteResource: refuse a record without id; otherwise DELETE "resource/{zone}/{id}" with no body. */
  function DeleteOutcome(zone: Int64, r: Record, transport: ZoneRequest -> RoundTrip): (o: Outcome)
    ensures o.sent.None? <==> GetId(r) == ""
    ensures o.sent.None? ==> o.record == r && o.err == Some(IdUnset)
    ensures o.sent.Some? ==> o.sent.value.httpMethod == "DELETE" && o.sent.value.body == None
    ensures KindOf(o.record) == KindOf(r)
  {
    if GetId(r) == "" then Outcome(r, Some(IdUnset), None)
    else Exchange(ZoneRequest("DELETE", RequestPath(zone, GetId(r)), None), r, transport)
  }

  /** Creating a record that already has an id fails with ErrMaybeRegistered, sends nothing and changes nothing. */
  lemma AddRefusesRegistered(zone: Int64, r: Record, transport: ZoneRequest -> RoundTrip)
    requires GetId(r) != ""
    ensures AddOutcome(zone, r, transport) == Outcome(r, Some(MaybeRegistered), None)
  {
  }

  /** A record without id is POSTed, envelope and all, to the zone's collection "resource/{zone}". */
  lemma AddPostsToCollection(zone: Int64, r: Record, transport: ZoneRequest -> RoundTrip)
    requires GetId(r) == ""
    ensures var o := AddOutcome(zone, r, transport);
            o.sent == Some(ZoneRequest("POST", ["resource", ZoneIdString(zone)], Some(ResourceEnvelope(r)))) &&
            Paths.Text(o.sent.value.path) == "resource/" + ZoneIdString(zone)
  {
    RequestPathText(zone, "");
  }

  /** A server echo that carries an id gives the caller's record that id, with no error. */
  lemma AddPicksUpServerId(zone: Int64, r: Record, id: string, transport: ZoneRequest -> RoundTrip)
    requires GetId(r) == "" && id != ""
    requires transport(ZoneRequest("POST", RequestPath(zone, ""), Some(ResourceEnvelope(r)))) ==
             Received(Response(200, "200 OK", WellFormed(ResourceEnvelope(r.(env := r.env.(id := id))))))
    ensures AddOutcome(zone, r, transport) ==
            Outcome(r.(env := r.env.(id := id)), None,
                    Some(ZoneRequest("POST", RequestPath(zone, ""), Some(ResourceEnvelope(r)))))
  {
    EchoAssignsId(r, id);
  }

  /** Every record an Add* helper builds passes the id guard and is sent. */
  lemma NewRecordsAreSent(zone: Int64, name: string, host: string, text: string, n1: Uint64, n2: Uint64,
                          n3: Uint64, ttl: Int64, transport: ZoneRequest -> RoundTrip)
    ensures AddOutcome(zone, NewNS(name, host, ttl), transport).sent.Some?
    ensures AddOutcome(zone, NewA(name, text, ttl), transport).sent.Some?
    ensures AddOutcome(zone, NewAAAA(name, text, ttl), transport).sent.Some?
    ensures AddOutcome(zone, NewCNAME(name, host, ttl), transport).sent.Some?
    ensures AddOutcome(zone, NewMX(name, host, n1, ttl), transport).sent.Some?
    ensures AddOutcome(zone, NewTXT(name, text, ttl), transport).sent.Some?
    ensures AddOutcome(zone, NewSRV(name, host, n1, n2, n3, ttl), transport).sent.Some?
  {
  }

  /** Updating a record without id fails with ErrIdUnset, sends nothing and leaves the record, name included, as it was. */
  lemma UpdateRequiresId(zone: Int64, r: Record, transport: ZoneRequest -> RoundTrip)
    requires GetId(r) == ""
    ensures UpdateOutcome(zone, r, transport) == Outcome(r, Some(IdUnset), None)
  {
  }

  /**
   * An update of a record with an id PUTs to "resource/{zone}/{id}" an
   * envelope without the Name member; the caller's record has lost its name
   * even when the server refuses the update.
   */
  lemma UpdateClearsName(zone: Int64, r: Record, transport: ZoneRequest -> RoundTrip)
    requires GetId(r) != ""
    ensures var o := UpdateOutcome(zone, r, transport);
            o.sent.Some? && o.sent.value.httpMethod == "PUT" &&
            o.sent.value.path == ["resource", ZoneIdString(zone), GetId(r)] &&
            o.sent.value.body == Some(ResourceEnvelope(ClearName(r))) &&
            "Name" !in o.sent.value.body.value.fields["Resource"].fields
    ensures var rt := transport(UpdateOutcome(zone, r, transport).sent.value);
            (rt.Failed? || rt.response.statusCode != 200) ==>
              UpdateOutcome(zone, r, transport).record == ClearName(r)
  {
  }

  /** Deleting a record without id fails with ErrIdUnset and sends nothing. */
  lemma DeleteRequiresId(zone: Int64, r: Record, transport: ZoneRequest -> RoundTrip)
    requires GetId(r) == ""
    ensures DeleteOutcome(zone, r, transport) == Outcome(r, Some(IdUnset), None)
  {
  }

  /** A delete sends no body to "resource/{zone}/{id}" and does not clear the name: a refused delete changes nothing. */
  lemma DeleteKeepsName(zone: Int64, r: Record, transport: ZoneRequest -> RoundTrip)
    requires GetId(r) != ""
    ensures var o := DeleteOutcome(zone, r, transport);
            o.sent == Some(ZoneRequest("DELETE", ["resource", ZoneIdString(zone), GetId(r)], None))
    ensures var rt := transport(ZoneRequest("DELETE", RequestPath(zone, GetId(r)), None));
            (rt.Failed? || rt.response.statusCode != 200) ==> DeleteOutcome(zone, r, transport).record == r
  {
  }

  /**
   * postGetRecord: the per-record step after a fetch. The step itself
   * (setHostNameByName) is a parameter; it works on the embedded envelope,
   * so the variant and its own fields are untouched.
   */
  function PostGetRecord(r: Record, domain: string, step: (Envelope, string) -> Envelope): (r': Record)
    ensures KindOf(r') == KindOf(r) && r'.env == step(r.env, domain)
    ensures r'.(env := r.env) == r
  {
    r.(env := step(r.env, domain))
  }

  /** `after` is `before` with the step applied to every element: same length, same order. */
  predicate Stepped(before: seq<Record>, after: seq<Record>, domain: string, step: (Envelope, string) -> Envelope)
  {
    |after| == |before| &&
    forall i :: 0 <= i < |before| ==> after[i] == PostGetRecord(before[i], domain, step)
  }

  /** The pass keeps every list homogeneous. */
  lemma SteppedKeepsKind(before: seq<Record>, after: seq<Record>, domain: string,
                         step: (Envelope, string) -> Envelope, k: Kind)
    requires Stepped(before, after, domain, step) && AllOfKind(before, k)
    ensures AllOfKind(after, k)
  {
  }

  class Zone {
    const id: Int64
    var soa: Record
    var ns: seq<Record>
    var a: seq<Record>
    var aaaa: seq<Record>
    var cname: seq<Record>
    var mx: seq<Record>
    var txt: seq<Record>
    var srv: seq<Record>

    /** Each collection holds records of its own kind, as the typed Go slices do. */
    ghost predicate Valid()
      reads this
    {
      KindOf(soa) == SOA && AllOfKind(ns, NS) && AllOfKind(a, A) && AllOfKind(aaaa, AAAA) &&
      AllOfKind(cname, CNAME) && AllOfKind(mx, MX) && AllOfKind(txt, TXT) && AllOfKind(srv, SRV)
    }

    /**
     * A zone handle for `id` holding the collections of a fetch. The Go
     * struct's fields are typed (`*SOARecord`, `[]*NSRecord`, ...), so each
     * collection can only hold records of its own kind.
     */
    constructor (id: Int64, soa: Record, ns: seq<Record>, a: seq<Record>, aaaa: seq<Record>,
                 cname: seq<Record>, mx: seq<Record>, txt: seq<Record>, srv: seq<Record>)
      requires KindOf(soa) == SOA && AllOfKind(ns, NS) && AllOfKind(a, A) && AllOfKind(aaaa, AAAA)
      requires AllOfKind(cname, CNAME) && AllOfKind(mx, MX) && AllOfKind(txt, TXT) && AllOfKind(srv, SRV)
      ensures Valid()
      ensures this.id == id && this.soa == soa && this.ns == ns && this.a == a && this.aaaa == aaaa
      ensures this.cname == cname && this.mx == mx && this.txt == txt && this.srv == srv
    {
      this.id := id;
      this.soa, this.ns, this.a, this.aaaa := soa, ns, a, aaaa;
      this.cname, this.mx, this.txt, this.srv := cname, mx, txt, srv;
    }

    /** The zone id; `id` is fixed at construction and no method changes it. */
    function GetId(): (zoneId: Int64)
      ensures zoneId == id
    {
      id
    }

    /** postGetRecords: the step applied to each record of one collection, by index. */
    method PostGetRecords(records: seq<Record>, domain: string, step: (Envelope, string) -> Envelope)
      returns (updated: seq<Record>)
      ensures Stepped(records, updated, domain, step)
    {
      updated := records;
      for i := 0 to |records|
        invariant |updated| == |records|
        invariant forall j :: 0 <= j < i ==> updated[j] == PostGetRecord(records[j], domain, step)
        invariant forall j :: i <= j < |records| ==> updated[j] == records[j]
      {
        updated := updated[i := PostGetRecord(updated[i], domain, step)];
      }
    }

    /** postGet: the step applied to the SOA and to every record of the seven lists. */
    method PostGet(domain: string, step: (Envelope, string) -> Envelope)
      requires Valid()
      modifies this
      ensures Valid()
      ensures soa == PostGetRecord(old(soa), domain, step)
      ensures Stepped(old(ns), ns, domain, step) && Stepped(old(a), a, domain, step)
      ensures Stepped(old(aaaa), aaaa, domain, step) && Stepped(old(cname), cname, domain, step)
      ensures Stepped(old(mx), mx, domain, step) && Stepped(old(txt), txt, domain, step)
      ensures Stepped(old(srv), srv, domain, step)
    {
      var soa' := PostGetRecord(soa, domain, step);
      var ns' := PostGetRecords(ns, domain, step);
      var a' := PostGetRecords(a, domain, step);
      var aaaa' := PostGetRecords(aaaa, domain, step);
      var cname' := PostGetRecords(cname, domain, step);
      var mx' := PostGetRecords(mx, domain, step);
      var txt' := PostGetRecords(txt, domain, step);
      var srv' := PostGetRecords(srv, domain, step);
      SteppedKeepsKind(ns, ns', domain, step, NS);
      SteppedKeepsKind(a, a', domain, step, A);
      SteppedKeepsKind(aaaa, aaaa', domain, step, AAAA);
      SteppedKeepsKind(cname, cname', domain, step, CNAME);
      SteppedKeepsKind(mx, mx', domain, step, MX);
      SteppedKeepsKind(txt, txt', domain, step, TXT);
      SteppedKeepsKind(srv, srv', domain, step, SRV);
      soa, ns, a, aaaa, cname, mx, txt, srv := soa', ns', a', aaaa', cname', mx', txt', srv';
    }

    /** makeRequest: the request for `recordId` under this zone. */
    function MakeRequest(httpMethod: string, recordId: string, body: Option<Json>): (req: ZoneRequest)
      ensures req.httpMethod == httpMethod && req.body == body
      ensures Paths.Text(req.path) == "resource/" + ZoneIdString(id) + (if recordId == "" then "" else "/" + recordId)
    {
      RequestPathText(id, recordId);
      ZoneRequest(httpMethod, RequestPath(id, recordId), body)
    }

    method AddResource(record: RecordRef, transport: ZoneRequest -> RoundTrip)
      returns (err: Option<Error>, sent: Option<ZoneRequest>)
      modifies record
      ensures Outcome(record.rec, err, sent) == AddOutcome(id, old(record.rec), transport)
    {
      if Records.GetId(record.rec) != "" {
        return Some(MaybeRegistered), None;
      }
      var req := MakeRequest("POST", "", Some(ResourceEnvelope(record.rec)));
      var out := Clients.Request(transport(req), record.rec, DecodeResourceEnvelope);
      record.rec, err, sent := out.0, out.1, Some(req);
    }

    method UpdateResource(record: RecordRef, transport: ZoneRequest -> RoundTrip)
      returns (err: Option<Error>, sent: Option<ZoneRequest>)
      modifies record
      ensures Outcome(record.rec, err, sent) == UpdateOutcome(id, old(record.rec), transport)
    {
      if Records.GetId(record.rec) == "" {
        return Some(IdUnset), None;
      }
      record.rec := ClearName(record.rec);
      var req := MakeRequest("PUT", Records.GetId(record.rec), Some(ResourceEnvelope(record.rec)));
      var out := Clients.Request(transport(req), record.rec, DecodeResourceEnvelope);
      record.rec, err, sent := out.0, out.1, Some(req);
    }

    method DeleteResource(record: RecordRef, transport: ZoneRequest -> RoundTrip)
      returns (err: Option<Error>, sent: Option<ZoneRequest>)
      modifies record
      ensures Outcome(record.rec, err, sent) == DeleteOutcome(id, old(record.rec), transport)
    {
      if Records.GetId(record.rec) == "" {
        return Some(IdUnset), None;
      }
      var req := MakeRequest("DELETE", Records.GetId(record.rec), None);
      var out := Clients.Request(transport(req), record.rec, DecodeResourceEnvelope);
      record.rec, err, sent := out.0, out.1, Some(req);
    }

    method AddNS(name: string, ns: string, ttl: Int64, transport: ZoneRequest -> RoundTrip)
      returns (resource: RecordRef, err: Option<Error>)
      ensures fresh(resource)
      ensures var o := AddOutcome(id, NewNS(name, ns, ttl), transport); resource.rec == o.record && err == o.err
    {
      resource := new RecordRef(NewNS(name, ns, ttl));
      var sent;
      err, sent := AddResource(resource, transport);
    }

    method AddA(name: string, addr: string, ttl: Int64, transport: ZoneRequest -> RoundTrip)
      returns (resource: RecordRef, err: Option<Error>)
      ensures fresh(resource)
      ensures var o := AddOutcome(id, NewA(name, addr, ttl), transport); resource.rec == o.record && err == o.err
    {
      resource := new RecordRef(NewA(name, addr, ttl));
      var sent;
      err, sent := AddResource(resource, transport);
    }

    method AddAAAA(name: string, addr: string, ttl: Int64, transport: ZoneRequest -> RoundTrip)
      returns (resource: RecordRef, err: Option<Error>)
      ensures fresh(resource)
      ensures var o := AddOutcome(id, NewAAAA(name, addr, ttl), transport); resource.rec == o.record && err == o.err
    {
      resource := new RecordRef(NewAAAA(name, addr, ttl));
      var sent;
      err, sent := AddResource(resource, transport);
    }

    method AddCNAME(name: string, to: string, ttl: Int64, transport: ZoneRequest -> RoundTrip)
      returns (resource: RecordRef, err: Option<Error>)
      ensures fresh(resource)
      ensures var o := AddOutcome(id, NewCNAME(name, to, ttl), transport); resource.rec == o.record && err == o.err
    {
      resource := new RecordRef(NewCNAME(name, to, ttl));
      var sent;
      err, sent := AddResource(resource, transport);
    }

    method AddMX(name: string, mailServer: string, priority: Uint64, ttl: Int64,
                 transport: ZoneRequest -> RoundTrip)
      returns (resource: RecordRef, err: Option<Error>)
      ensures fresh(resource)
      ensures var o := AddOutcome(id, NewMX(name, mailServer, priority, ttl), transport);
              resource.rec == o.record && err == o.err
    {
      resource := new RecordRef(NewMX(name, mailServer, priority, ttl));
      var sent;
      err, sent := AddResource(resource, transport);
    }

    method AddTXT(name: string, value: string, ttl: Int64, transport: ZoneRequest -> RoundTrip)
      returns (resource: RecordRef, err: Option<Error>)
      ensures fresh(resource)
      ensures var o := AddOutcome(id, NewTXT(name, value, ttl), transport); resource.rec == o.record && err == o.err
    {
      resource := new RecordRef(NewTXT(name, value, ttl));
      var sent;
      err, sent := AddResource(resource, transport);
    }

    method AddSRV(name: string, target: string, port: Uint64, weight: Uint64, priority: Uint64, ttl: Int64,
                  transport: ZoneRequest -> RoundTrip)
      returns (resource: RecordRef, err: Option<Error>)
      ensures fresh(resource)
      ensures var o := AddOutcome(id, NewSRV(name, target, port, weight, priority, ttl), transport);
              resource.rec == o.record && err == o.err
    {
      resource := new RecordRef(NewSRV(name, target, port, weight, priority, ttl));
      var sent;
      err, sent := AddResource(resource, transport);
    }
  }
}
