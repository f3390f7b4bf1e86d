/**
 * The record model: eight DNS record variants, each carrying one common
 * envelope (ID, Name, HostName, Type, TTL), the IRecord accessors, the
 * conversion of TTL seconds to a duration, and the JSON view that the
 * struct tags determine.
 */
module Records {
  import opened Ints
  import opened JsonView

  /** The closed set of record kinds. */
  datatype Kind = SOA | NS | A | AAAA | CNAME | MX | TXT | SRV

  /** The `Type` tag the API uses for each kind. */
  function Tag(k: Kind): string
  {
    match k
    case SOA => "SOA"
    case NS => "NS"
    case A => "A"
    case AAAA => "AAAA"
    case CNAME => "CNAME"
    case MX => "MX"
    case TXT => "TXT"
    case SRV => "SRV"
  }

  /** The embedded `Record` struct every variant carries. */
  datatype Envelope = Envelope(id: string, name: string, hostName: string, rtype: string, ttl: Int64)

  /** The eight variant structs, each with its own fields and one envelope. */
  datatype Record =
    | SOARecord(mname: string, rname: string, serial: Uint64, refresh: Int64, retry: Int64,
                expire: Int64, negativeCacheTTL: Int64, env: Envelope)
    | NSRecord(nameServer: string, env: Envelope)
    | ARecord(ipAddress: string, env: Envelope)
    | AAAARecord(ipAddress: string, env: Envelope)
    | CNAMERecord(aliasTo: string, env: Envelope)
    | MXRecord(mailServer: string, priority: Uint64, env: Envelope)
    | TXTRecord(value: string, env: Envelope)
    | SRVRecord(priority: Uint64, weight: Uint64, port: Uint64, target: string, env: Envelope)

  /** A `*SOARecord`, `*NSRecord`, ...: the caller's record, which the write operations update. */
  class RecordRef {
    var rec: Record

    constructor (r: Record)
      ensures rec == r
    {
      rec := r;
    }
  }

  function KindOf(r: Record): Kind
  {
    match r
    case SOARecord(_, _, _, _, _, _, _, _) => SOA
    case NSRecord(_, _) => NS
    case ARecord(_, _) => A
    case AAAARecord(_, _) => AAAA
    case CNAMERecord(_, _) => CNAME
    case MXRecord(_, _, _) => MX
    case TXTRecord(_, _) => TXT
    case SRVRecord(_, _, _, _, _) => SRV
  }

  /** The record's `Type` is its variant's tag. */
  predicate WellTagged(r: Record)
  {
    r.env.rtype == Tag(KindOf(r))
  }

  /** Every record of a typed Go slice (`[]NSRecord`, ...) has that slice's kind. */
  predicate AllOfKind(records: seq<Record>, k: Kind)
  {
    forall i :: 0 <= i < |records| ==> KindOf(records[i]) == k
  }

  /** The zero value of each variant struct, which the decoder starts from. */
  function Zero(k: Kind): (z: Record)
    ensures KindOf(z) == k && z.env == Envelope("", "", "", "", 0)
  {
    var e := Envelope("", "", "", "", 0);
    match k
    case SOA => SOARecord("", "", 0, 0, 0, 0, 0, e)
    case NS => NSRecord("", e)
    case A => ARecord("", e)
    case AAAA => AAAARecord("", e)
    case CNAME => CNAMERecord("", e)
    case MX => MXRecord("", 0, e)
    case TXT => TXTRecord("", e)
    case SRV => SRVRecord(0, 0, 0, "", e)
  }

  // ---------------------------------------------------------------------
  // Seconds.Duration

  /** time.Second, in nanoseconds. */
  const Second: int := 1_000_000_000

  /**
   * `time.Duration(s) * time.Second`: an int64 multiplication, which wraps
   * around on overflow. It is exact for |s| <= MaxInt64 / 10^9.
   */
  function Duration(s: Int64): (d: Int64)
    ensures -(MaxInt64 / Second) <= s <= MaxInt64 / Second ==> d == s * Second
    ensures (d - s * Second) % TwoTo64 == 0
  {
    Wrap64(s * Second)
  }

  // ---------------------------------------------------------------------
  // The IRecord accessors, promoted from the envelope

  /** The id, which the encoding shows exactly when it is set. */
  function GetId(r: Record): (id: string)
    ensures ("ID" in EncodeEnvelope(r.env)) <==> id != ""
    ensures id != "" ==> EncodeEnvelope(r.env)["ID"] == JStr(id)
  {
    r.env.id
  }

  /** The display name when the server supplied one, the structural host name otherwise. */
  function GetHostName(r: Record): (h: string)
    ensures |r.env.name| > 0 ==> h == r.env.name
    ensures |r.env.name| == 0 ==> h == r.env.hostName
  {
    if |r.env.name| > 0 then r.env.name else r.env.hostName
  }

  /** The type string, the value of the encoding's "Type" member. */
  function GetType(r: Record): (t: string)
    ensures EncodeEnvelope(r.env)["Type"] == JStr(t)
  {
    r.env.rtype
  }

  /** The TTL in seconds, the value of the encoding's "TTL" member. */
  function GetTTL(r: Record): (ttl: Int64)
    ensures EncodeEnvelope(r.env)["TTL"] == JNum(ttl)
  {
    r.env.ttl
  }

  /** Two records with the same envelope answer every IRecord accessor alike, whatever their variants. */
  lemma AccessorsDependOnEnvelopeOnly(r: Record, s: Record)
    requires r.env == s.env
    ensures GetId(r) == GetId(s) && GetHostName(r) == GetHostName(s)
    ensures GetType(r) == GetType(s) && GetTTL(r) == GetTTL(s)
  {
  }

  /** The accessors return the stored fields untransformed. */
  lemma AccessorsReturnStored(r: Record, id: string, name: string, host: string, t: string, ttl: Int64)
    requires r.env == Envelope(id, name, host, t, ttl)
    ensures GetId(r) == id && GetType(r) == t && GetTTL(r) == ttl
    ensures GetHostName(r) == (if name != "" then name else host)
  {
  }

  /** Dropping the display name (the `clearName` step of an update). */
  function ClearName(r: Record): (c: Record)
    ensures c.env.name == "" && GetHostName(c) == r.env.hostName
    ensures KindOf(c) == KindOf(r) && c.env.(name := r.env.name) == r.env
    ensures c.(env := r.env) == r
  {
    r.(env := r.env.(name := ""))
  }

  // ---------------------------------------------------------------------
  // The record constructors behind every Add* helper

  function NewNS(name: string, ns: string, ttl: Int64): (r: Record)
    ensures r.NSRecord? && WellTagged(r) && r.nameServer == ns
    ensures r.env == Envelope("", "", name, "NS", ttl) && GetHostName(r) == name
  {
    NSRecord(ns, Envelope("", "", name, "NS", ttl))
  }

  function NewA(name: string, addr: string, ttl: Int64): (r: Record)
    ensures r.ARecord? && WellTagged(r) && r.ipAddress == addr
    ensures r.env == Envelope("", "", name, "A", ttl) && GetHostName(r) == name
  {
    ARecord(addr, Envelope("", "", name, "A", ttl))
  }

  function NewAAAA(name: string, addr: string, ttl: Int64): (r: Record)
    ensures r.AAAARecord? && WellTagged(r) && r.ipAddress == addr
    ensures r.env == Envelope("", "", name, "AAAA", ttl) && GetHostName(r) == name
  {
    AAAARecord(addr, Envelope("", "", name, "AAAA", ttl))
  }

  function NewCNAME(name: string, to: string, ttl: Int64): (r: Record)
    ensures r.CNAMERecord? && WellTagged(r) && r.aliasTo == to
    ensures r.env == Envelope("", "", name, "CNAME", ttl) && GetHostName(r) == name
  {
    CNAMERecord(to, Envelope("", "", name, "CNAME", ttl))
  }

  function NewMX(name: string, mailServer: string, priority: Uint64, ttl: Int64): (r: Record)
    ensures r.MXRecord? && WellTagged(r) && r.mailServer == mailServer && r.priority == priority
    ensures r.env == Envelope("", "", name, "MX", ttl) && GetHostName(r) == name
  {
    MXRecord(mailServer, priority, Envelope("", "", name, "MX", ttl))
  }

  function NewTXT(name: string, value: string, ttl: Int64): (r: Record)
    ensures r.TXTRecord? && WellTagged(r) && r.value == value
    ensures r.env == Envelope("", "", name, "TXT", ttl) && GetHostName(r) == name
  {
    TXTRecord(value, Envelope("", "", name, "TXT", ttl))
  }

  function NewSRV(name: string, target: string, port: Uint64, weight: Uint64, priority: Uint64,
                  ttl: Int64): (r: Record)
    ensures r.SRVRecord? && WellTagged(r) && r.target == target
    ensures r.port == port && r.weight == weight && r.priority == priority
    ensures r.env == Envelope("", "", name, "SRV", ttl) && GetHostName(r) == name
  {
    SRVRecord(priority, weight, port, target, Envelope("", "", name, "SRV", ttl))
  }

  // ---------------------------------------------------------------------
  // JSON view

  const EnvelopeKeys: set<string> := {"ID", "Name", "HostName", "Type", "TTL"}

  /** The JSON keys of each variant's own fields. */
  function VariantKeys(k: Kind): set<string>
  {
    match k
    case SOA => {"MNAME", "RNAME", "Serial", "Refresh", "Retry", "Expire", "NegativeCacheTTL"}
    case NS => {"NameServer"}
    case A => {"IPAddress"}
    case AAAA => {"IPAddress"}
    case CNAME => {"AliasTo"}
    case MX => {"MailServer", "Priority"}
    case TXT => {"Value"}
    case SRV => {"Priority", "Weight", "Port", "Target"}
  }

  /** No variant field shares a JSON key with the envelope, so none shadows `Type` or the others. */
  lemma VariantKeysDisjoint(k: Kind)
    ensures VariantKeys(k) !! EnvelopeKeys
  {
  }

  /** The envelope's JSON members: ID and Name are `omitempty`, the other three always present. */
  function EncodeEnvelope(e: Envelope): (m: map<string, Json>)
    ensures m.Keys <= EnvelopeKeys
    ensures "ID" in m <==> e.id != ""
    ensures "Name" in m <==> e.name != ""
    ensures "ID" in m ==> m["ID"] == JStr(e.id)
    ensures "Name" in m ==> m["Name"] == JStr(e.name)
    ensures "HostName" in m && m["HostName"] == JStr(e.hostName)
    ensures "Type" in m && m["Type"] == JStr(e.rtype)
    ensures "TTL" in m && m["TTL"] == JNum(e.ttl)
  {
    var always := map["HostName" := JStr(e.hostName), "Type" := JStr(e.rtype), "TTL" := JNum(e.ttl)];
    var withId := if e.id != "" then always["ID" := JStr(e.id)] else always;
    if e.name != "" then withId["Name" := JStr(e.name)] else withId
  }

  /** The JSON members of a variant's own fields, under their tag names. */
  function VariantFields(r: Record): (m: map<string, Json>)
    ensures m.Keys == VariantKeys(KindOf(r))
  {
    match r
    case SOARecord(mname, rname, serial, refresh, retry, expire, negativeCacheTTL, _) =>
      map["MNAME" := JStr(mname), "RNAME" := JStr(rname), "Serial" := JNum(serial),
          "Refresh" := JNum(refresh), "Retry" := JNum(retry), "Expire" := JNum(expire),
          "NegativeCacheTTL" := JNum(negativeCacheTTL)]
    case NSRecord(nameServer, _) => map["NameServer" := JStr(nameServer)]
    case ARecord(ipAddress, _) => map["IPAddress" := JStr(ipAddress)]
    case AAAARecord(ipAddress, _) => map["IPAddress" := JStr(ipAddress)]
    case CNAMERecord(aliasTo, _) => map["AliasTo" := JStr(aliasTo)]
    case MXRecord(mailServer, priority, _) =>
      map["MailServer" := JStr(mailServer), "Priority" := JNum(priority)]
    case TXTRecord(value, _) => map["Value" := JStr(value)]
    case SRVRecord(priority, weight, port, target, _) =>
      map["Priority" := JNum(priority), "Weight" := JNum(weight), "Port" := JNum(port),
          "Target" := JStr(target)]
  }

  /**
   * The flat JSON object of a record: the variant's fields merged with the
   * promoted envelope fields (an outer field would shadow a promoted one of
   * the same name; none does).
   */
  function EncodeRecord(r: Record): (m: map<string, Json>)
    ensures m.Keys == VariantKeys(KindOf(r)) + EncodeEnvelope(r.env).Keys
    ensures forall k :: k in EnvelopeKeys ==> (k in m <==> k in EncodeEnvelope(r.env))
    ensures forall k :: k in EncodeEnvelope(r.env) ==> m[k] == EncodeEnvelope(r.env)[k]
  {
    VariantKeysDisjoint(KindOf(r));
    EncodeEnvelope(r.env) + VariantFields(r)
  }

  /** The encoded record carries exactly what the accessors return, under the tag names. */
  lemma EncodingShowsAccessors(r: Record)
    ensures ("ID" in EncodeRecord(r)) <==> GetId(r) != ""
    ensures GetId(r) != "" ==> EncodeRecord(r)["ID"] == JStr(GetId(r))
    ensures ("Name" in EncodeRecord(r)) <==> r.env.name != ""
    ensures EncodeRecord(r)["HostName"] == JStr(r.env.hostName)
    ensures EncodeRecord(r)["Type"] == JStr(GetType(r))
    ensures EncodeRecord(r)["TTL"] == JNum(GetTTL(r))
  {
  }

  /** SOA's primary server and responsible mailbox are written under MNAME and RNAME. */
  lemma SoaMailKeys(r: Record)
    requires r.SOARecord?
    ensures EncodeRecord(r)["MNAME"] == JStr(r.mname) && EncodeRecord(r)["RNAME"] == JStr(r.rname)
    ensures "Mname" !in EncodeRecord(r) && "Rname" !in EncodeRecord(r)
  {
    var e := EncodeEnvelope(r.env);
    var v := VariantFields(r);
    var m := EncodeRecord(r);
    assert m == e + v;
    assert "MNAME" in v && v["MNAME"] == JStr(r.mname);
    assert "RNAME" in v && v["RNAME"] == JStr(r.rname);
    assert "Mname" !in VariantKeys(SOA) && "Mname" !in EnvelopeKeys;
    assert "Rname" !in VariantKeys(SOA) && "Rname" !in EnvelopeKeys;
  }

  /** Decoding a JSON object into the envelope fields of an existing value. */
  function DecodeEnvelope(e: Envelope, m: map<string, Json>): (out: (Envelope, bool))
    ensures out.1 <==> StringOrAbsent(m, "ID") && StringOrAbsent(m, "Name") && StringOrAbsent(m, "HostName") &&
                       StringOrAbsent(m, "Type") && IntOrAbsent(m, "TTL", MinInt64, MaxInt64)
    ensures out.0.id == (if "ID" in m && m["ID"].JStr? then m["ID"].s else e.id)
    ensures out.0.name == (if "Name" in m && m["Name"].JStr? then m["Name"].s else e.name)
    ensures out.0.hostName == (if "HostName" in m && m["HostName"].JStr? then m["HostName"].s else e.hostName)
    ensures out.0.rtype == (if "Type" in m && m["Type"].JStr? then m["Type"].s else e.rtype)
    ensures out.0.ttl == (if "TTL" in m && m["TTL"].JNum? && MinInt64 <= m["TTL"].n <= MaxInt64
                          then m["TTL"].n else e.ttl)
  {
    var (id, ok1) := StoreString(e.id, m, "ID");
    var (name, ok2) := StoreString(e.name, m, "Name");
    var (host, ok3) := StoreString(e.hostName, m, "HostName");
    var (rtype, ok4) := StoreString(e.rtype, m, "Type");
    var (ttl, ok5) := StoreInt(e.ttl, m, "TTL", MinInt64, MaxInt64);
    (Envelope(id, name, host, rtype, ttl), ok1 && ok2 && ok3 && ok4 && ok5)
  }

  /** Decoding a JSON object into the variant's own fields; the envelope is left as it is. */
  function DecodeVariant(r: Record, m: map<string, Json>): (out: (Record, bool))
    ensures KindOf(out.0) == KindOf(r) && out.0.env == r.env
  {
    match r
    case SOARecord(mname, rname, serial, refresh, retry, expire, negativeCacheTTL, env) =>
      var (mname', o1) := StoreString(mname, m, "MNAME");
      var (rname', o2) := StoreString(rname, m, "RNAME");
      var (serial', o3) := StoreInt(serial, m, "Serial", 0, MaxUint64);
      var (refresh', o4) := StoreInt(refresh, m, "Refresh", MinInt64, MaxInt64);
      var (retry', o5) := StoreInt(retry, m, "Retry", MinInt64, MaxInt64);
      var (expire', o6) := StoreInt(expire, m, "Expire", MinInt64, MaxInt64);
      var (nct', o7) := StoreInt(negativeCacheTTL, m, "NegativeCacheTTL", MinInt64, MaxInt64);
      (SOARecord(mname', rname', serial', refresh', retry', expire', nct', env),
       o1 && o2 && o3 && o4 && o5 && o6 && o7)
    case NSRecord(nameServer, env) =>
      var (nameServer', o1) := StoreString(nameServer, m, "NameServer");
      (NSRecord(nameServer', env), o1)
    case ARecord(ipAddress, env) =>
      var (ipAddress', o1) := StoreString(ipAddress, m, "IPAddress");
      (ARecord(ipAddress', env), o1)
    case AAAARecord(ipAddress, env) =>
      var (ipAddress', o1) := StoreString(ipAddress, m, "IPAddress");
      (AAAARecord(ipAddress', env), o1)
    case CNAMERecord(aliasTo, env) =>
      var (aliasTo', o1) := StoreString(aliasTo, m, "AliasTo");
      (CNAMERecord(aliasTo', env), o1)
    case MXRecord(mailServer, priority, env) =>
      var (mailServer', o1) := StoreString(mailServer, m, "MailServer");
      var (priority', o2) := StoreInt(priority, m, "Priority", 0, MaxUint64);
      (MXRecord(mailServer', priority', env), o1 && o2)
    case TXTRecord(value, env) =>
      var (value', o1) := StoreString(value, m, "Value");
      (TXTRecord(value', env), o1)
    case SRVRecord(priority, weight, port, target, env) =>
      var (priority', o1) := StoreInt(priority, m, "Priority", 0, MaxUint64);
      var (weight', o2) := StoreInt(weight, m, "Weight", 0, MaxUint64);
      var (port', o3) := StoreInt(port, m, "Port", 0, MaxUint64);
      var (target', o4) := StoreString(target, m, "Target");
      (SRVRecord(priority', weight', port', target', env), o1 && o2 && o3 && o4)
  }

  /**
   * Decoding a JSON object into an existing record, as json.Decoder does
   * through a pointer: members present replace fields, absent or null
   * members leave them, unknown members are ignored, and a mistyped member
   * is skipped and makes the decode report an error.
   */
  function DecodeRecord(r: Record, m: map<string, Json>): (out: (Record, bool))
    ensures KindOf(out.0) == KindOf(r)
    ensures out.0.env == DecodeEnvelope(r.env, m).0
    ensures out.1 ==> DecodeEnvelope(r.env, m).1
  {
    var (v, okVariant) := DecodeVariant(r, m);
    var (env, okEnv) := DecodeEnvelope(r.env, m);
    (v.(env := env), okVariant && okEnv)
  }

  /** `r` with the id and display name of `s` wherever `r` leaves them empty (and so unencoded). */
  function Overlay(s: Record, r: Record): Record
  {
    r.(env := r.env.(id := if r.env.id == "" then s.env.id else r.env.id,
                     name := if r.env.name == "" then s.env.name else r.env.name))
  }

  /**
   * Decoding the encoding of `r` into any record of the same kind yields
   * `r`, except that the omitted empty id and display name keep the
   * target's values; it never reports an error.
   */
  lemma DecodeEncoded(s: Record, r: Record)
    requires KindOf(s) == KindOf(r)
    ensures DecodeRecord(s, EncodeRecord(r)) == (Overlay(s, r), true)
  {
    var m := EncodeRecord(r);
    EnvelopeDecodesEncoded(s.env, r.env, m);
    VariantDecodesEncoded(s, r);
  }

  /** The variant part of DecodeEncoded. */
  lemma VariantDecodesEncoded(s: Record, r: Record)
    requires KindOf(s) == KindOf(r)
    ensures DecodeVariant(s, EncodeRecord(r)) == (r.(env := s.env), true)
  {
    VariantDecodesOver(s, r, EncodeEnvelope(r.env));
  }

  /** Members under the variant's own keys win over whatever else the object holds. */
  lemma VariantDecodesOver(s: Record, r: Record, e: map<string, Json>)
    requires KindOf(s) == KindOf(r)
    ensures DecodeVariant(s, e + VariantFields(r)) == (r.(env := s.env), true)
  {
    match r
    case SOARecord(_, _, _, _, _, _, _, _) => SoaDecodesOver(s, r, e);
    case MXRecord(_, _, _) => MxDecodesOver(s, r, e);
    case SRVRecord(_, _, _, _, _) => SrvDecodesOver(s, r, e);
    case _ =>
  }

  lemma SoaDecodesOver(s: Record, r: Record, e: map<string, Json>)
    requires s.SOARecord? && r.SOARecord?
    ensures DecodeVariant(s, e + VariantFields(r)) ==
            (SOARecord(r.mname, r.rname, r.serial, r.refresh, r.retry, r.expire, r.negativeCacheTTL, s.env), true)
  {
    var m := e + VariantFields(r);
    assert m["MNAME"] == JStr(r.mname) && m["RNAME"] == JStr(r.rname) && m["Serial"] == JNum(r.serial);
    assert m["Refresh"] == JNum(r.refresh) && m["Retry"] == JNum(r.retry) && m["Expire"] == JNum(r.expire);
    assert m["NegativeCacheTTL"] == JNum(r.negativeCacheTTL);
  }

  lemma MxDecodesOver(s: Record, r: Record, e: map<string, Json>)
    requires s.MXRecord? && r.MXRecord?
    ensures DecodeVariant(s, e + VariantFields(r)) == (MXRecord(r.mailServer, r.priority, s.env), true)
  {
    var m := e + VariantFields(r);
    assert m["MailServer"] == JStr(r.mailServer) && m["Priority"] == JNum(r.priority);
  }

  lemma SrvDecodesOver(s: Record, r: Record, e: map<string, Json>)
    requires s.SRVRecord? && r.SRVRecord?
    ensures DecodeVariant(s, e + VariantFields(r)) == (SRVRecord(r.priority, r.weight, r.port, r.target, s.env), true)
  {
    var m := e + VariantFields(r);
    assert m["Priority"] == JNum(r.priority) && m["Weight"] == JNum(r.weight);
    assert m["Port"] == JNum(r.port) && m["Target"] == JStr(r.target);
  }

  /** The envelope part of DecodeEncoded, for any object that holds the envelope's members. */
  lemma EnvelopeDecodesEncoded(s: Envelope, e: Envelope, m: map<string, Json>)
    requires forall k :: k in EnvelopeKeys ==> (k in m <==> k in EncodeEnvelope(e))
    requires forall k :: k in EncodeEnvelope(e) ==> m[k] == EncodeEnvelope(e)[k]
    ensures DecodeEnvelope(s, m) ==
            (e.(id := if e.id == "" then s.id else e.id, name := if e.name == "" then s.name else e.name), true)
  {
  }

  /** Encoding then decoding into a fresh value of the same variant gives the record back. */
  lemma RecordRoundTrip(r: Record)
    ensures DecodeRecord(Zero(KindOf(r)), EncodeRecord(r)) == (r, true)
  {
    DecodeEncoded(Zero(KindOf(r)), r);
  }

  /** `{"Resource": record}`, the envelope of every write request. */
  function ResourceEnvelope(r: Record): (j: Json)
    ensures j.JObj? && j.fields.Keys == {"Resource"}
    ensures j.fields["Resource"] == JObj(EncodeRecord(r))
  {
    JObj(map["Resource" := JObj(EncodeRecord(r))])
  }

  /**
   * Decoding a response into `struct{ Resource IRecord }` whose interface
   * holds the caller's record: an object under "Resource" is decoded into
   * the record; `null` (anywhere) leaves the record alone; any other value
   * is a type error.
   */
  function DecodeResourceEnvelope(r: Record, j: Json): (out: (Record, bool))
    ensures KindOf(out.0) == KindOf(r)
    ensures (j.JObj? && "Resource" in j.fields && j.fields["Resource"].JObj?) ==>
              out == DecodeRecord(r, j.fields["Resource"].fields)
    ensures !(j.JObj? && "Resource" in j.fields && j.fields["Resource"].JObj?) ==> out.0 == r
  {
    match j
    case JNull => (r, true)
    case JObj(m) =>
      if "Resource" !in m then (r, true)
      else (match m["Resource"]
            case JNull => (r, true)
            case JObj(f) => DecodeRecord(r, f)
            case _ => (r, false))
    case _ => (r, false)
  }

  /** A server echo of the request envelope with an id filled in hands that id to the caller's record. */
  lemma EchoAssignsId(r: Record, id: string)
    requires id != ""
    ensures var echo := ResourceEnvelope(r.(env := r.env.(id := id)));
            DecodeResourceEnvelope(r, echo) == (r.(env := r.env.(id := id)), true)
  {
    var s := r.(env := r.env.(id := id));
    DecodeEncoded(r, s);
    assert Overlay(r, s) == s;
  }
}
