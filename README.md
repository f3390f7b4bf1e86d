# golang-gehirndns, modelled in Dafny

This project models the core of golang-gehirndns, a Go client for the Gehirn DNS REST API, and proves properties of that model. It has four parts.

- **Records** (`record.dfy`, record.go). These are the eight DNS record variants: SOA, NS, A, AAAA, CNAME, MX, TXT and SRV.
  - Each variant carries the common envelope: `Id`, `Name`, `HostName`, `Type` and `TTL`.
  - The `IRecord` accessors come with the `GetHostName` preference rule.
  - `Seconds.Duration` is modelled with int64 wrap-around.
  - The JSON view follows the struct tags. `ID` and `Name` are `omitempty`, and SOA's fields are written as `MNAME`/`RNAME`.
  - Decoding follows encoding/json. A member that is present replaces its field; an absent or `null` member leaves it alone. Unknown members are ignored. A member of the wrong type is skipped and reported.
  - The kind-specific constructors behind every `Add*` helper are here too.
  - The record model of gehirndns.go is identical to record.go's, so it is modelled once, here.
- **Zone** (`zone.dfy`, zone.go). This is the zone handle, a `Zone` class.
  - It holds the SOA record and seven record lists.
  - `postGet` runs its per-record pass (a `for` loop with invariants) over all of them.
  - Request paths have the form `resource/{zone}/{record}`.
  - Create, update and delete carry their id guards: create needs an empty `Id`; update and delete need it set.
  - Update clears `Name` before encoding.
  - The server's reply is written back into the caller's record (`RecordRef`, the Go pointer).
- **Client** (`client.dfy`, client.go). This is the per-zone client, a `Client` class.
  - Its endpoint is `api/dns/resource/{zone}`.
  - `buildURL` copies the endpoint before joining, so the stored endpoint is never changed.
  - Requests carry basic auth, with the token as user and the secret as password, plus the JSON content type.
  - `request` classifies the reply as a status-line error, the provider's message, or a decoded 200 body.
  - `AddResource` POSTs the record to the endpoint itself and decodes the reply into the same record.
- **Earlier revision** (`gehirndns.dfy`, gehirndns.go). This is the same client before zone handles existed.
  - Its requests have no Content-Type header.
  - A non-200 reply yields the status line, and the body is not read.
  - `GetResources` decodes the whole zone and requires `is_success`.
  - The `Add*` helpers only print the body they would send. They never send anything and never return an error.

Supporting modules:

- `ints.dfy` holds the Go integer types (`Int64`, `Uint64`) and the explicit two's-complement wrap `Wrap64`.
- `decimal.dfy` holds `strconv.Itoa`, with a parser as its partner.
- `paths.dfy` holds `path.Join` over segment lists.
- `json.dfy` holds the abstract JSON value and the per-field store rules of the decoder.
- `errors.dfy` holds the error values, including the two sentinels of errors.go with their exact texts.
- `http.dfy` holds the URL object, the built request and the reply of one round trip.

Effects become parameters.

- The HTTP round trip is a function `transport` from the built request to a `RoundTrip`: a transport failure, or a response with a status code, a status line and a body that is either not JSON or a JSON document.
- The request a method builds is returned next to its result, so "sends no request" is stated as `None`.
- What a method prints is returned as an out-parameter.
- The per-record step of `postGet` (`setHostNameByName`, which is not part of this model) is a parameter acting on the record's envelope.

Where the code and its description differ, the model follows the code:

- client.go's `request` keeps only the provider's `message`. The `code` is decoded, so a non-numeric code makes the body undecodable, but the code is then dropped.
- A non-200 body that decodes but carries no `error` member gives an error with the empty text, not the status line (`Clients.MessagelessErrorIsEmpty`).
- client.go's `AddResource` has no id guard; only zone.go's has one.
- zone.go's `UpdateResource` clears the caller's `Name` before sending, so the name is gone even when the server refuses the update (`Zones.UpdateClearsName`).

## Model

| member | source | states |
|---|---|---|
| Ints.Wrap64 | record.go:18-20 | the int64 result of an integer computation: equal to it in the int64 range, congruent to it modulo 2^64, and reduced by exactly 2^64 in the upper half of the uint64 range |
| Ints.Wrap64InjectiveOnUint64 | client.go:32-47 | `int(x)` of a uint64 loses nothing: two uint64 values with the same int64 conversion are equal |
| Records.Duration | record.go:18-20 | `s` seconds as nanoseconds: exactly `s * 10^9` when `|s| <= maxInt64 / 10^9`, and otherwise the int64 wrap of that product |
| Records.GetHostName | record.go:41-47 | the `Name` when it is non-empty, the `HostName` otherwise |
| Records.GetId | record.go:37-39 | the stored id, which the envelope's JSON shows under `ID` exactly when it is non-empty |
| Records.GetType | record.go:49-51 | the stored type, the value of the envelope's `Type` member |
| Records.GetTTL | record.go:53-55 | the stored TTL, the value of the envelope's `TTL` member |
| Records.AccessorsReturnStored | record.go:37-55 | `GetId`, `GetType` and `GetTTL` return the stored `Id`, `Type` and `TTL` unchanged, and `GetHostName` applies the preference rule to the stored fields |
| Records.AccessorsDependOnEnvelopeOnly | record.go:22-35 | every variant answers the four `IRecord` accessors through its one embedded envelope: records with equal envelopes answer alike whatever their variants |
| Records.Zero | record.go:57-105 | the zero value of each variant struct has that variant and the empty envelope |
| Records.EncodeEnvelope | record.go:29-35 | the `ID` key is present iff `Id` is non-empty and the `Name` key iff `Name` is non-empty, each holding its value; `HostName`, `Type` and `TTL` are always present with their values; no other key occurs |
| Records.VariantFields | record.go:57-105 | a variant's own members are exactly the keys of its struct tags |
| Records.VariantKeysDisjoint | record.go:57-105 | no variant field shares a JSON key with the promoted envelope fields, so none shadows them |
| Records.EncodeRecord | record.go:29-105 | a record's JSON object has exactly the variant's keys plus the envelope's, and every envelope member appears with the envelope's value |
| Records.EncodingShowsAccessors | record.go:29-55 | the encoded record shows `ID` iff the id is set, and carries `HostName`, `Type` and `TTL` as the accessors return them |
| Records.SoaMailKeys | record.go:58-59 | SOA's primary server and mailbox are written under `MNAME` and `RNAME`, and never under the Go field names |
| Records.DecodeVariant | record.go:57-105 | decoding into a variant's own fields keeps the variant and leaves the envelope as it was |
| Records.DecodeEnvelope | record.go:29-35 | each envelope field takes the string (for `TTL`, the int64) under its tag when there is one and otherwise keeps its value; decoding succeeds iff every envelope member present is null or of its field's type |
| Records.DecodeRecord | record.go:29-105 | decoding into an existing record never changes its variant; its envelope is decoded by the envelope rule, and a clean decode takes a clean envelope |
| Records.DecodeEncoded | record.go:29-105 | decoding the encoding of `r` into any record of the same variant gives `r`, except that an empty id or name keeps the target's old value (it was omitted), and reports no error |
| Records.RecordRoundTrip | record.go:29-105 | encoding a record and decoding it into the zero value of its variant gives the record back, with no error |
| Records.ClearName | zone.go:233 | `clearName`: the name becomes empty, `GetHostName` falls back to `HostName`, and nothing else in the record changes |
| Records.NewNS | zone.go:75-91 | an NS record whose type tag is "NS", with empty id and name, the given host name, TTL and name server |
| Records.NewA | zone.go:93-109 | an A record tagged "A", with empty id and name, the given host name, TTL and address |
| Records.NewAAAA | zone.go:111-127 | an AAAA record tagged "AAAA", with empty id and name, the given host name, TTL and address |
| Records.NewCNAME | zone.go:129-145 | a CNAME record tagged "CNAME", with empty id and name, the given host name, TTL and alias target |
| Records.NewMX | zone.go:147-164 | an MX record tagged "MX", with empty id and name, the given host name, TTL, mail server and priority |
| Records.NewTXT | zone.go:166-182 | a TXT record tagged "TXT", with empty id and name, the given host name, TTL and text |
| Records.NewSRV | zone.go:184-203 | an SRV record tagged "SRV", with empty id and name, the given host name, TTL, target, port, weight and priority |
| Records.ResourceEnvelope | zone.go:210-214 | the request body `{"Resource": record}`, with no other member |
| Records.DecodeResourceEnvelope | client.go:284-289 | decoding a reply into the envelope that holds the caller's record: an object under `Resource` is decoded into that record; anything else leaves the record as it was; the variant never changes |
| Records.EchoAssignsId | client.go:284-289 | a reply that echoes the request with an id filled in gives the caller's record that id, with no error |
| Decimal.Itoa | zone.go:17-19 | the decimal text is non-empty and has no '/'; it starts with '-' exactly for negative numbers |
| Decimal.ItoaRoundTrip | zone.go:17-19 | parsing the decimal text of `n` gives `n` back |
| Decimal.ItoaInjective | zone.go:17-19 | distinct numbers have distinct decimal texts |
| Errors.Text | errors.go:8-9 | the two sentinels print errors.go's messages, typo included; a transport or message error prints the text it carries |
| Errors.SentinelTextsDiffer | errors.go:8-9 | ErrMaybeRegistered and ErrIdUnset print differently |
| Paths.Join | client.go:49-54 | `path.Join(base, segs...)` keeps the base path as a prefix; after it come no empty segments and every non-empty argument as often as it was given; arguments that are all non-empty are appended as they are |
| Paths.NonEmpty | client.go:38-41 | the arguments `path.Join` keeps: no empty segment, every non-empty one as often as in the arguments, and never more segments than were given |
| Paths.NonEmptyAppend | client.go:38-41 | dropping empty segments commutes with concatenating argument lists |
| Paths.JoinAssociates | client.go:49-54 | joining onto a joined path is joining once with both argument lists, so the endpoint's `resource/{zone}` and a later relative path compose |
| Zones.ZoneIdString | zone.go:13-19 | `ZoneId.String` (through `Int`): a non-empty decimal without '/', from which the id parses back |
| Zones.RequestPath | zone.go:66-69 | `makeRequest`'s path is `["resource", zone]` for an empty record id and `["resource", zone, id]` otherwise |
| Zones.RequestPathText | zone.go:66-69 | as text, the path is "resource/{zone}", or "resource/{zone}/{id}" when the record id is set (for ids that `Clean` leaves alone; see "Left out") |
| Zones.RequestPathInjective | zone.go:66-69 | distinct (zone, record id) pairs never share a request path (for ids that `Clean` leaves alone; see "Left out") |
| Zones.Exchange | zone.go:220-226 | the request is recorded as sent and the record keeps its variant; a transport failure or a non-200 reply leaves the record as it was and returns an error, so no error means a 200 reply |
| Zones.AddOutcome | zone.go:205-227 | a request is sent iff the record has no id; otherwise the error is ErrMaybeRegistered and the record is unchanged; the request sent is a POST of `{"Resource": record}`; the variant never changes |
| Zones.UpdateOutcome | zone.go:229-252 | a request is sent iff the record has an id; otherwise the error is ErrIdUnset and the record is unchanged; the request sent is a PUT to the record's path; the variant never changes |
| Zones.DeleteOutcome | zone.go:254-271 | a request is sent iff the record has an id; otherwise the error is ErrIdUnset and the record is unchanged; the request sent is a DELETE without body; the variant never changes |
| Zones.AddRefusesRegistered | zone.go:205-208 | creating a record with an id fails with ErrMaybeRegistered, builds no request and leaves the record as it was |
| Zones.AddPostsToCollection | zone.go:205-227 | a record without id is POSTed, as `{"Resource": record}`, to "resource/{zone}" |
| Zones.AddPicksUpServerId | zone.go:220-226 | when the server echoes the record with an id, the caller's record gains that id and the create succeeds |
| Zones.NewRecordsAreSent | zone.go:75-206 | every record an `Add*` helper builds passes the id guard and is sent |
| Zones.UpdateRequiresId | zone.go:229-233 | updating a record without id fails with ErrIdUnset, sends nothing and leaves the record, name included, as it was |
| Zones.UpdateClearsName | zone.go:229-252 | an update with an id PUTs to "resource/{zone}/{id}" the envelope of the record with its name cleared, so no `Name` member is sent; if the server refuses, the caller's record is the name-cleared one |
| Zones.DeleteRequiresId | zone.go:254-257 | deleting a record without id fails with ErrIdUnset and sends nothing |
| Zones.DeleteKeepsName | zone.go:254-271 | a delete sends a DELETE with no body to "resource/{zone}/{id}" and does not clear the name: a refused delete leaves the record as it was |
| Zones.PostGetRecord | zone.go:41-43 | the per-record step changes only the record's envelope, as the step prescribes, and keeps its variant and own fields |
| Zones.SteppedKeepsKind | zone.go:45-53 | the pass keeps a list homogeneous: every record still has the list's kind |
| Zones.Zone.PostGetRecords | zone.go:45-53 | the result has the list's length and holds, at every index, the step applied to the record at that index |
| Zones.Zone.PostGet | zone.go:55-64 | the step is applied to the SOA and to every element of each of the seven lists; lengths and order are unchanged and every list keeps its kind |
| Zones.Zone.AddResource | zone.go:205-227 | the caller's record, the error and the request sent are those of the create rule: id guard, POST to the collection, reply decoded into the record |
| Zones.Zone.UpdateResource | zone.go:229-252 | the caller's record, the error and the request sent are those of the update rule: id guard, name cleared, PUT to the record's path, reply decoded into the record |
| Zones.Zone.DeleteResource | zone.go:254-271 | the caller's record, the error and the request sent are those of the delete rule: id guard, DELETE with no body, reply decoded into the record |
| Zones.Zone.AddNS | zone.go:75-91 | a fresh record built by NewNS, together with the create rule's result for it |
| Zones.Zone.AddA | zone.go:93-109 | a fresh record built by NewA, together with the create rule's result for it |
| Zones.Zone.AddAAAA | zone.go:111-127 | a fresh record built by NewAAAA, together with the create rule's result for it |
| Zones.Zone.AddCNAME | zone.go:129-145 | a fresh record built by NewCNAME, together with the create rule's result for it |
| Zones.Zone.AddMX | zone.go:147-164 | a fresh record built by NewMX, together with the create rule's result for it |
| Zones.Zone.AddTXT | zone.go:166-182 | a fresh record built by NewTXT, together with the create rule's result for it |
| Zones.Zone.AddSRV | zone.go:184-203 | a fresh record built by NewSRV, together with the create rule's result for it |
| Zones.Zone.constructor | zone.go:27-39 | a zone handle holding the given id, SOA record and seven lists; the Go field types make the SOA an SOA record and each slice one of its own kind, and the handle is valid |
| Zones.Zone.GetId | zone.go:71-73 | the zone's id, a constant field fixed at construction |
| Zones.Zone.MakeRequest | zone.go:66-69 | the request carries the given method and body, and its path reads "resource/{zone}", or "resource/{zone}/{record}" when the record id is set |
| Clients.EndpointPath | client.go:32-47 | the endpoint path is `api/dns/resource/{zone}`; the zone id parses back from it below 2^63 and, through `int(zoneId)`, prints as a negative number from 2^63 on |
| Clients.DistinctZonesDistinctEndpoints | client.go:32-47 | clients for distinct zones have distinct endpoints, over the whole uint64 range: `int(zoneId)` is one-to-one |
| Clients.Client.constructor | client.go:32-47 | `NewClient`: a fresh endpoint, the API URL with path `api/dns/resource/{zone}`, and the given key |
| Clients.Client.BuildURL | client.go:49-54 | a fresh URL equal to the endpoint with `relativePath` joined onto its path; the stored endpoint is not modified, so calls never compound |
| Clients.Client.MakeRequest | client.go:56-66 | the request goes to the built URL with the given method and body, the token as basic-auth user, the secret as password, and `Content-Type: text/json;charset=utf8` as its only header besides the basic-auth Authorization header |
| Clients.DecodeErrorBody | client.go:74-86 | a body that is not JSON, or is JSON but neither an object nor null, has no provider message |
| Clients.DecodeErrorObject | client.go:76-84 | the `error` member decoded into `struct{ Code uint; Message string }`: null gives the empty message; a string message with a code that fits a uint (or none) gives that message; a non-object, a mistyped message or a code outside the uint range gives no message |
| Clients.ErrorDocumentDecodes | client.go:75-88 | a well-formed provider error `{"error":{"code":c,"message":m}}` yields exactly `m` |
| Clients.Request | client.go:68-97 | a transport failure is returned as is; a non-200 reply never touches the target, and its error is the provider message when the body decodes as an error document and the status line otherwise; a 200 reply with a non-JSON body is a decoding error; a 200 JSON body is decoded into the target, and any decode error is reported |
| Clients.NotFoundMessage | client.go:74-88 | a 404 carrying the provider error "not found" fails with exactly "not found" |
| Clients.UnparseableErrorGivesStatus | client.go:74-86 | a non-200 reply whose body is not JSON fails with the status line |
| Clients.MessagelessErrorIsEmpty | client.go:74-88 | a non-200 reply whose JSON object has no `error` member fails with the empty message, not the status line |
| Clients.PostRequest | client.go:268-282 | AddResource POSTs `{"Resource": record}` to the client endpoint itself (relative path ""), with the key's credentials |
| Clients.AddResult | client.go:268-291 | the caller's record after AddResource keeps its variant; a transport failure leaves it as it was with that failure as the error; no error means a 200 JSON reply |
| Clients.AddPicksUpServerId | client.go:284-290 | an echo with an id gives the caller's record that id, with no error |
| Clients.AddFailureKeepsRecord | client.go:284-290 | a failed or refused POST leaves the caller's record as it was and returns an error |
| Clients.Client.AddResource | client.go:268-291 | sends exactly the POST of PostRequest and leaves the caller's record and the error as `request` decides for the reply; there is no id guard |
| Clients.Client.AddNS | client.go:126-142 | a fresh record built by NewNS, with the record and error AddResource gives for it |
| Clients.Client.AddA | client.go:144-160 | a fresh record built by NewA, with the record and error AddResource gives for it |
| Clients.Client.AddAAAA | client.go:162-178 | a fresh record built by NewAAAA, with the record and error AddResource gives for it |
| Clients.Client.AddCNAME | client.go:180-196 | a fresh record built by NewCNAME, with the record and error AddResource gives for it |
| Clients.Client.AddMX | client.go:198-215 | a fresh record built by NewMX, with the record and error AddResource gives for it |
| Clients.Client.AddTXT | client.go:217-233 | a fresh record built by NewTXT, with the record and error AddResource gives for it |
| Clients.Client.AddSRV | client.go:235-254 | a fresh record built by NewSRV, with the record and error AddResource gives for it |
| GehirnDns.Client.constructor | gehirndns.go:127-143 | `NewClient`: the same endpoint path as the later revision, with the token and secret stored |
| GehirnDns.Client.BuildURL | gehirndns.go:145-150 | a fresh copy of the endpoint with the relative path joined on; the endpoint itself is untouched |
| GehirnDns.Client.MakeRequest | gehirndns.go:152-161 | basic auth with the token as user and the secret as password, and no header besides the basic-auth Authorization header |
| GehirnDns.Request | gehirndns.go:163-179 | a transport failure is returned as is; a non-200 reply fails with its status line, whatever its body; a 200 body is decoded into the target and decode errors are reported |
| GehirnDns.RefusedReplyReportsStatus | gehirndns.go:169-171 | GetResources on a non-200 reply fails with the status line and prints nothing, even when the body is a provider error document |
| GehirnDns.DecodeItem | gehirndns.go:187-197 | one array element decoded into a fresh record of the slice's kind: null gives the zero record, a non-object gives it with an error, an object is decoded by the envelope rule |
| GehirnDns.StoreRecord | gehirndns.go:189 | the `SOA` member stored into the SOA struct: absent or null keeps it, a non-object keeps it with an error, an object is decoded into it; the variant never changes |
| GehirnDns.DecodeItems | gehirndns.go:187-197 | a JSON array decoded into a nil record slice has one record per element, each the element decoded into a fresh record of the slice's kind, and reports an error iff some element fails |
| GehirnDns.StoreList | gehirndns.go:187-197 | a slice member: absent leaves the slice, `null` empties it, an array replaces it with one record of the slice's kind per element, each that element decoded, and anything else leaves it with an error; a homogeneous slice stays homogeneous |
| GehirnDns.DecodeContents | gehirndns.go:187-197 | decoding the `Resource` members keeps the SOA an SOA record and every list of its kind |
| GehirnDns.DecodeBody | gehirndns.go:187-201 | a top-level null changes nothing; a non-object is an error that changes nothing; `is_success` sets the flag when it is a bool, keeps it when absent or null and is an error otherwise; an absent or null `Resource` keeps the zone; the zone keeps every list of its kind |
| GehirnDns.ListRoundTrip | gehirndns.go:187-197 | an encoded list of records of one kind decodes back into the same list, in order, with no error |
| GehirnDns.ContentsRoundTrip | gehirndns.go:187-197 | an encoded zone decodes into the empty body as the same SOA and lists |
| GehirnDns.GetResourcesOutcome | gehirndns.go:181-209 | the zone is printed exactly when no error is returned, which takes a 200 JSON reply; the printed zone keeps every list of its kind |
| GehirnDns.SuccessFlagDecides | gehirndns.go:198-205 | a 200 reply that decodes cleanly is accepted iff it carries `"is_success": true`; otherwise the error is "unsuccessful" |
| GehirnDns.GetResourcesReturnsZone | gehirndns.go:181-209 | a 200 reply carrying a zone and flagged successful prints exactly that zone, with no error |
| GehirnDns.Client.GetResources | gehirndns.go:181-209 | sends a GET with no body to the endpoint itself, and prints and returns what GetResourcesOutcome gives for the reply |
| GehirnDns.Client.AddResource | gehirndns.go:341-355 | prints `{"Resource": record}` and returns no error; it has no transport, so nothing can be sent, and it modifies nothing |
| GehirnDns.Client.AddNS | gehirndns.go:211-227 | a fresh record equal to NewNS's, the body printed for it, and no error, since AddResource's result is dropped |
| GehirnDns.Client.AddA | gehirndns.go:229-245 | a fresh record equal to NewA's, the body printed for it, and no error |
| GehirnDns.Client.AddAAAA | gehirndns.go:247-263 | a fresh record equal to NewAAAA's, the body printed for it, and no error |
| GehirnDns.Client.AddCNAME | gehirndns.go:265-281 | a fresh record equal to NewCNAME's, the body printed for it, and no error |
| GehirnDns.Client.AddMX | gehirndns.go:283-300 | a fresh record equal to NewMX's, the body printed for it, and no error |
| GehirnDns.Client.AddTXT | gehirndns.go:302-318 | a fresh record equal to NewTXT's, the body printed for it, and no error |
| GehirnDns.Client.AddSRV | gehirndns.go:320-339 | a fresh record equal to NewSRV's, the body printed for it, and no error |

## Left out

- The HTTP transport is left out: `http.DefaultClient.Do`, TLS and connections are I/O. A round trip is a function parameter, and a failure is a value carrying a reason.
- `http.NewRequest` and the JSON encoders can fail in Go. With the model's inputs they cannot, so those error paths are not modelled.
- The byte-level JSON syntax, `MarshalIndent` layout and the texts of encoding/json's errors are left out. Decoding errors are one value, `JsonError`, and its text is a placeholder.
- Go's case-insensitive key matching and duplicate object keys are left out. JSON objects are maps with exact keys.
- JSON numbers are integers. Fractional numbers and the decoder's float handling are not modelled.
- The decoder's partial results after an error are left out. A mistyped member is skipped and decoding carries on; the model keeps every other member's effect, but a syntax error midway through a document is modelled only as "not JSON".
- `url.Parse` of the constant endpoint, the `panic` in `NewClient`, and URL printing are left out. The endpoint is given by its parts.
- `path.Join` is reduced to appending its non-empty arguments as segments. Its `Clean` step (leading slash, "." and "..", slashes inside one argument) is not modelled.
- Zones.RequestPathInjective, Zones.RequestPathText: both hold for zone.go only for record ids without '/' that are not "." or "..", because they rest on the reduced `path.Join`. Go's `Clean` makes other ids collide: zone 5 with id "../6/abc" and zone 6 with id "abc" both give "resource/6/abc", and "a//b" prints as "a/b".
- Printing is left out: `pretty.Println` in GetResources and `fmt.Println` in the earlier AddResource. What would be printed is returned as an out-parameter, without its layout.
- `fmt.Errorf` treats the server's message and the status line as format strings. The model keeps them as raw text, so a '%' in a message is not expanded.
- `setHostNameByName`, `RecordId.String` and `HostName.String` are not part of this model.
  - The postGet step is a parameter acting on the envelope only.
  - `clearName` is modelled as emptying `Name`.
  - String conversions are identities.
- Zones.Zone.PostGet: the Go slices hold pointers that the step mutates in place, and the caller may share them. The model keeps the lists as values and reassigns them, so that aliasing is not captured. With a pure step, the index order of the pass cannot be observed.
- Zones.Zone: the handle's `client` field is not modelled. A zone hands method, relative path and body to the transport, and the reply is classified by client.go's `request` (`Clients.Request`).
- Clients.Client: `apiKey` is a shared pointer in Go. The model stores it as a value, so a nil `*ApiKey`, which makes Go panic at `c.apiKey.Token` (client.go:63) on the first request, cannot be expressed.
- client.go's `GetResources` (client.go:99-124) is not modelled. It is the earlier revision's GetResources without the `is_success` check; that one is modelled in `GehirnDns`.
- The revisions are not composed. client.go's endpoint already ends in `resource/{zone}`, and zone.go's `makeRequest` appends `resource/{zone}` again. Each file is modelled on its own terms, and no property of the combination is proved.
- The record decoder starts each array element from the zero record. That is what encoding/json does for the nil slices of a fresh reply struct. Reuse of existing slice elements is not modelled.
- Go `uint` is taken to be 64 bits wide, and `int` likewise.
- zone.go's unexported `record` type, which its record structs embed, is not part of this model. It is assumed to have record.go's `Record` fields and JSON tags, so zone.go's records are modelled by `Records`.
- Records.RecordRoundTrip, Records.DecodeEncoded and GehirnDns.ListRoundTrip hold for Dafny strings only. A Go string is a byte sequence, and encoding/json replaces invalid UTF-8 with U+FFFD, so for such strings the Go round trip is not the identity; the model cannot represent those bytes.
- Zones.Zone.PostGet: in Go, `SOA` and the slice elements are pointers, and decoding `"SOA": null` or `[null]` leaves them nil, so postGet would panic on the nil dereference. The model's zone always holds records, so that panic is not modelled.
