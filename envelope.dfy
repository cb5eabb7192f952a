/**
  The wire envelope shared by host, relay and mobile client (`RemoteEnvelope`),
  the header that the relay decodes before it knows the payload type
  (`RemoteEnvelopeHeader`), and the peer address (`RemotePeer`).

  A payload codec is passed in as a pair of functions, the way Swift's generic
  `RemoteEnvelope<Payload: Codable>` is parameterised by the payload's Codable
  conformance.
 */
module Envelope {

  import opened Wrappers
  import opened Json

  // ---------------------------------------------------------------- peers

  /** The kind of a peer; its raw values are the strings on the wire. */
  datatype DeviceKind = Host | Client | Relay

  function KindRaw(k: DeviceKind): string {
    match k
    case Host => "host"
    case Client => "client"
    case Relay => "relay"
  }

  /** `DeviceKind(rawValue:)`. */
  function ParseKind(s: string): (r: Option<DeviceKind>)
    ensures r.Some? ==> KindRaw(r.value) == s
    ensures forall k :: KindRaw(k) == s ==> r == Some(k)
  {
    if s == "host" then Some(Host)
    else if s == "client" then Some(Client)
    else if s == "relay" then Some(Relay)
    else None
  }

  datatype Peer = Peer(kind: DeviceKind, id: string)

  const PeerKeys: set<string> := {"kind", "id"}

  /** The synthesized encoding of `RemotePeer`; decoding it gives the peer back. */
  function EncodePeer(p: Peer): (j: Value)
    ensures j.JObject? && j.fields.Keys == PeerKeys
    ensures DecodePeer(j) == Some(p)
  {
    JObject(map["kind" := JString(KindRaw(p.kind)), "id" := JString(p.id)])
  }

  function DecodePeer(j: Value): (r: Option<Peer>)
    ensures r.Some? ==> j.JObject? && PeerKeys <= j.fields.Keys
  {
    var m :- AsObject(j);
    var kindRaw :- GetString(m, "kind");
    var kind :- ParseKind(kindRaw);
    var id :- GetString(m, "id");
    Some(Peer(kind, id))
  }

  // ---------------------------------------------------------------- UUIDs

  predicate IsHexDigit(c: char) {
    '0' <= c <= '9' || 'a' <= c <= 'f' || 'A' <= c <= 'F'
  }

  predicate IsDashPosition(i: int) {
    i == 8 || i == 13 || i == 18 || i == 23
  }

  /** Text that `UUID(uuidString:)` accepts: 8-4-4-4-12 hex digits, either case. */
  predicate IsUuidText(s: string) {
    |s| == 36 &&
    forall i :: 0 <= i < 36 ==> if IsDashPosition(i) then s[i] == '-' else IsHexDigit(s[i])
  }

  function UpperHex(c: char): char {
    if 'a' <= c <= 'f' then (c as int - 32) as char else c
  }

  /** `uuidString`: the canonical upper-case form. */
  predicate IsCanonicalUuid(s: string) {
    IsUuidText(s) && forall i :: 0 <= i < |s| ==> UpperHex(s[i]) == s[i]
  }

  /** Decoding a UUID from a JSON string, which yields its canonical text. */
  function DecodeUuid(j: Value): (r: Option<string>)
    ensures r.Some? ==> j.JString? && IsUuidText(j.s) && IsCanonicalUuid(r.value)
    ensures j.JString? && IsCanonicalUuid(j.s) ==> r == Some(j.s)
  {
    if j.JString? && IsUuidText(j.s) then
      var u := seq(|j.s|, i requires 0 <= i < |j.s| => UpperHex(j.s[i]));
      assert forall i :: 0 <= i < |u| ==> UpperHex(u[i]) == u[i];
      assert IsCanonicalUuid(j.s) ==> u == j.s;
      Some(u)
    else
      None
  }

  // ---------------------------------------------------------------- envelope

  /**
    `RemoteEnvelope<P>`. `timestamp` is in milliseconds; `messageID` is the
    UUID's canonical text.
   */
  datatype Envelope<P> = Envelope(
    v: int,
    typ: string,
    messageID: string,
    timestamp: int,
    source: Peer,
    target: Peer,
    payload: P)

  /** `RemoteEnvelopeHeader`: every envelope field except the payload. */
  datatype Header = Header(
    v: int,
    typ: string,
    messageID: string,
    timestamp: int,
    source: Peer,
    target: Peer)

  function HeaderOf<P>(e: Envelope<P>): Header {
    Header(e.v, e.typ, e.messageID, e.timestamp, e.source, e.target)
  }

  /** The envelope's coding keys. */
  const EnvelopeKeys: set<string> :=
    {"v", "type", "message_id", "timestamp", "source", "target", "payload"}

  /** The header's coding keys. */
  const HeaderKeys: set<string> :=
    {"v", "type", "message_id", "timestamp", "source", "target"}

  /** The header reads the envelope's keys, all but the payload. */
  lemma HeaderKeysAreEnvelopeKeysWithoutPayload()
    ensures HeaderKeys == EnvelopeKeys - {"payload"}
    ensures "payload" !in HeaderKeys
  {
  }

  /**
    The memberwise initialiser. The message id and the timestamp, which Swift
    fills with `UUID()` and `Date()`, are supplied by the caller; the version
    defaults to 1.
   */
  function NewEnvelope<P>(typ: string, messageID: string, timestamp: int,
                          source: Peer, target: Peer, payload: P, v: int := 1): (e: Envelope<P>)
    ensures e.v == v && e.typ == typ && e.messageID == messageID && e.timestamp == timestamp
    ensures e.source == source && e.target == target && e.payload == payload
  {
    Envelope(v, typ, messageID, timestamp, source, target, payload)
  }

  /** An envelope built without naming a version carries version 1. */
  lemma NewEnvelopeDefaultsToVersionOne<P>(typ: string, id: string, t: int, s: Peer, d: Peer, p: P)
    ensures NewEnvelope(typ, id, t, s, d, p).v == 1
  {
  }

  /** The encoding a host or mobile JSONEncoder (dates as `.iso8601`) produces. */
  function EncodeEnvelope<P>(e: Envelope<P>, encodePayload: P -> Value): (j: Value)
    ensures j.JObject? && j.fields.Keys == EnvelopeKeys
    ensures j.fields["payload"] == encodePayload(e.payload)
  {
    JObject(map[
      "v" := JInt(e.v),
      "type" := JString(e.typ),
      "message_id" := JString(e.messageID),
      "timestamp" := JDate(WholeSeconds(e.timestamp)),
      "source" := EncodePeer(e.source),
      "target" := EncodePeer(e.target),
      "payload" := encodePayload(e.payload)])
  }

  /** The synthesized header decoder: every header key is required, `v` included. */
  function DecodeHeader(j: Value): (r: Option<Header>)
    ensures r.Some? ==> j.JObject? && HeaderKeys <= j.fields.Keys
  {
    var m :- AsObject(j);
    var v :- GetInt(m, "v");
    var typ :- GetString(m, "type");
    var id :- GetUuid(m, "message_id");
    var ts :- GetDate(m, "timestamp");
    var src :- GetPeer(m, "source");
    var dst :- GetPeer(m, "target");
    Some(Header(v, typ, id, ts, src, dst))
  }

  /**
    A peer's first look at a received text: the parsed JSON and its header, when
    both decode, so that a handler can branch on the type before the typed decode.
   */
  function Inbound(text: string, parse: string -> Option<Value>): (r: Option<(Value, Header)>)
    ensures r.Some? <==> parse(text).Some? && DecodeHeader(parse(text).value).Some?
    ensures r.Some? ==> r.value.0 == parse(text).value && DecodeHeader(r.value.0) == Some(r.value.1)
  {
    var j :- parse(text);
    var h :- DecodeHeader(j);
    Some((j, h))
  }

  function GetUuid(m: Object, k: string): (r: Option<string>)
    ensures r.Some? ==> k in m
  {
    if k in m then DecodeUuid(m[k]) else None
  }

  function GetPeer(m: Object, k: string): (r: Option<Peer>)
    ensures r.Some? ==> k in m
  {
    if k in m then DecodePeer(m[k]) else None
  }

  /**
    The synthesized envelope decoder. Swift's synthesized `init(from:)` does not
    use the initialiser's default, so `v` must be present here as well.
   */
  function DecodeEnvelope<P>(j: Value, decodePayload: Value -> Option<P>): (r: Option<Envelope<P>>)
    ensures r.Some? ==> j.JObject? && EnvelopeKeys <= j.fields.Keys
    ensures r.Some? ==> DecodeHeader(j) == Some(HeaderOf(r.value))
    ensures r.Some? ==> decodePayload(j.fields["payload"]) == Some(r.value.payload)
  {
    var h :- DecodeHeader(j);
    var m := j.fields;
    if "payload" !in m then None
    else
      var p :- decodePayload(m["payload"]);
      Some(Envelope(h.v, h.typ, h.messageID, h.timestamp, h.source, h.target, p))
  }

  /**
    Encoding then decoding an envelope gives back every field, with the
    timestamp cut to whole seconds and the payload as its own codec returns it.
   */
  lemma EnvelopeRoundTrip<P>(e: Envelope<P>, encodePayload: P -> Value,
                             decodePayload: Value -> Option<P>, q: P)
    requires IsCanonicalUuid(e.messageID)
    requires decodePayload(encodePayload(e.payload)) == Some(q)
    ensures DecodeEnvelope(EncodeEnvelope(e, encodePayload), decodePayload)
            == Some(e.(timestamp := WholeSeconds(e.timestamp), payload := q))
  {
    HeaderOfEncodedEnvelope(e, encodePayload);
  }

  /**
    Whatever the payload, the header decoded from an encoded envelope is that
    envelope's header (timestamp at whole seconds): the relay can branch on
    `type` before it decodes the payload.
   */
  lemma HeaderOfEncodedEnvelope<P>(e: Envelope<P>, encodePayload: P -> Value)
    requires IsCanonicalUuid(e.messageID)
    ensures DecodeHeader(EncodeEnvelope(e, encodePayload))
            == Some(HeaderOf(e.(timestamp := WholeSeconds(e.timestamp))))
  {
    var m := EncodeEnvelope(e, encodePayload).fields;
    assert GetUuid(m, "message_id") == Some(e.messageID);
    assert GetPeer(m, "source") == Some(e.source);
    assert GetPeer(m, "target") == Some(e.target);
  }

  /** The header decode never reads the payload: replacing it changes nothing. */
  lemma HeaderIgnoresPayload(m: Object, other: Value)
    ensures DecodeHeader(JObject(m)) == DecodeHeader(JObject(m["payload" := other]))
  {
    var m' := m["payload" := other];
    assert forall k :: k != "payload" ==> (k in m <==> k in m') && (k in m ==> m[k] == m'[k]);
    assert GetUuid(m, "message_id") == GetUuid(m', "message_id");
    assert GetPeer(m, "source") == GetPeer(m', "source");
    assert GetPeer(m, "target") == GetPeer(m', "target");
  }

  /** A frame without `v` fails the header decode, and so the envelope decode. */
  lemma MissingVersionRejected<P>(m: Object, decodePayload: Value -> Option<P>)
    requires "v" !in m
    ensures DecodeHeader(JObject(m)).None?
    ensures DecodeEnvelope(JObject(m), decodePayload).None?
  {
  }
}
