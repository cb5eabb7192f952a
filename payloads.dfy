/**
  The bootstrap and pairing payloads and the pairing QR code: each is a key
  table over the JSON object. `EncodeX` is the synthesized Encodable conformance
  under JSONEncoder with `.iso8601` dates (whole seconds); `DecodeX` is the
  synthesized Decodable conformance, which needs every key, ignores extra
  keys and never applies an initialiser default.
 */
module Payloads {

  import opened Wrappers
  import opened Json

  // ---------------------------------------------------------------- bootstrap

  /** `HostHelloPayload`, which has no fields: any JSON object decodes to it. */
  datatype HostHello = HostHello

  function EncodeHostHello(p: HostHello): (j: Value)
    ensures j == JObject(map[])
    ensures DecodeHostHello(j) == Some(HostHello)
  {
    JObject(map[])
  }

  function DecodeHostHello(j: Value): (r: Option<HostHello>)
    ensures r.Some? <==> j.JObject?
  {
    if j.JObject? then Some(HostHello) else None
  }

  datatype HostRegister = HostRegister(displayName: string, publicKey: string, appVersion: string, platform: string)

  const HostRegisterKeys: set<string> := {"display_name", "public_key", "app_version", "platform"}

  function EncodeHostRegister(p: HostRegister): (j: Value)
    ensures j.JObject? && j.fields.Keys == HostRegisterKeys
    ensures DecodeHostRegister(j) == Some(p)
  {
    JObject(map[
      "display_name" := JString(p.displayName),
      "public_key" := JString(p.publicKey),
      "app_version" := JString(p.appVersion),
      "platform" := JString(p.platform)])
  }

  function DecodeHostRegister(j: Value): (r: Option<HostRegister>)
    ensures r.Some? ==> j.JObject? && HostRegisterKeys <= j.fields.Keys
  {
    var m :- AsObject(j);
    var name :- GetString(m, "display_name");
    var key :- GetString(m, "public_key");
    var version :- GetString(m, "app_version");
    var platform :- GetString(m, "platform");
    Some(HostRegister(name, key, version, platform))
  }

  /** `ChallengePayload`; `expiresAt` in milliseconds. */
  datatype Challenge = Challenge(nonce: string, expiresAt: int)

  const ChallengeKeys: set<string> := {"nonce", "expires_at"}

  function EncodeChallenge(p: Challenge): (j: Value)
    ensures j.JObject? && j.fields.Keys == ChallengeKeys
    ensures DecodeChallenge(j) == Some(p.(expiresAt := WholeSeconds(p.expiresAt)))
  {
    JObject(map["nonce" := JString(p.nonce), "expires_at" := JDate(WholeSeconds(p.expiresAt))])
  }

  function DecodeChallenge(j: Value): (r: Option<Challenge>)
    ensures r.Some? ==> j.JObject? && ChallengeKeys <= j.fields.Keys
  {
    var m :- AsObject(j);
    var nonce :- GetString(m, "nonce");
    var expiresAt :- GetDate(m, "expires_at");
    Some(Challenge(nonce, expiresAt))
  }

  /** `SignedChallengePayload`: no key table, so the keys are the property names. */
  datatype SignedChallenge = SignedChallenge(nonce: string, signature: string)

  const SignedChallengeKeys: set<string> := {"nonce", "signature"}

  function EncodeSignedChallenge(p: SignedChallenge): (j: Value)
    ensures j.JObject? && j.fields.Keys == SignedChallengeKeys
    ensures DecodeSignedChallenge(j) == Some(p)
  {
    JObject(map["nonce" := JString(p.nonce), "signature" := JString(p.signature)])
  }

  function DecodeSignedChallenge(j: Value): (r: Option<SignedChallenge>)
    ensures r.Some? ==> j.JObject? && SignedChallengeKeys <= j.fields.Keys
  {
    var m :- AsObject(j);
    var nonce :- GetString(m, "nonce");
    var signature :- GetString(m, "signature");
    Some(SignedChallenge(nonce, signature))
  }

  /** `HostAuthenticatedPayload` and `ClientAuthenticatedPayload` share this shape. */
  datatype Authenticated = Authenticated(authenticatedAt: int)

  const AuthenticatedKeys: set<string> := {"authenticated_at"}

  function EncodeAuthenticated(p: Authenticated): (j: Value)
    ensures j.JObject? && j.fields.Keys == AuthenticatedKeys
    ensures DecodeAuthenticated(j) == Some(Authenticated(WholeSeconds(p.authenticatedAt)))
  {
    JObject(map["authenticated_at" := JDate(WholeSeconds(p.authenticatedAt))])
  }

  /** The `authenticated_at` key is required although the initialiser has a default. */
  function DecodeAuthenticated(j: Value): (r: Option<Authenticated>)
    ensures r.Some? <==> j.JObject? && "authenticated_at" in j.fields && j.fields["authenticated_at"].JDate?
  {
    var m :- AsObject(j);
    var at :- GetDate(m, "authenticated_at");
    Some(Authenticated(at))
  }

  datatype ClientHello = ClientHello(hostID: string)

  const ClientHelloKeys: set<string> := {"host_id"}

  function EncodeClientHello(p: ClientHello): (j: Value)
    ensures j.JObject? && j.fields.Keys == ClientHelloKeys
    ensures DecodeClientHello(j) == Some(p)
  {
    JObject(map["host_id" := JString(p.hostID)])
  }

  function DecodeClientHello(j: Value): (r: Option<ClientHello>)
    ensures r.Some? ==> j.JObject? && ClientHelloKeys <= j.fields.Keys
  {
    var m :- AsObject(j);
    var hostID :- GetString(m, "host_id");
    Some(ClientHello(hostID))
  }

  // ---------------------------------------------------------------- pairing

  datatype PairingCreate = PairingCreate(ttlSeconds: int)

  const PairingCreateKeys: set<string> := {"ttl_seconds"}

  /** The initialiser; the time to live defaults to 60 seconds. */
  function NewPairingCreate(ttlSeconds: int := 60): (p: PairingCreate)
    ensures p.ttlSeconds == ttlSeconds
  {
    PairingCreate(ttlSeconds)
  }

  function EncodePairingCreate(p: PairingCreate): (j: Value)
    ensures j.JObject? && j.fields.Keys == PairingCreateKeys
    ensures DecodePairingCreate(j) == Some(p)
  {
    JObject(map["ttl_seconds" := JInt(p.ttlSeconds)])
  }

  function DecodePairingCreate(j: Value): (r: Option<PairingCreate>)
    ensures r.Some? ==> j.JObject? && PairingCreateKeys <= j.fields.Keys
  {
    var m :- AsObject(j);
    var ttl :- GetInt(m, "ttl_seconds");
    Some(PairingCreate(ttl))
  }

  datatype PairingCreated = PairingCreated(challengeID: string, nonce: string, expiresAt: int, relayURL: string)

  const PairingCreatedKeys: set<string> := {"challenge_id", "nonce", "expires_at", "relay_url"}

  function EncodePairingCreated(p: PairingCreated): (j: Value)
    ensures j.JObject? && j.fields.Keys == PairingCreatedKeys
    ensures DecodePairingCreated(j) == Some(p.(expiresAt := WholeSeconds(p.expiresAt)))
  {
    JObject(map[
      "challenge_id" := JString(p.challengeID),
      "nonce" := JString(p.nonce),
      "expires_at" := JDate(WholeSeconds(p.expiresAt)),
      "relay_url" := JString(p.relayURL)])
  }

  function DecodePairingCreated(j: Value): (r: Option<PairingCreated>)
    ensures r.Some? ==> j.JObject? && PairingCreatedKeys <= j.fields.Keys
  {
    var m :- AsObject(j);
    var id :- GetString(m, "challenge_id");
    var nonce :- GetString(m, "nonce");
    var expiresAt :- GetDate(m, "expires_at");
    var url :- GetString(m, "relay_url");
    Some(PairingCreated(id, nonce, expiresAt, url))
  }

  datatype PairingRequest = PairingRequest(hostID: string, challengeID: string, nonce: string,
                                           deviceName: string, publicKey: string)

  const PairingRequestKeys: set<string> := {"host_id", "challenge_id", "nonce", "device_name", "public_key"}

  function EncodePairingRequest(p: PairingRequest): (j: Value)
    ensures j.JObject? && j.fields.Keys == PairingRequestKeys
    ensures DecodePairingRequest(j) == Some(p)
  {
    JObject(map[
      "host_id" := JString(p.hostID),
      "challenge_id" := JString(p.challengeID),
      "nonce" := JString(p.nonce),
      "device_name" := JString(p.deviceName),
      "public_key" := JString(p.publicKey)])
  }

  function DecodePairingRequest(j: Value): (r: Option<PairingRequest>)
    ensures r.Some? ==> j.JObject? && PairingRequestKeys <= j.fields.Keys
  {
    var m :- AsObject(j);
    var hostID :- GetString(m, "host_id");
    var challengeID :- GetString(m, "challenge_id");
    var nonce :- GetString(m, "nonce");
    var deviceName :- GetString(m, "device_name");
    var publicKey :- GetString(m, "public_key");
    Some(PairingRequest(hostID, challengeID, nonce, deviceName, publicKey))
  }

  datatype PairingPendingApproval = PairingPendingApproval(clientID: string, deviceName: string,
                                                           publicKey: string, challengeID: string)

  const PairingPendingApprovalKeys: set<string> := {"client_id", "device_name", "public_key", "challenge_id"}

  function EncodePairingPendingApproval(p: PairingPendingApproval): (j: Value)
    ensures j.JObject? && j.fields.Keys == PairingPendingApprovalKeys
    ensures DecodePairingPendingApproval(j) == Some(p)
  {
    JObject(map[
      "client_id" := JString(p.clientID),
      "device_name" := JString(p.deviceName),
      "public_key" := JString(p.publicKey),
      "challenge_id" := JString(p.challengeID)])
  }

  function DecodePairingPendingApproval(j: Value): (r: Option<PairingPendingApproval>)
    ensures r.Some? ==> j.JObject? && PairingPendingApprovalKeys <= j.fields.Keys
  {
    var m :- AsObject(j);
    var clientID :- GetString(m, "client_id");
    var deviceName :- GetString(m, "device_name");
    var publicKey :- GetString(m, "public_key");
    var challengeID :- GetString(m, "challenge_id");
    Some(PairingPendingApproval(clientID, deviceName, publicKey, challengeID))
  }

  datatype PairingApprove = PairingApprove(clientID: string, challengeID: string, signature: string)

  const PairingApproveKeys: set<string> := {"client_id", "challenge_id", "signature"}

  function EncodePairingApprove(p: PairingApprove): (j: Value)
    ensures j.JObject? && j.fields.Keys == PairingApproveKeys
    ensures DecodePairingApprove(j) == Some(p)
  {
    JObject(map[
      "client_id" := JString(p.clientID),
      "challenge_id" := JString(p.challengeID),
      "signature" := JString(p.signature)])
  }

  function DecodePairingApprove(j: Value): (r: Option<PairingApprove>)
    ensures r.Some? ==> j.JObject? && PairingApproveKeys <= j.fields.Keys
  {
    var m :- AsObject(j);
    var clientID :- GetString(m, "client_id");
    var challengeID :- GetString(m, "challenge_id");
    var signature :- GetString(m, "signature");
    Some(PairingApprove(clientID, challengeID, signature))
  }

  datatype PairingSuccess = PairingSuccess(hostID: string, hostName: string, hostPublicKey: string)

  const PairingSuccessKeys: set<string> := {"host_id", "host_name", "host_public_key"}

  function EncodePairingSuccess(p: PairingSuccess): (j: Value)
    ensures j.JObject? && j.fields.Keys == PairingSuccessKeys
    ensures DecodePairingSuccess(j) == Some(p)
  {
    JObject(map[
      "host_id" := JString(p.hostID),
      "host_name" := JString(p.hostName),
      "host_public_key" := JString(p.hostPublicKey)])
  }

  function DecodePairingSuccess(j: Value): (r: Option<PairingSuccess>)
    ensures r.Some? ==> j.JObject? && PairingSuccessKeys <= j.fields.Keys
  {
    var m :- AsObject(j);
    var hostID :- GetString(m, "host_id");
    var hostName :- GetString(m, "host_name");
    var hostKey :- GetString(m, "host_public_key");
    Some(PairingSuccess(hostID, hostName, hostKey))
  }

  // ---------------------------------------------------------------- QR code

  /** `PairingQRCodePayload`, the JSON text the host shows as a QR code. */
  datatype PairingQRCode = PairingQRCode(v: int, relayURL: string, hostID: string,
                                         challengeID: string, nonce: string, expiresAt: int)

  const PairingQRCodeKeys: set<string> := {"v", "relay_url", "host_id", "challenge_id", "nonce", "expires_at"}

  /** The initialiser: stores every field; the version defaults to 1. */
  function NewPairingQRCode(relayURL: string, hostID: string, challengeID: string, nonce: string,
                            expiresAt: int, v: int := 1): (p: PairingQRCode)
    ensures p.v == v && p.relayURL == relayURL && p.hostID == hostID
    ensures p.challengeID == challengeID && p.nonce == nonce && p.expiresAt == expiresAt
  {
    PairingQRCode(v, relayURL, hostID, challengeID, nonce, expiresAt)
  }

  /** A QR payload built without naming a version carries version 1. */
  lemma NewPairingQRCodeDefaultsToVersionOne(url: string, host: string, id: string, nonce: string, at: int)
    ensures NewPairingQRCode(url, host, id, nonce, at).v == 1
  {
  }

  /**
    The host's encoding; the mobile's `QRCodePairingParser.parse` recovers every
    field, the expiry at whole seconds.
   */
  function EncodePairingQRCode(p: PairingQRCode): (j: Value)
    ensures j.JObject? && j.fields.Keys == PairingQRCodeKeys
    ensures ParsePairingQRCode(j) == Some(p.(expiresAt := WholeSeconds(p.expiresAt)))
  {
    JObject(map[
      "v" := JInt(p.v),
      "relay_url" := JString(p.relayURL),
      "host_id" := JString(p.hostID),
      "challenge_id" := JString(p.challengeID),
      "nonce" := JString(p.nonce),
      "expires_at" := JDate(WholeSeconds(p.expiresAt))])
  }

  /** The mobile's parse of the scanned JSON; `v` is required. */
  function ParsePairingQRCode(j: Value): (r: Option<PairingQRCode>)
    ensures r.Some? ==> j.JObject? && PairingQRCodeKeys <= j.fields.Keys
  {
    var m :- AsObject(j);
    var v :- GetInt(m, "v");
    var url :- GetString(m, "relay_url");
    var hostID :- GetString(m, "host_id");
    var challengeID :- GetString(m, "challenge_id");
    var nonce :- GetString(m, "nonce");
    var expiresAt :- GetDate(m, "expires_at");
    Some(PairingQRCode(v, url, hostID, challengeID, nonce, expiresAt))
  }

  /** Encoding a parsed QR payload again and parsing it gives the same payload. */
  lemma QRCodeStableAfterOneRoundTrip(p: PairingQRCode)
    ensures var q := ParsePairingQRCode(EncodePairingQRCode(p));
            q.Some? && ParsePairingQRCode(EncodePairingQRCode(q.value)) == q
  {
    WholeSecondsIdempotent(p.expiresAt);
  }
}
