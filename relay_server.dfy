/**
  The relay's WebSocket routes and its two message handlers.

  `HostStep` and `ClientStep` are the handlers as values: given the registry
  before a frame arrives, they return the registry after it and the socket
  effects the handler performs, in order. The `Relay` class runs them on a
  `Registry` object and records the effects it performs; each of its methods
  is proved to agree with these functions, and the lemmas below state what
  each message type does.

  JSON text parsing is the parameter `parse`; `text.data(using: .utf8)` never
  fails for a Swift string and is left implicit. The fresh values a handler
  draws (`UUID().uuidString`, `makeNonce()`) and the clock are in `Context`.
 */
module RelayServer {

  import opened Wrappers
  import opened Json
  import opened Envelope
  import opened Payloads
  import opened RegistryModel
  import opened RelayRegistry
  import T = MessageTypes

  /** What the relay does to its sockets. */
  datatype Effect =
    | Send(socket: Socket, frame: Value)     // a frame the relay builds and serialises
    | Forward(socket: Socket, text: string)  // an inbound text passed on byte for byte
    | Close(socket: Socket)

  /**
    Everything a handler reads besides the registry and the frame: the clock in
    milliseconds, the fresh message id, nonce and pairing challenge id, the JSON
    text parser and the signature check.
   */
  datatype Context = Context(now: int, messageID: string, nonce: string, challengeID: string,
                             parse: string -> Option<Value>, valid: Verifier)

  const RelayPeer := Peer(Relay, "relay")

  // ---------------------------------------------------------------- sendJSON

  /**
    `sendJSON`: the dictionary the relay serialises. The timestamp keeps its
    milliseconds (`isoDate` writes fractional seconds), and the source is
    always the relay itself.
   */
  function RelayFrame(typ: string, target: Peer, payload: Object, messageID: string, now: int): (j: Value)
    ensures j.JObject? && j.fields.Keys == EnvelopeKeys
    ensures j.fields["payload"] == JObject(payload)
    ensures IsCanonicalUuid(messageID) ==>
              DecodeHeader(j) == Some(Header(1, typ, messageID, now, RelayPeer, target))
  {
    var j := JObject(map[
      "v" := JInt(1),
      "type" := JString(typ),
      "message_id" := JString(messageID),
      "timestamp" := JDate(now),
      "source" := JObject(map["kind" := JString("relay"), "id" := JString("relay")]),
      "target" := JObject(map["kind" := JString(KindRaw(target.kind)), "id" := JString(target.id)]),
      "payload" := JObject(payload)]);
    assert EncodePeer(RelayPeer) == j.fields["source"];
    assert EncodePeer(target) == j.fields["target"];
    assert IsCanonicalUuid(messageID) ==> GetUuid(j.fields, "message_id") == Some(messageID);
    j
  }

  /**
    A peer decoding a relay frame with the payload codec it expects gets the
    envelope the relay meant: version 1, the relay as source, the exact
    timestamp, and the payload that codec reads from the dictionary.
   */
  lemma RelayFrameDecodes<P>(typ: string, target: Peer, payload: Object, messageID: string, now: int,
                             decodePayload: Value -> Option<P>)
    requires IsCanonicalUuid(messageID)
    ensures DecodeEnvelope(RelayFrame(typ, target, payload, messageID, now), decodePayload)
            == (match decodePayload(JObject(payload))
                case Some(p) => Some(Envelope(1, typ, messageID, now, RelayPeer, target, p))
                case None => None)
  {
  }

  // ---------------------------------------------------------------- reply payloads

  /** The challenge reply, to a host or a client. */
  function ChallengeReply(nonce: string, expiresAt: int): (m: Object)
    ensures m.Keys == ChallengeKeys
    ensures DecodeChallenge(JObject(m)) == Some(Payloads.Challenge(nonce, expiresAt))
  {
    map["nonce" := JString(nonce), "expires_at" := JDate(expiresAt)]
  }

  /** The pairing-created reply: the challenge and the relay's public URL. */
  function PairingCreatedReply(c: PairingChallenge, relayURL: string): (m: Object)
    ensures m.Keys == PairingCreatedKeys
    ensures DecodePairingCreated(JObject(m)) == Some(Payloads.PairingCreated(c.challengeID, c.nonce, c.expiresAt, relayURL))
  {
    map["challenge_id" := JString(c.challengeID), "nonce" := JString(c.nonce),
        "expires_at" := JDate(c.expiresAt), "relay_url" := JString(relayURL)]
  }

  /** The request forwarded to the host for approval. */
  function PendingApprovalReply(req: PendingPairingRequest): (m: Object)
    ensures m.Keys == PairingPendingApprovalKeys
    ensures DecodePairingPendingApproval(JObject(m))
            == Some(Payloads.PairingPendingApproval(req.clientID, req.deviceName, req.publicKey, req.challengeID))
  {
    map["client_id" := JString(req.clientID), "device_name" := JString(req.deviceName),
        "public_key" := JString(req.publicKey), "challenge_id" := JString(req.challengeID)]
  }

  /** What the paired client learns of its host: id, display name and public key. */
  function PairingSuccessReply(hostID: string, reg: HostRegistration): (m: Object)
    ensures m.Keys == PairingSuccessKeys
    ensures DecodePairingSuccess(JObject(m)) == Some(Payloads.PairingSuccess(hostID, reg.displayName, reg.publicKey))
  {
    map["host_id" := JString(hostID), "host_name" := JString(reg.displayName),
        "host_public_key" := JString(reg.publicKey)]
  }

  /** The host-authenticated reply is empty; the host reads only the header's type. */
  function HostAuthenticatedReply(): (m: Object)
    ensures m.Keys == {}
  {
    map[]
  }

  /**
    The client-authenticated reply as the relay writes it: empty. The mobile
    decodes this message as `ClientAuthenticatedPayload`, which needs
    `authenticated_at`, so the decode fails.
   */
  function ClientAuthenticatedReplyAsWritten(): (m: Object)
    ensures m.Keys == {}
    ensures DecodeAuthenticated(JObject(m)).None?
  {
    map[]
  }

  /** An as-written client-authenticated frame fails the mobile's typed decode. */
  lemma AsWrittenClientAuthenticatedUndecodable(clientID: string, messageID: string, now: int)
    requires IsCanonicalUuid(messageID)
    ensures DecodeEnvelope(RelayFrame(T.ClientAuthenticated, Peer(Client, clientID),
                                      ClientAuthenticatedReplyAsWritten(), messageID, now),
                           DecodeAuthenticated).None?
  {
    RelayFrameDecodes(T.ClientAuthenticated, Peer(Client, clientID), ClientAuthenticatedReplyAsWritten(),
                      messageID, now, DecodeAuthenticated);
  }

  /**
    The corrected client-authenticated reply, which `ClientStepCorrected`
    uses: it carries the time of authentication, so the mobile's decode
    succeeds.
   */
  function ClientAuthenticatedReply(now: int): (m: Object)
    ensures m.Keys == AuthenticatedKeys
    ensures DecodeAuthenticated(JObject(m)) == Some(Authenticated(now))
  {
    map["authenticated_at" := JDate(now)]
  }

  /**
    The greeting sent when a client socket opens. It is not an envelope: it
    has none of the header keys, so a peer's header decode rejects it.
   */
  function Greeting(clientID: string): (m: Object)
    ensures m.Keys == {"status", "client_id"}
    ensures DecodeHeader(JObject(m)).None?
  {
    map["status" := JString("connected"), "client_id" := JString(clientID)]
  }

  // ---------------------------------------------------------------- routes

  /** Opening `/ws/host/:hostID` records the socket, replacing any earlier one. */
  function HostOpened(l: Ledger, hostID: string, ws: Socket): (r: Ledger)
    ensures HostSocket(r, hostID) == Some(ws)
    ensures r == SetHostSocket(l, hostID, ws)
  {
    SetHostSocket(l, hostID, ws)
  }

  /**
    Opening `/ws/client/:clientID` records the socket and greets the client;
    no authentication is asked for yet.
   */
  function ClientOpened(l: Ledger, clientID: string, ws: Socket): (r: (Ledger, seq<Effect>))
    ensures ClientSocket(r.0, clientID) == Some(ws)
    ensures r.0 == SetClientSocket(l, clientID, ws)
    ensures r.1 == [Send(ws, JObject(Greeting(clientID)))]
  {
    (SetClientSocket(l, clientID, ws), [Send(ws, JObject(Greeting(clientID)))])
  }

  /**
    A socket closing removes the directory entry for its id, whichever socket
    that entry holds by then: if a second connection replaced the first, the
    first one's close forgets the second.
   */
  lemma CloseAfterReplacementForgetsNewSocket(l: Ledger, id: string, first: Socket, second: Socket)
    ensures HostSocket(RemoveHostSocket(HostOpened(HostOpened(l, id, first), id, second), id), id).None?
    ensures ClientSocket(RemoveClientSocket(ClientOpened(ClientOpened(l, id, first).0, id, second).0, id), id).None?
  {
  }

  // ---------------------------------------------------------------- host handler

  /** Trust is never withdrawn: every pair trusted before is trusted after. */
  ghost predicate TrustKept(l: Ledger, l': Ledger) {
    forall h, c :: IsTrusted(l, h, c) ==> IsTrusted(l', h, c)
  }

  /** The message types `handleHostMessage` acts on; any other is dropped. */
  const HostHandled: set<string> :=
    {T.HostRegister, T.HostHello, T.HostAuth, T.PairingCreate, T.PairingApprove} + T.HostPassThrough

  /** `handleHostMessage`. */
  function HostStep(l: Ledger, hostID: string, ws: Socket, text: string, relayURL: string, ctx: Context)
    : (r: (Ledger, seq<Effect>))
    ensures |r.1| <= 1
    ensures r.0.hostSockets == l.hostSockets && r.0.clientSockets == l.clientSockets
    ensures r.0.clientChallenges == l.clientChallenges
    ensures TrustKept(l, r.0)
  {
    match Inbound(text, ctx.parse)
    case None => (l, [])
    case Some((j, h)) =>
      var host := Peer(Host, hostID);
      if h.typ == T.HostRegister then
        match DecodeEnvelope(j, DecodeHostRegister)
        case None => (l, [])
        case Some(e) => (RegisterHost(l, e.payload, hostID), [])
      else if h.typ == T.HostHello then
        var (l', c) := CreateChallenge(l, hostID, ctx.nonce, ctx.now);
        (l', [Send(ws, RelayFrame(T.Challenge, host, ChallengeReply(c.nonce, c.expiresAt), ctx.messageID, ctx.now))])
      else if h.typ == T.HostAuth then
        match DecodeEnvelope(j, DecodeSignedChallenge)
        case None => (l, [])
        case Some(e) =>
          var (l', ok) := VerifyHostSignature(l, hostID, e.payload.nonce, e.payload.signature, ctx.now, ctx.valid);
          if ok then
            (l', [Send(ws, RelayFrame(T.HostAuthenticated, host, HostAuthenticatedReply(), ctx.messageID, ctx.now))])
          else
            (l', [Close(ws)])
      else if h.typ == T.PairingCreate then
        match DecodeEnvelope(j, DecodePairingCreate)
        case None => (l, [])
        case Some(e) =>
          var (l', c) := CreatePairingChallenge(l, hostID, ctx.challengeID, ctx.nonce, ctx.now, e.payload.ttlSeconds);
          (l', [Send(ws, RelayFrame(T.PairingCreated, host, PairingCreatedReply(c, relayURL), ctx.messageID, ctx.now))])
      else if h.typ == T.PairingApprove then
        match DecodeEnvelope(j, DecodePairingApprove)
        case None => (l, [])
        case Some(e) =>
          var (l', req) := ApprovePairing(l, hostID, e.payload.clientID, e.payload.challengeID);
          if req.None? then (l', [])
          else
            match (ClientSocket(l', req.value.clientID), Registration(l', hostID))
            case (Some(socket), Some(reg)) =>
              (l', [Send(socket, RelayFrame(T.PairingSuccess, Peer(Client, req.value.clientID),
                                            PairingSuccessReply(hostID, reg), ctx.messageID, ctx.now))])
            case _ => (l', [])
      else if h.typ in T.HostPassThrough then
        match ClientSocket(l, h.target.id)
        case Some(socket) => (l, [Forward(socket, text)])
        case None => (l, [])
      else
        (l, [])
  }

  /** A frame that does not parse, or whose header does not decode, is dropped. */
  lemma UndecodableHostFrameIgnored(l: Ledger, hostID: string, ws: Socket, text: string, relayURL: string, ctx: Context)
    requires Inbound(text, ctx.parse).None?
    ensures HostStep(l, hostID, ws, text, relayURL, ctx) == (l, [])
  {
  }

  /**
    A type the host handler does not list changes nothing and sends nothing;
    this covers the session-creation and project-path replies a host sends.
   */
  lemma UnlistedHostTypeIgnored(l: Ledger, hostID: string, ws: Socket, text: string, relayURL: string, ctx: Context)
    requires Inbound(text, ctx.parse).Some? && Inbound(text, ctx.parse).value.1.typ !in HostHandled
    ensures HostStep(l, hostID, ws, text, relayURL, ctx) == (l, [])
    ensures T.ProjectPathsList !in HostHandled && T.SessionCreated !in HostHandled
  {
  }

  /**
    host-hello: the host gets exactly one challenge on the same socket, which
    it decodes as the fresh nonce with an expiry 60 seconds out; the registry
    holds that challenge for the host.
   */
  lemma HostHelloIssuesChallenge(l: Ledger, hostID: string, ws: Socket, text: string, relayURL: string, ctx: Context)
    requires Inbound(text, ctx.parse).Some? && Inbound(text, ctx.parse).value.1.typ == T.HostHello
    requires IsCanonicalUuid(ctx.messageID)
    ensures var r := HostStep(l, hostID, ws, text, relayURL, ctx);
            r.0 == CreateChallenge(l, hostID, ctx.nonce, ctx.now).0 &&
            r.0.hostChallenges[hostID] == PendingChallenge(ctx.nonce, ExpiryAfter(ctx.now, DefaultTtl)) &&
            |r.1| == 1 && r.1[0].Send? && r.1[0].socket == ws &&
            DecodeEnvelope(r.1[0].frame, DecodeChallenge)
              == Some(Envelope(1, T.Challenge, ctx.messageID, ctx.now, RelayPeer, Peer(Host, hostID),
                               Payloads.Challenge(ctx.nonce, ExpiryAfter(ctx.now, DefaultTtl))))
  {
    var c := PendingChallenge(ctx.nonce, ExpiryAfter(ctx.now, DefaultTtl));
    RelayFrameDecodes(T.Challenge, Peer(Host, hostID), ChallengeReply(c.nonce, c.expiresAt),
                      ctx.messageID, ctx.now, DecodeChallenge);
  }

  /**
    host-auth: the reply is host-authenticated exactly when the registry
    accepts the proof, and the socket is closed otherwise; the registry moves
    as `verifyHostSignature` moves it.
   */
  lemma HostAuthRepliesIffVerified(l: Ledger, hostID: string, ws: Socket, text: string, relayURL: string,
                                   ctx: Context, e: Envelope<SignedChallenge>)
    requires Inbound(text, ctx.parse).Some? && Inbound(text, ctx.parse).value.1.typ == T.HostAuth
    requires DecodeEnvelope(ctx.parse(text).value, DecodeSignedChallenge) == Some(e)
    ensures var r := HostStep(l, hostID, ws, text, relayURL, ctx);
            var ok := HostProofAccepted(l, hostID, e.payload.nonce, e.payload.signature, ctx.now, ctx.valid);
            r.0 == VerifyHostSignature(l, hostID, e.payload.nonce, e.payload.signature, ctx.now, ctx.valid).0 &&
            (ok ==> r.1 == [Send(ws, RelayFrame(T.HostAuthenticated, Peer(Host, hostID), map[], ctx.messageID, ctx.now))]) &&
            (!ok ==> r.1 == [Close(ws)])
  {
  }

  /**
    pairing-create: a pairing challenge under the fresh id, living for the
    requested number of seconds, and a reply the host decodes as that
    challenge together with the relay's public URL.
   */
  lemma PairingCreateReplies(l: Ledger, hostID: string, ws: Socket, text: string, relayURL: string,
                             ctx: Context, e: Envelope<PairingCreate>)
    requires Inbound(text, ctx.parse).Some? && Inbound(text, ctx.parse).value.1.typ == T.PairingCreate
    requires DecodeEnvelope(ctx.parse(text).value, DecodePairingCreate) == Some(e)
    requires IsCanonicalUuid(ctx.messageID)
    ensures var r := HostStep(l, hostID, ws, text, relayURL, ctx);
            var expiry := ExpiryAfter(ctx.now, e.payload.ttlSeconds);
            r.0.pairingChallenges[ctx.challengeID] == PairingChallenge(ctx.challengeID, hostID, ctx.nonce, expiry) &&
            |r.1| == 1 && r.1[0].Send? && r.1[0].socket == ws &&
            DecodeEnvelope(r.1[0].frame, DecodePairingCreated)
              == Some(Envelope(1, T.PairingCreated, ctx.messageID, ctx.now, RelayPeer, Peer(Host, hostID),
                               Payloads.PairingCreated(ctx.challengeID, ctx.nonce, expiry, relayURL)))
  {
    var c := PairingChallenge(ctx.challengeID, hostID, ctx.nonce, ExpiryAfter(ctx.now, e.payload.ttlSeconds));
    RelayFrameDecodes(T.PairingCreated, Peer(Host, hostID), PairingCreatedReply(c, relayURL),
                      ctx.messageID, ctx.now, DecodePairingCreated);
  }

  /**
    pairing-approve: the trust ledger is updated as `approvePairing` does it,
    whether or not a reply can be delivered; pairing-success goes to the
    approved client's socket only when the approval is accepted, the client
    is connected and the host is registered. The approve signature is not
    checked.
   */
  lemma ApprovalTrustsEvenWithoutReply(l: Ledger, hostID: string, ws: Socket, text: string, relayURL: string,
                                       ctx: Context, e: Envelope<PairingApprove>)
    requires Inbound(text, ctx.parse).Some? && Inbound(text, ctx.parse).value.1.typ == T.PairingApprove
    requires DecodeEnvelope(ctx.parse(text).value, DecodePairingApprove) == Some(e)
    ensures var r := HostStep(l, hostID, ws, text, relayURL, ctx);
            var c := e.payload.clientID;
            r.0 == ApprovePairing(l, hostID, c, e.payload.challengeID).0 &&
            (r.1 != [] <==> ApprovalAccepted(l, hostID, c, e.payload.challengeID) &&
                            c in l.clientSockets && hostID in l.registrations) &&
            (r.1 != [] ==> r.1 == [Send(l.clientSockets[c],
                                        RelayFrame(T.PairingSuccess, Peer(Client, c),
                                                   PairingSuccessReply(hostID, l.registrations[hostID]),
                                                   ctx.messageID, ctx.now))])
  {
  }

  /**
    Host-to-client pass-through: the text is forwarded unchanged to the
    socket of the client the header's target names, whether or not the host
    ever authenticated; nothing else happens.
   */
  lemma HostPassThroughVerbatim(l: Ledger, hostID: string, ws: Socket, text: string, relayURL: string, ctx: Context)
    requires Inbound(text, ctx.parse).Some? && Inbound(text, ctx.parse).value.1.typ in T.HostPassThrough
    ensures var target := Inbound(text, ctx.parse).value.1.target.id;
            HostStep(l, hostID, ws, text, relayURL, ctx)
              == (l, if target in l.clientSockets then [Forward(l.clientSockets[target], text)] else [])
  {
  }

  /** No host message can break the client-challenge invariant. */
  lemma HostStepKeepsClientChallengesTrusted(l: Ledger, hostID: string, ws: Socket, text: string,
                                             relayURL: string, ctx: Context)
    requires ClientChallengesTrusted(l)
    ensures ClientChallengesTrusted(HostStep(l, hostID, ws, text, relayURL, ctx).0)
  {
  }

  // ---------------------------------------------------------------- client handler

  /** The message types `handleClientMessage` acts on; any other is dropped. */
  const ClientHandled: set<string> :=
    {T.PairingRequest, T.ClientHello, T.ClientAuth} + T.ClientPassThrough

  /** `handleClientMessage` as written: a verified `client-auth` is answered with an empty payload. */
  function ClientStep(l: Ledger, clientID: string, ws: Socket, text: string, ctx: Context)
    : (r: (Ledger, seq<Effect>))
    ensures |r.1| <= 1
    ensures r.0.hostSockets == l.hostSockets && r.0.clientSockets == l.clientSockets
    ensures r.0.trusted == l.trusted && r.0.registrations == l.registrations
  {
    ClientStepWith(l, clientID, ws, text, ctx, ClientAuthenticatedReplyAsWritten())
  }

  /**
    `handleClientMessage` with the corrected client-authenticated reply: the
    registry moves and the same messages go to the same sockets as in
    `ClientStep`; only the client-authenticated payload differs.
   */
  function ClientStepCorrected(l: Ledger, clientID: string, ws: Socket, text: string, ctx: Context)
    : (r: (Ledger, seq<Effect>))
    ensures var w := ClientStep(l, clientID, ws, text, ctx);
      && r.0 == w.0 && |r.1| == |w.1|
      && forall k :: 0 <= k < |r.1| ==>
           r.1[k].Send? == w.1[k].Send? && r.1[k].Close? == w.1[k].Close? && r.1[k].socket == w.1[k].socket
  {
    ClientStepWith(l, clientID, ws, text, ctx, ClientAuthenticatedReply(ctx.now))
  }

  /** The client handler, given the payload it answers a verified `client-auth` with. */
  function ClientStepWith(l: Ledger, clientID: string, ws: Socket, text: string, ctx: Context,
                          authenticated: Object): (Ledger, seq<Effect>)
  {
    match Inbound(text, ctx.parse)
    case None => (l, [])
    case Some((j, h)) =>
      var client := Peer(Client, clientID);
      if h.typ == T.PairingRequest then
        match DecodeEnvelope(j, DecodePairingRequest)
        case None => (l, [])
        case Some(e) =>
          var (l', req) := BeginPairingRequest(l, e.payload, clientID, ctx.now);
          if req.None? then (l', [])
          else
            match HostSocket(l', req.value.hostID)
            case Some(socket) =>
              (l', [Send(socket, RelayFrame(T.PairingPendingApproval, Peer(Host, req.value.hostID),
                                            PendingApprovalReply(req.value), ctx.messageID, ctx.now))])
            case None => (l', [])
      else if h.typ == T.ClientHello then
        match DecodeEnvelope(j, DecodeClientHello)
        case None => (l, [Close(ws)])
        case Some(e) =>
          var (l', c) := CreateClientChallenge(l, clientID, e.payload.hostID, ctx.nonce, ctx.now);
          if c.None? then (l', [Close(ws)])
          else
            (l', [Send(ws, RelayFrame(T.Challenge, client, ChallengeReply(c.value.nonce, c.value.expiresAt),
                                      ctx.messageID, ctx.now))])
      else if h.typ == T.ClientAuth then
        match DecodeEnvelope(j, DecodeSignedChallenge)
        case None => (l, [])
        case Some(e) =>
          var (l', ok) := VerifyClientSignature(l, clientID, e.payload.nonce, e.payload.signature, ctx.now, ctx.valid);
          if ok then
            (l', [Send(ws, RelayFrame(T.ClientAuthenticated, client, authenticated, ctx.messageID, ctx.now))])
          else
            (l', [Close(ws)])
      else if h.typ in T.ClientPassThrough then
        match HostSocket(l, h.target.id)
        case Some(socket) => (l, [Forward(socket, text)])
        case None => (l, [])
      else
        (l, [])
  }

  /**
    A type the client handler does not list changes nothing and sends
    nothing; this covers the project-path and session-creation requests.
   */
  lemma UnlistedClientTypeIgnored(l: Ledger, clientID: string, ws: Socket, text: string, ctx: Context)
    requires Inbound(text, ctx.parse).None? || Inbound(text, ctx.parse).value.1.typ !in ClientHandled
    ensures ClientStep(l, clientID, ws, text, ctx) == (l, [])
    ensures T.ListProjectPaths !in ClientHandled && T.CreateSession !in ClientHandled
  {
  }

  /**
    pairing-request: the host is asked for approval exactly when the request
    matches a live pairing challenge and the host is connected; the request is
    stored whether or not the host is reachable.
   */
  lemma PairingRequestForwardedOnlyWhenAccepted(l: Ledger, clientID: string, ws: Socket, text: string,
                                                ctx: Context, e: Envelope<PairingRequest>)
    requires Inbound(text, ctx.parse).Some? && Inbound(text, ctx.parse).value.1.typ == T.PairingRequest
    requires DecodeEnvelope(ctx.parse(text).value, DecodePairingRequest) == Some(e)
    requires IsCanonicalUuid(ctx.messageID)
    ensures var r := ClientStep(l, clientID, ws, text, ctx);
            var p := e.payload;
            r.0 == BeginPairingRequest(l, p, clientID, ctx.now).0 &&
            (r.1 != [] <==> PairingRequestAccepted(l, p, ctx.now) && p.hostID in l.hostSockets) &&
            (r.1 != [] ==> r.1[0].Send? && r.1[0].socket == l.hostSockets[p.hostID] &&
                           DecodeEnvelope(r.1[0].frame, DecodePairingPendingApproval)
                             == Some(Envelope(1, T.PairingPendingApproval, ctx.messageID, ctx.now, RelayPeer,
                                              Peer(Host, p.hostID),
                                              Payloads.PairingPendingApproval(clientID, p.deviceName, p.publicKey,
                                                                              p.challengeID))))
  {
    var req := PendingPairingRequest(e.payload.hostID, clientID, e.payload.deviceName, e.payload.publicKey,
                                     e.payload.challengeID);
    RelayFrameDecodes(T.PairingPendingApproval, Peer(Host, e.payload.hostID), PendingApprovalReply(req),
                      ctx.messageID, ctx.now, DecodePairingPendingApproval);
  }

  /**
    client-hello: a challenge bound to the named host is sent exactly when the
    client is in that host's trust ledger; an untrusted client, or a hello
    that does not decode, gets its socket closed.
   */
  lemma ClientHelloChallengesOnlyTrusted(l: Ledger, clientID: string, ws: Socket, text: string, ctx: Context)
    requires Inbound(text, ctx.parse).Some? && Inbound(text, ctx.parse).value.1.typ == T.ClientHello
    requires IsCanonicalUuid(ctx.messageID)
    ensures var r := ClientStep(l, clientID, ws, text, ctx);
            var hello := DecodeEnvelope(ctx.parse(text).value, DecodeClientHello);
            var trusted := hello.Some? && IsTrusted(l, hello.value.payload.hostID, clientID);
            (!trusted ==> r == (l, [Close(ws)])) &&
            (trusted ==>
               r.0.clientChallenges[clientID]
                 == PendingClientChallenge(hello.value.payload.hostID, ctx.nonce, ExpiryAfter(ctx.now, DefaultTtl)) &&
               |r.1| == 1 && r.1[0].Send? && r.1[0].socket == ws &&
               DecodeEnvelope(r.1[0].frame, DecodeChallenge)
                 == Some(Envelope(1, T.Challenge, ctx.messageID, ctx.now, RelayPeer, Peer(Client, clientID),
                                  Payloads.Challenge(ctx.nonce, ExpiryAfter(ctx.now, DefaultTtl)))))
  {
    RelayFrameDecodes(T.Challenge, Peer(Client, clientID),
                      ChallengeReply(ctx.nonce, ExpiryAfter(ctx.now, DefaultTtl)),
                      ctx.messageID, ctx.now, DecodeChallenge);
  }

  /**
    client-auth, as written: client-authenticated is sent exactly when the
    registry accepts the proof, but its empty payload fails the mobile's
    typed decode; a refused proof closes the socket.
   */
  lemma ClientAuthRepliesIffVerified(l: Ledger, clientID: string, ws: Socket, text: string,
                                     ctx: Context, e: Envelope<SignedChallenge>)
    requires Inbound(text, ctx.parse).Some? && Inbound(text, ctx.parse).value.1.typ == T.ClientAuth
    requires DecodeEnvelope(ctx.parse(text).value, DecodeSignedChallenge) == Some(e)
    requires IsCanonicalUuid(ctx.messageID)
    ensures var r := ClientStep(l, clientID, ws, text, ctx);
            var ok := ClientProofAccepted(l, clientID, e.payload.nonce, e.payload.signature, ctx.now, ctx.valid);
            r.0 == VerifyClientSignature(l, clientID, e.payload.nonce, e.payload.signature, ctx.now, ctx.valid).0 &&
            (!ok ==> r.1 == [Close(ws)]) &&
            (ok ==> |r.1| == 1 && r.1[0].Send? && r.1[0].socket == ws &&
                    r.1[0].frame == RelayFrame(T.ClientAuthenticated, Peer(Client, clientID),
                                               ClientAuthenticatedReplyAsWritten(), ctx.messageID, ctx.now) &&
                    DecodeEnvelope(r.1[0].frame, DecodeAuthenticated).None?)
  {
    AsWrittenClientAuthenticatedUndecodable(clientID, ctx.messageID, ctx.now);
  }

  /**
    client-auth, corrected: client-authenticated is sent exactly when the
    registry accepts the proof, and it decodes on the mobile with the time of
    authentication; a refused proof closes the socket.
   */
  lemma CorrectedClientAuthRepliesIffVerified(l: Ledger, clientID: string, ws: Socket, text: string,
                                              ctx: Context, e: Envelope<SignedChallenge>)
    requires Inbound(text, ctx.parse).Some? && Inbound(text, ctx.parse).value.1.typ == T.ClientAuth
    requires DecodeEnvelope(ctx.parse(text).value, DecodeSignedChallenge) == Some(e)
    requires IsCanonicalUuid(ctx.messageID)
    ensures var r := ClientStepCorrected(l, clientID, ws, text, ctx);
            var ok := ClientProofAccepted(l, clientID, e.payload.nonce, e.payload.signature, ctx.now, ctx.valid);
            r.0 == VerifyClientSignature(l, clientID, e.payload.nonce, e.payload.signature, ctx.now, ctx.valid).0 &&
            (!ok ==> r.1 == [Close(ws)]) &&
            (ok ==> |r.1| == 1 && r.1[0].Send? && r.1[0].socket == ws &&
                    DecodeEnvelope(r.1[0].frame, DecodeAuthenticated)
                      == Some(Envelope(1, T.ClientAuthenticated, ctx.messageID, ctx.now, RelayPeer,
                                       Peer(Client, clientID), Authenticated(ctx.now))))
  {
    RelayFrameDecodes(T.ClientAuthenticated, Peer(Client, clientID), ClientAuthenticatedReply(ctx.now),
                      ctx.messageID, ctx.now, DecodeAuthenticated);
  }

  /**
    Client-to-host pass-through: forwarded unchanged to the socket of the
    host the header's target names. The relay does not check that the client
    authenticated or is trusted by that host.
   */
  lemma ClientPassThroughVerbatim(l: Ledger, clientID: string, ws: Socket, text: string, ctx: Context)
    requires Inbound(text, ctx.parse).Some? && Inbound(text, ctx.parse).value.1.typ in T.ClientPassThrough
    ensures var target := Inbound(text, ctx.parse).value.1.target.id;
            ClientStep(l, clientID, ws, text, ctx)
              == (l, if target in l.hostSockets then [Forward(l.hostSockets[target], text)] else [])
  {
  }

  /** No client message can break the client-challenge invariant. */
  lemma {:induction false} ClientStepKeepsClientChallengesTrusted(l: Ledger, clientID: string, ws: Socket,
                                                                  text: string, ctx: Context)
    requires ClientChallengesTrusted(l)
    ensures ClientChallengesTrusted(ClientStep(l, clientID, ws, text, ctx).0)
  {
    match Inbound(text, ctx.parse)
    case None =>
    case Some((j, h)) =>
      if h.typ == T.ClientHello {
        match DecodeEnvelope(j, DecodeClientHello)
        case None =>
        case Some(e) =>
          ClientChallengeKeepsInvariant(l, clientID, e.payload.hostID, ctx.nonce, ctx.now, DefaultTtl);
      }
  }

  // ---------------------------------------------------------------- the running relay

  /**
    The relay process: one registry, its public URL, and the socket effects
    performed so far, in order.
   */
  class Relay {
    const registry: Registry
    const relayURL: string
    ghost var effects: seq<Effect>

    constructor (relayURL: string)
      ensures fresh(registry) && registry.Model() == EmptyLedger
      ensures this.relayURL == relayURL && effects == []
    {
      registry := new Registry();
      this.relayURL := relayURL;
      effects := [];
    }

    /** `sendJSON(type:target:payload:over:)`. */
    method SendJSON(typ: string, target: Peer, payload: Object, over: Socket, messageID: string, now: int)
      modifies this
      ensures effects == old(effects) + [Send(over, RelayFrame(typ, target, payload, messageID, now))]
    {
      effects := effects + [Send(over, RelayFrame(typ, target, payload, messageID, now))];
    }

    method HostConnected(hostID: string, ws: Socket)
      modifies registry
      ensures registry.Model() == HostOpened(old(registry.Model()), hostID, ws)
    {
      registry.SetHostSocket(ws, hostID);
    }

    method HostDisconnected(hostID: string)
      modifies registry
      ensures registry.Model() == RemoveHostSocket(old(registry.Model()), hostID)
    {
      registry.RemoveHostSocket(hostID);
    }

    method ClientConnected(clientID: string, ws: Socket)
      modifies this, registry
      ensures registry.Model() == ClientOpened(old(registry.Model()), clientID, ws).0
      ensures effects == old(effects) + ClientOpened(old(registry.Model()), clientID, ws).1
    {
      registry.SetClientSocket(ws, clientID);
      effects := effects + [Send(ws, JObject(Greeting(clientID)))];
    }

    method ClientDisconnected(clientID: string)
      modifies registry
      ensures registry.Model() == RemoveClientSocket(old(registry.Model()), clientID)
    {
      registry.RemoveClientSocket(clientID);
    }

    method HandleHostMessage(hostID: string, ws: Socket, text: string, ctx: Context)
      modifies this, registry
      ensures var r := HostStep(old(registry.Model()), hostID, ws, text, relayURL, ctx);
              registry.Model() == r.0 && effects == old(effects) + r.1
    {
      var inbound := Inbound(text, ctx.parse);
      if inbound.None? {
        return;
      }
      var (j, h) := inbound.value;
      var host := Peer(Host, hostID);
      if h.typ == T.HostRegister {
        var e := DecodeEnvelope(j, DecodeHostRegister);
        if e.None? {
          return;
        }
        registry.RegisterHost(e.value.payload, hostID);
      } else if h.typ == T.HostHello {
        var c := registry.CreateChallenge(hostID, ctx.nonce, ctx.now);
        SendJSON(T.Challenge, host, ChallengeReply(c.nonce, c.expiresAt), ws, ctx.messageID, ctx.now);
      } else if h.typ == T.HostAuth {
        var e := DecodeEnvelope(j, DecodeSignedChallenge);
        if e.None? {
          return;
        }
        var ok := registry.VerifyHostSignature(hostID, e.value.payload.nonce, e.value.payload.signature, ctx.now, ctx.valid);
        if ok {
          SendJSON(T.HostAuthenticated, host, HostAuthenticatedReply(), ws, ctx.messageID, ctx.now);
        } else {
          effects := effects + [Close(ws)];
        }
      } else if h.typ == T.PairingCreate {
        var e := DecodeEnvelope(j, DecodePairingCreate);
        if e.None? {
          return;
        }
        var c := registry.CreatePairingChallenge(hostID, ctx.challengeID, ctx.nonce, ctx.now, e.value.payload.ttlSeconds);
        SendJSON(T.PairingCreated, host, PairingCreatedReply(c, relayURL), ws, ctx.messageID, ctx.now);
      } else if h.typ == T.PairingApprove {
        var e := DecodeEnvelope(j, DecodePairingApprove);
        if e.None? {
          return;
        }
        var req := registry.ApprovePairing(hostID, e.value.payload.clientID, e.value.payload.challengeID);
        if req.None? {
          return;
        }
        var socket := registry.ClientSocket(req.value.clientID);
        var reg := registry.HostRegistrationFor(hostID);
        if socket.None? || reg.None? {
          return;
        }
        SendJSON(T.PairingSuccess, Peer(Client, req.value.clientID), PairingSuccessReply(hostID, reg.value),
                 socket.value, ctx.messageID, ctx.now);
      } else if h.typ in T.HostPassThrough {
        var socket := registry.ClientSocket(h.target.id);
        if socket.Some? {
          effects := effects + [Forward(socket.value, text)];
        }
      }
    }

    method HandleClientMessage(clientID: string, ws: Socket, text: string, ctx: Context)
      modifies this, registry
      ensures var r := ClientStep(old(registry.Model()), clientID, ws, text, ctx);
              registry.Model() == r.0 && effects == old(effects) + r.1
    {
      var inbound := Inbound(text, ctx.parse);
      if inbound.None? {
        return;
      }
      var (j, h) := inbound.value;
      var client := Peer(Client, clientID);
      if h.typ == T.PairingRequest {
        var e := DecodeEnvelope(j, DecodePairingRequest);
        if e.None? {
          return;
        }
        var req := registry.BeginPairingRequest(e.value.payload, clientID, ctx.now);
        if req.None? {
          return;
        }
        var socket := registry.HostSocket(req.value.hostID);
        if socket.None? {
          return;
        }
        SendJSON(T.PairingPendingApproval, Peer(Host, req.value.hostID), PendingApprovalReply(req.value),
                 socket.value, ctx.messageID, ctx.now);
      } else if h.typ == T.ClientHello {
        var e := DecodeEnvelope(j, DecodeClientHello);
        if e.None? {
          effects := effects + [Close(ws)];
          return;
        }
        var c := registry.CreateClientChallenge(clientID, e.value.payload.hostID, ctx.nonce, ctx.now);
        if c.None? {
          effects := effects + [Close(ws)];
          return;
        }
        SendJSON(T.Challenge, client, ChallengeReply(c.value.nonce, c.value.expiresAt), ws, ctx.messageID, ctx.now);
      } else if h.typ == T.ClientAuth {
        var e := DecodeEnvelope(j, DecodeSignedChallenge);
        if e.None? {
          return;
        }
        var ok := registry.VerifyClientSignature(clientID, e.value.payload.nonce, e.value.payload.signature, ctx.now, ctx.valid);
        if ok {
          SendJSON(T.ClientAuthenticated, client, ClientAuthenticatedReplyAsWritten(), ws, ctx.messageID, ctx.now);
        } else {
          effects := effects + [Close(ws)];
        }
      } else if h.typ in T.ClientPassThrough {
        var socket := registry.HostSocket(h.target.id);
        if socket.Some? {
          effects := effects + [Forward(socket.value, text)];
        }
      }
    }
  }
}
