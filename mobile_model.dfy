/**
  `MobileRelayClient`, the phone's side of the protocol, as a value and one
  step function per entry point. What the client hands to its web socket is
  appended to `outbox`; what it reports to its owner through its callbacks
  (`onStatusText`, `onPairingSuccess`, …) is appended to `callbacks`.

  The web socket task is kept as the URL it was opened on; `cancelled` lists
  the socket tasks `disconnect` cancelled. `pairedHost` is the record that
  `MobileCredentialStore` persists: the client reads it back in
  `reconnectIfPossible` and `handleAuthenticated`, and writes it on
  pairing-success.
 */
module MobileModel {

  import opened Wrappers
  import opened Json
  import opened Envelope
  import opened Payloads
  import opened Runtime
  import opened Text
  import opened Outbox
  import T = MessageTypes

  /** `PairedHostRecord`. */
  datatype PairedHostRecord = PairedHostRecord(relayURL: string, hostID: string, hostName: string,
                                               hostPublicKey: string)

  /** What the client reports to its owner, one value per callback invocation. */
  datatype Callback =
    | StatusText(text: string)
    | PairingSucceeded(success: PairingSuccess)
    | ClientAuthenticated(record: PairedHostRecord)
    | SessionListed(sessions: seq<SessionSummary>)
    | SnapshotReceived(sessionID: string, data: string)
    | OutputReceived(sessionID: string, data: string)

  /**
    What the client reads besides its own state: the JSON text parser, the
    P-256 signature of a nonce (base64 of its DER form, or "" when signing
    fails), the client's public key (base64 of its raw form), the device name,
    and whether `URL(string:)` accepts a text.
   */
  datatype ClientEnv = ClientEnv(
    parse: string -> Option<Value>,
    sign: string -> string,
    publicKey: string,
    deviceName: string,
    urlParses: string -> bool)

  datatype Mobile = Mobile(
    clientID: string,
    socket: Option<string>,
    hostID: Option<string>,
    activeRelayURL: Option<string>,
    pairedHost: Option<PairedHostRecord>,
    cancelled: seq<string>,
    outbox: seq<Outgoing>,
    callbacks: seq<Callback>)

  /** A fresh client: no socket, no host; the credential store may already hold a record. */
  function Initial(clientID: string, pairedHost: Option<PairedHostRecord>): Mobile {
    Mobile(clientID, None, None, None, pairedHost, [], [], [])
  }

  function Notify(c: Mobile, cb: Callback): Mobile {
    c.(callbacks := c.callbacks + [cb])
  }

  function Status(c: Mobile, text: string): Mobile {
    Notify(c, StatusText(text))
  }

  /** `send`: nothing without a socket task; otherwise the envelope goes out from this client. */
  function Send(c: Mobile, typ: string, target: Peer, body: Body): Mobile {
    if c.socket.None? then c else c.(outbox := c.outbox + [Outgoing(typ, target, body)])
  }

  /**
    The completion handler `send` gives the socket task: a send error is shown
    as "Send failed: " followed by its description, and nothing else changes.
   */
  function SendFailed(c: Mobile, description: string): (r: Mobile)
    ensures r.callbacks == c.callbacks + [StatusText("Send failed: " + description)]
    ensures r.(callbacks := c.callbacks) == c
  {
    Status(c, "Send failed: " + description)
  }

  // ---------------------------------------------------------------- socket

  predicate IsSlash(ch: char) {
    ch == '/'
  }

  /** Everything before the last `/` of a path without trailing slashes. */
  function ParentOf(t: string): (r: string)
    ensures |r| < |t| || t == []
    ensures r <= t
    decreases |t|
  {
    if t == [] then []
    else if t[|t| - 1] == '/' then t[..|t| - 1]
    else ParentOf(t[..|t| - 1])
  }

  /** `deletingLastPathComponent()`, on the text of a URL that has a path. */
  function DeletingLastPathComponent(url: string): (r: string)
    ensures r <= url
  {
    ParentOf(TrimEnd(url, IsSlash))
  }

  /** Cutting a path at its last `/` gives back the path. */
  lemma {:induction false} ParentAndLastComponent(t: string)
    requires t != [] && t[|t| - 1] != '/' && '/' in t
    ensures ParentOf(t) + "/" + LastComponentOf(t) == t
    decreases |t|
  {
    var init := t[..|t| - 1];
    assert t == init + [t[|t| - 1]];
    if init[|init| - 1] == '/' {
      assert ParentOf(t) == ParentOf(init);
      assert LastComponentOf(init) == [];
      assert init == init[..|init| - 1] + "/";
    } else {
      assert '/' in init by {
        var k :| 0 <= k < |t| && t[k] == '/';
        assert k < |t| - 1;
        assert init[k] == '/';
      }
      ParentAndLastComponent(init);
    }
  }

  /**
    The socket URL of `connectSocket`: the relay URL without its last path
    component, then `/ws/client/<clientID>`.
   */
  function SocketURL(relayURL: string, clientID: string): (r: string)
    ensures HasPrefix(r, DeletingLastPathComponent(relayURL))
    ensures HasSuffix(r, "/ws/client/" + clientID)
  {
    var r := DeletingLastPathComponent(relayURL) + "/ws/client/" + clientID;
    assert r[|r| - |"/ws/client/" + clientID|..] == "/ws/client/" + clientID;
    r
  }

  /** The URL text has a path after its host: a `/` beyond the `://` that ends the scheme. */
  ghost predicate HasPathAfterHost(url: string) {
    var t := TrimEnd(url, IsSlash);
    exists i :: PathAfterSchemeAt(t, i)
  }

  /** `://` ends at `i + 3` in `t`, and a `/` follows it. */
  predicate PathAfterSchemeAt(t: string, i: int) {
    0 <= i && i + 3 <= |t| && t[i..i + 3] == "://" && '/' in t[i + 3..]
  }

  /**
    For a relay URL with a path after its host, the socket URL takes the
    place of the last path component: the URL is the kept part, a `/`, and
    that component.
   */
  lemma SocketReplacesLastComponent(relayURL: string, clientID: string)
    requires HasPathAfterHost(relayURL)
    ensures var t := TrimEnd(relayURL, IsSlash);
      && t == DeletingLastPathComponent(relayURL) + "/" + LastComponentOf(t)
      && SocketURL(relayURL, clientID) == DeletingLastPathComponent(relayURL) + "/ws/client/" + clientID
  {
    var t := TrimEnd(relayURL, IsSlash);
    var i :| PathAfterSchemeAt(t, i);
    assert '/' in t by {
      var k :| 0 <= k < |t[i + 3..]| && t[i + 3..][k] == '/';
      assert t[i + 3 + k] == '/';
    }
    ParentAndLastComponent(t);
  }

  /**
    Everything before a `/` of the (trimmed) relay URL is kept in the socket
    URL; for the `/` that starts the path, that is the scheme and the host.
   */
  lemma SocketKeepsHost(relayURL: string, clientID: string, j: nat)
    requires var t := TrimEnd(relayURL, IsSlash); j < |t| && t[j] == '/'
    ensures var t := TrimEnd(relayURL, IsSlash);
      && t[..j] <= DeletingLastPathComponent(relayURL)
      && t[..j] <= SocketURL(relayURL, clientID)
  {
    var t := TrimEnd(relayURL, IsSlash);
    ParentKeepsBeforeSlash(t, j);
  }

  /** Cutting at the last `/` keeps everything before any `/`. */
  lemma {:induction false} ParentKeepsBeforeSlash(t: string, j: nat)
    requires j < |t| && t[j] == '/'
    ensures j <= |ParentOf(t)| && t[..j] <= ParentOf(t)
    decreases |t|
  {
    if t[|t| - 1] != '/' {
      var init := t[..|t| - 1];
      assert j < |init| && init[j] == '/';
      ParentKeepsBeforeSlash(init, j);
      assert init[..j] == t[..j];
    }
  }

  /** `connectSocket`: an unparseable URL only reports itself; otherwise a new task. */
  function ConnectSocket(c: Mobile, relayURL: string, env: ClientEnv): Mobile {
    if !env.urlParses(relayURL) then Status(c, "Invalid relay URL")
    else Status(c.(socket := Some(SocketURL(relayURL, c.clientID))), "Connecting…")
  }

  /** `disconnect`: cancel the socket task, if any, and forget it. */
  function Disconnect(c: Mobile): (r: Mobile)
    ensures r.socket.None?
    ensures |r.cancelled| == |c.cancelled| + (if c.socket.Some? then 1 else 0)
    ensures r.(socket := c.socket, cancelled := c.cancelled) == c
  {
    c.(socket := None, cancelled := c.cancelled + (if c.socket.Some? then [c.socket.value] else []))
  }

  // ---------------------------------------------------------------- connecting

  /** `authenticatePairedClient`: client-hello for the current host, if there is one. */
  function AuthenticatePairedClient(c: Mobile): Mobile {
    match c.hostID
    case None => c
    case Some(h) => Send(c, T.ClientHello, RelayPeer, ClientHelloBody(ClientHello(h)))
  }

  /** The pairing request a scanned QR payload leads to. */
  function PairingRequestFor(qr: PairingQRCode, env: ClientEnv): Outgoing {
    Outgoing(T.PairingRequest, RelayPeer,
             PairingRequestBody(PairingRequest(qr.hostID, qr.challengeID, qr.nonce, env.deviceName, env.publicKey)))
  }

  /** `connect(using:)`. */
  function Connect(c: Mobile, qr: PairingQRCode, env: ClientEnv): Mobile {
    var c1 := Disconnect(c).(hostID := Some(qr.hostID), activeRelayURL := Some(qr.relayURL));
    var request := PairingRequestFor(qr, env);
    Send(ConnectSocket(c1, qr.relayURL, env), request.typ, request.target, request.body)
  }

  /**
    `connect(using:)` cancels the old task first and adopts the QR's host and
    relay URL. With a usable URL it opens the client socket and sends exactly
    one pairing request echoing the QR's host, challenge and nonce; otherwise
    it reports the bad URL and sends nothing.
   */
  lemma ConnectRequestsPairing(c: Mobile, qr: PairingQRCode, env: ClientEnv)
    ensures var r := Connect(c, qr, env);
      && r.hostID == Some(qr.hostID)
      && r.activeRelayURL == Some(qr.relayURL)
      && r.cancelled == Disconnect(c).cancelled
      && r.pairedHost == c.pairedHost
      && (if env.urlParses(qr.relayURL) then
            && r.socket == Some(SocketURL(qr.relayURL, c.clientID))
            && r.outbox == c.outbox + [PairingRequestFor(qr, env)]
            && r.callbacks == c.callbacks + [StatusText("Connecting…")]
          else
            && r.socket.None?
            && r.outbox == c.outbox
            && r.callbacks == c.callbacks + [StatusText("Invalid relay URL")])
  {
  }

  /** `reconnectIfPossible`: only with a stored paired host. */
  function ReconnectIfPossible(c: Mobile, env: ClientEnv): Mobile {
    match c.pairedHost
    case None => c
    case Some(rec) =>
      var c1 := Disconnect(c).(hostID := Some(rec.hostID), activeRelayURL := Some(rec.relayURL));
      AuthenticatePairedClient(ConnectSocket(c1, rec.relayURL, env))
  }

  /**
    Without a stored record `reconnectIfPossible` does nothing. With one it
    reconnects to the stored relay and, when the URL is usable, sends exactly
    one client-hello naming the stored host.
   */
  lemma ReconnectSendsHello(c: Mobile, env: ClientEnv)
    ensures c.pairedHost.None? ==> ReconnectIfPossible(c, env) == c
    ensures c.pairedHost.Some? ==>
      var rec := c.pairedHost.value;
      var r := ReconnectIfPossible(c, env);
      && r.hostID == Some(rec.hostID)
      && r.activeRelayURL == Some(rec.relayURL)
      && r.outbox == c.outbox + (if env.urlParses(rec.relayURL)
                                 then [Outgoing(T.ClientHello, RelayPeer, ClientHelloBody(ClientHello(rec.hostID)))]
                                 else [])
  {
  }

  // ---------------------------------------------------------------- requests to the host

  /** What a request sender hands to the socket: one envelope to the host, when there is a host and a socket. */
  function ToHost(c: Mobile, typ: string, body: Body): seq<Outgoing> {
    if c.hostID.Some? && c.socket.Some? then [Outgoing(typ, Peer(Host, c.hostID.value), body)] else []
  }

  /** `requestSessions`. */
  function RequestSessions(c: Mobile): (r: Mobile)
    ensures r.outbox == c.outbox + ToHost(c, T.ListSessions, EmptyBody)
    ensures r.(outbox := c.outbox) == c
  {
    match c.hostID
    case None => c
    case Some(h) => Send(c, T.ListSessions, Peer(Host, h), EmptyBody)
  }

  /** `sendInput(_:to:)`. */
  function SendInput(c: Mobile, text: string, sessionID: string): (r: Mobile)
    ensures r.outbox == c.outbox + ToHost(c, T.TerminalInput, TerminalInputBody(TerminalInput(sessionID, text)))
    ensures r.(outbox := c.outbox) == c
  {
    match c.hostID
    case None => c
    case Some(h) => Send(c, T.TerminalInput, Peer(Host, h), TerminalInputBody(TerminalInput(sessionID, text)))
  }

  /** `sendResize(cols:rows:for:)`. */
  function SendResize(c: Mobile, cols: int, rows: int, sessionID: string): (r: Mobile)
    ensures r.outbox == c.outbox + ToHost(c, T.TerminalResize, SessionSizeBody(SessionSize(sessionID, cols, rows)))
    ensures r.(outbox := c.outbox) == c
  {
    match c.hostID
    case None => c
    case Some(h) => Send(c, T.TerminalResize, Peer(Host, h), SessionSizeBody(SessionSize(sessionID, cols, rows)))
  }

  /** `openSession(_:cols:rows:)`, 100 by 28 unless told otherwise. */
  function OpenSession(c: Mobile, sessionID: string, cols: int := 100, rows: int := 28): (r: Mobile)
    ensures r.outbox == c.outbox + ToHost(c, T.OpenSession, SessionSizeBody(SessionSize(sessionID, cols, rows)))
    ensures r.(outbox := c.outbox) == c
  {
    match c.hostID
    case None => c
    case Some(h) => Send(c, T.OpenSession, Peer(Host, h), SessionSizeBody(SessionSize(sessionID, cols, rows)))
  }

  // ---------------------------------------------------------------- inbound

  /** A frame the client acts on, with its decoded payload. */
  datatype Incoming =
    | PairingSuccessFrame(success: PairingSuccess)
    | ChallengeFrame(challenge: Challenge)
    | AuthenticatedFrame(authenticated: Authenticated)
    | SessionListFrame(sessions: seq<SessionSummary>)
    | SnapshotFrame(snapshot: TerminalData)
    | OutputFrame(output: TerminalData)
    | Unhandled(typ: string)
    | Dropped

  /** The types `handleIncomingText` has a case for. */
  const ClientHandled: set<string> :=
    {T.PairingSuccess, T.Challenge, T.ClientAuthenticated, T.SessionList, T.TerminalSnapshot, T.TerminalOutput}

  /** The typed decode that goes with the header's type; a failed decode drops the frame. */
  function DecodeIncoming(typ: string, j: Value): (r: Incoming)
    ensures typ !in ClientHandled <==> r == Unhandled(typ)
  {
    if typ == T.PairingSuccess then
      match DecodeEnvelope(j, DecodePairingSuccess)
      case Some(e) => PairingSuccessFrame(e.payload)
      case None => Dropped
    else if typ == T.Challenge then
      match DecodeEnvelope(j, DecodeChallenge)
      case Some(e) => ChallengeFrame(e.payload)
      case None => Dropped
    else if typ == T.ClientAuthenticated then
      match DecodeEnvelope(j, DecodeAuthenticated)
      case Some(e) => AuthenticatedFrame(e.payload)
      case None => Dropped
    else if typ == T.SessionList then
      match DecodeEnvelope(j, DecodeSessionList)
      case Some(e) => SessionListFrame(e.payload)
      case None => Dropped
    else if typ == T.TerminalSnapshot then
      match DecodeEnvelope(j, DecodeTerminalData)
      case Some(e) => SnapshotFrame(e.payload)
      case None => Dropped
    else if typ == T.TerminalOutput then
      match DecodeEnvelope(j, DecodeTerminalData)
      case Some(e) => OutputFrame(e.payload)
      case None => Dropped
    else Unhandled(typ)
  }

  function RecordFor(relayURL: string, p: PairingSuccess): PairedHostRecord {
    PairedHostRecord(relayURL, p.hostID, p.hostName, p.hostPublicKey)
  }

  /** pairing-success: store the record when a relay URL is active, report, and authenticate. */
  function PairingSuccessReceived(c: Mobile, p: PairingSuccess): Mobile {
    var c1 := if c.activeRelayURL.Some? then c.(pairedHost := Some(RecordFor(c.activeRelayURL.value, p))) else c;
    AuthenticatePairedClient(Status(Notify(c1, PairingSucceeded(p)), "Paired to " + p.hostName))
  }

  /** `handleChallenge`: client-auth with the same nonce and its signature. */
  function HandleChallenge(c: Mobile, p: Challenge, env: ClientEnv): Mobile {
    Status(Send(c, T.ClientAuth, RelayPeer, SignedBody(SignedChallenge(p.nonce, env.sign(p.nonce)))),
           "Authenticating device…")
  }

  /** `handleAuthenticated`: report the stored host, if any, then ask for the sessions. */
  function HandleAuthenticated(c: Mobile): Mobile {
    var c1 := match c.pairedHost
      case Some(rec) => Status(Notify(c, ClientAuthenticated(rec)), "Connected to " + rec.hostName)
      case None => Status(c, "Connected");
    RequestSessions(c1)
  }

  function Apply(c: Mobile, inc: Incoming, env: ClientEnv): Mobile {
    match inc
    case PairingSuccessFrame(p) => PairingSuccessReceived(c, p)
    case ChallengeFrame(p) => HandleChallenge(c, p, env)
    case AuthenticatedFrame(_) => HandleAuthenticated(c)
    case SessionListFrame(s) => Notify(c, SessionListed(s))
    case SnapshotFrame(d) => Notify(c, SnapshotReceived(d.sessionID, d.data))
    case OutputFrame(d) => Notify(c, OutputReceived(d.sessionID, d.data))
    case Unhandled(typ) => Status(c, typ)
    case Dropped => c
  }

  /** `handleIncomingText`. */
  function HandleIncomingText(c: Mobile, text: string, env: ClientEnv): Mobile {
    match Inbound(text, env.parse)
    case None => Status(c, text)
    case Some((j, h)) => Apply(c, DecodeIncoming(h.typ, j), env)
  }

  /** The receive loop's failure branch: report, and keep the (dead) task. */
  function ReceiveFailed(c: Mobile, description: string): Mobile {
    Status(c, "Disconnected: " + description)
  }

  /**
    Text that is not an envelope is reported verbatim; an envelope of a type
    the client has no case for reports just its type. Nothing else changes.
   */
  lemma UnhandledTextReported(c: Mobile, text: string, env: ClientEnv)
    requires Inbound(text, env.parse).None? || Inbound(text, env.parse).value.1.typ !in ClientHandled
    ensures var reported := if Inbound(text, env.parse).None? then text else Inbound(text, env.parse).value.1.typ;
      HandleIncomingText(c, text, env) == c.(callbacks := c.callbacks + [StatusText(reported)])
  {
  }

  /** The envelope a text carries, decoded with the payload codec `decode`. */
  function Carried<P>(text: string, env: ClientEnv, decode: Value -> Option<P>): Option<Envelope<P>> {
    match env.parse(text)
    case None => None
    case Some(j) => DecodeEnvelope(j, decode)
  }

  /** A challenge is answered with client-auth carrying the same nonce and its signature. */
  lemma ChallengeAnsweredWithSameNonce(c: Mobile, text: string, env: ClientEnv, e: Envelope<Challenge>)
    requires Carried(text, env, DecodeChallenge) == Some(e) && e.typ == T.Challenge
    ensures var r := HandleIncomingText(c, text, env);
      && r.outbox == c.outbox + (if c.socket.Some?
                                 then [Outgoing(T.ClientAuth, RelayPeer,
                                                SignedBody(SignedChallenge(e.payload.nonce, env.sign(e.payload.nonce))))]
                                 else [])
      && r.callbacks == c.callbacks + [StatusText("Authenticating device…")]
      && r.(outbox := c.outbox, callbacks := c.callbacks) == c
  {
    assert Inbound(text, env.parse) == Some((env.parse(text).value, HeaderOf(e)));
  }

  /**
    pairing-success stores the paired host exactly when a relay URL is active,
    reports the success, and then sends client-hello for the current host.
   */
  lemma PairingSuccessStoresRecord(c: Mobile, text: string, env: ClientEnv, e: Envelope<PairingSuccess>)
    requires Carried(text, env, DecodePairingSuccess) == Some(e) && e.typ == T.PairingSuccess
    ensures var r := HandleIncomingText(c, text, env);
      && r.pairedHost == (if c.activeRelayURL.Some? then Some(RecordFor(c.activeRelayURL.value, e.payload))
                          else c.pairedHost)
      && r.callbacks == c.callbacks + [PairingSucceeded(e.payload), StatusText("Paired to " + e.payload.hostName)]
      && r.outbox == c.outbox + (if c.hostID.Some? && c.socket.Some?
                                 then [Outgoing(T.ClientHello, RelayPeer, ClientHelloBody(ClientHello(c.hostID.value)))]
                                 else [])
  {
    assert Inbound(text, env.parse) == Some((env.parse(text).value, HeaderOf(e)));
  }

  /**
    client-authenticated (when its payload decodes) sends exactly one
    list-sessions to the host and reports the stored host, if there is one.
   */
  lemma AuthenticatedRequestsSessionsOnce(c: Mobile, text: string, env: ClientEnv, e: Envelope<Authenticated>)
    requires Carried(text, env, DecodeAuthenticated) == Some(e) && e.typ == T.ClientAuthenticated
    ensures var r := HandleIncomingText(c, text, env);
      && r.outbox == c.outbox + ToHost(c, T.ListSessions, EmptyBody)
      && r.callbacks == c.callbacks + (match c.pairedHost
                                       case Some(rec) => [ClientAuthenticated(rec), StatusText("Connected to " + rec.hostName)]
                                       case None => [StatusText("Connected")])
      && r.(outbox := c.outbox, callbacks := c.callbacks) == c
  {
    assert Inbound(text, env.parse) == Some((env.parse(text).value, HeaderOf(e)));
  }

  /** A client-authenticated frame whose payload does not decode is dropped without a trace. */
  lemma UndecodableAuthenticatedDropped(c: Mobile, text: string, env: ClientEnv)
    requires Inbound(text, env.parse).Some? && Inbound(text, env.parse).value.1.typ == T.ClientAuthenticated
    requires Carried(text, env, DecodeAuthenticated).None?
    ensures HandleIncomingText(c, text, env) == c
  {
  }

  /** Session list, snapshot and output frames are handed on unchanged and send nothing. */
  lemma RuntimeFramesHandedOn(c: Mobile, text: string, env: ClientEnv)
    requires Inbound(text, env.parse).Some?
    requires var typ := Inbound(text, env.parse).value.1.typ;
      typ == T.SessionList || typ == T.TerminalSnapshot || typ == T.TerminalOutput
    ensures var r := HandleIncomingText(c, text, env);
      && r.outbox == c.outbox
      && |r.callbacks| <= |c.callbacks| + 1
      && r.(callbacks := c.callbacks) == c
      && (Carried(text, env, DecodeTerminalData).Some? && Inbound(text, env.parse).value.1.typ == T.TerminalOutput ==>
            var d := Carried(text, env, DecodeTerminalData).value.payload;
            r.callbacks == c.callbacks + [OutputReceived(d.sessionID, d.data)])
  {
  }
}
