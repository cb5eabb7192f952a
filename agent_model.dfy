/**
  `RemoteAgentService`, the macOS host's side of the protocol, as a value and
  one step function per entry point. The agent's published properties and
  private bookkeeping are the fields of `Agent`; what it hands to its transport
  is appended to `outbox`, and what it asks of the local process and session
  managers (and of the transport's connect and disconnect) to `calls`.

  `activeClientIDs` is a Swift `Set`, whose iteration order is unspecified.
  It is kept here as a duplicate-free sequence in the order the clients were
  first heard from, so a broadcast goes out in that order; the properties
  proved about broadcasts do not depend on the order.
 */
module AgentModel {

  import opened Wrappers
  import opened Json
  import opened Envelope
  import opened Payloads
  import opened Runtime
  import opened Text
  import opened Outbox
  import TM = TransportModel
  import T = MessageTypes

  type Byte = bv8

  /** Calls into the transport and the local managers, in the order made. */
  datatype LocalCall =
    | ConnectTransport(relayURL: string, hostID: string)
    | DisconnectTransport
    | ResizeTerminal(sessionID: string, cols: int, rows: int)
    | SendInput(text: string, sessionID: string)
    | ScheduleInput(text: string, sessionID: string)    // sent 1.5 s later by a detached task
    | CreateLocalSession(name: string, projectPath: string, command: string, flags: string,
                         groupID: Option<string>, worktreePath: Option<string>,
                         worktreeBranch: Option<string>)
    | SelectSession(sessionID: string)

  /**
    What a handler reads besides the agent's own state: the JSON text parser,
    the P-256 signature of a string (base64 of its DER form, or "" when
    signing fails), the public key, the host's localized name, the bundle's
    short version, the session manager's summaries, the project paths of all
    sessions (archived ones included) in fetch order, whether a path holds a
    `.git` entry, the groups, the scrollback store, the lossy UTF-8 decoder and
    the summary of the session `createSession` returns.
    `sessions` is whatever `fetchSessions` returns when a list is sent; the
    model does not tie it to `created`, so nothing here promises that the
    list broadcast after create-session contains the new session.
   */
  datatype HostEnv = HostEnv(
    parse: string -> Option<Value>,
    sign: string -> string,
    publicKey: string,
    localizedName: Option<string>,
    bundleVersion: Option<string>,
    sessions: seq<SessionSummary>,
    projectPaths: seq<string>,
    isGitRepo: string -> bool,
    groups: seq<GroupSummary>,
    scrollback: string -> Option<seq<Byte>>,
    decodeUtf8: seq<Byte> -> string,
    created: SessionSummary)

  /**
    The agent. `pairingQR` is the QR payload (`pairingQRPayloadJSON`, whose
    rendering as an image is left out); `pairingTimeoutArmed` says whether a
    pairing timeout task is still waiting to fire.
   */
  datatype Agent = Agent(
    hostID: string,
    relayURL: string,
    connectionState: TM.ConnectionState,
    lastReceivedMessage: Option<string>,
    lastTerminalOutput: Option<TerminalData>,
    isAuthenticated: bool,
    pairingQR: Option<Value>,
    isPairingActive: bool,
    pairingError: Option<string>,
    activeClientIDs: seq<string>,
    requestedTerminalSizes: map<string, (int, int)>,
    pendingPairingRequest: bool,
    pairingTimeoutArmed: bool,
    outbox: seq<Outgoing>,
    calls: seq<LocalCall>)

  function Initial(hostID: string, relayURL: string): Agent {
    Agent(hostID, relayURL, TM.Disconnected, None, None, false, None, false, None,
          [], map[], false, false, [], [])
  }

  ghost predicate Valid(a: Agent) {
    NoDuplicates(a.activeClientIDs)
  }

  /** `activeClientIDs.insert(id)`. */
  function Insert(ids: seq<string>, id: string): (r: seq<string>)
    ensures forall x :: x in r <==> x in ids || x == id
    ensures NoDuplicates(ids) ==> NoDuplicates(r)
    ensures ids <= r
  {
    if id in ids then ids else ids + [id]
  }

  function ToRelay(typ: string, body: Body): Outgoing {
    Outgoing(typ, RelayPeer, body)
  }

  function ToClient(id: string, typ: string, body: Body): Outgoing {
    Outgoing(typ, ClientPeer(id), body)
  }

  /** One message per client, in the order given. */
  function Broadcast(clients: seq<string>, typ: string, body: Body): (r: seq<Outgoing>)
    ensures |r| == |clients|
    ensures forall i :: 0 <= i < |r| ==> r[i] == ToClient(clients[i], typ, body)
  {
    if clients == [] then [] else [ToClient(clients[0], typ, body)] + Broadcast(clients[1..], typ, body)
  }

  /** Broadcasting to one more client appends that client's message. */
  lemma BroadcastSnoc(clients: seq<string>, i: nat, typ: string, body: Body)
    requires i < |clients|
    ensures Broadcast(clients[..i + 1], typ, body) == Broadcast(clients[..i], typ, body) + [ToClient(clients[i], typ, body)]
  {
    assert clients[..i + 1] == clients[..i] + [clients[i]];
    BroadcastAppend(clients[..i], [clients[i]], typ, body);
  }

  /** Broadcasting to two groups in turn is broadcasting to both. */
  lemma {:induction false} BroadcastAppend(xs: seq<string>, ys: seq<string>, typ: string, body: Body)
    ensures Broadcast(xs + ys, typ, body) == Broadcast(xs, typ, body) + Broadcast(ys, typ, body)
  {
    var l := Broadcast(xs + ys, typ, body);
    var r := Broadcast(xs, typ, body) + Broadcast(ys, typ, body);
    assert |l| == |r|;
    forall i | 0 <= i < |l| ensures l[i] == r[i] {
      if i < |xs| {
        assert (xs + ys)[i] == xs[i];
      } else {
        assert (xs + ys)[i] == ys[i - |xs|];
      }
    }
  }

  /** Among a broadcast to distinct clients, each of them gets exactly one copy and nobody else any. */
  lemma {:induction false} BroadcastReachesEachOnce(clients: seq<string>, typ: string, body: Body, c: string)
    requires NoDuplicates(clients)
    ensures SentTo(Broadcast(clients, typ, body), ClientPeer(c))
            == if c in clients then [ToClient(c, typ, body)] else []
    decreases |clients|
  {
    if clients != [] {
      var rest := clients[1..];
      assert NoDuplicates(rest) by {
        forall i, j | 0 <= i < j < |rest| ensures rest[i] != rest[j] {
          assert rest[i] == clients[i + 1] && rest[j] == clients[j + 1];
        }
      }
      BroadcastReachesEachOnce(rest, typ, body, c);
      assert Broadcast(clients, typ, body)[1..] == Broadcast(rest, typ, body);
      assert c == clients[0] ==> c !in rest;
      assert c in clients <==> c == clients[0] || c in rest;
    }
  }

  // ---------------------------------------------------------------- connection

  /** `connect()`: forget the authentication and have the transport (re)connect. */
  function Connect(a: Agent): Agent {
    a.(isAuthenticated := false, calls := a.calls + [ConnectTransport(a.relayURL, a.hostID)])
  }

  function ConnectIfConfigured(a: Agent): Agent {
    if a.relayURL == [] then a else Connect(a)
  }

  function Disconnect(a: Agent): Agent {
    a.(calls := a.calls + [DisconnectTransport], isAuthenticated := false,
       isPairingActive := false, pairingQR := None)
  }

  /** `makeHostRegisterPayload`, with no display name given. */
  function MakeHostRegister(publicKey: string, displayName: Option<string>, localizedName: Option<string>,
                            bundleVersion: Option<string>): HostRegister
  {
    HostRegister(
      if displayName.Some? then displayName.value
      else if localizedName.Some? then localizedName.value
      else "ClaudeHub Host",
      publicKey,
      bundleVersion.GetOr("0"),
      "macos")
  }

  function RegisterMessage(env: HostEnv): Outgoing {
    ToRelay(T.HostRegister, HostRegisterBody(MakeHostRegister(env.publicKey, None, env.localizedName, env.bundleVersion)))
  }

  const HelloMessage := ToRelay(T.HostHello, HostHelloBody)

  /** `handleTransportStateChange`: the transport published `s`. */
  function TransportStateChanged(a: Agent, s: TM.ConnectionState, env: HostEnv): Agent {
    var a1 := if s == TM.Disconnected then a.(isAuthenticated := false) else a;
    var a2 := a1.(connectionState := s);
    if s == TM.Connected then a2.(outbox := a2.outbox + [RegisterMessage(env), HelloMessage]) else a2
  }

  /** The agent observing the transport's published states in order. */
  function Observe(a: Agent, states: seq<TM.ConnectionState>, env: HostEnv): Agent
    decreases |states|
  {
    if states == [] then a else Observe(TransportStateChanged(a, states[0], env), states[1..], env)
  }

  /**
    Every connection the transport reports registers the host and then greets
    the relay; a lost connection also loses the authentication.
   */
  lemma StateChangeAnnouncesHost(a: Agent, s: TM.ConnectionState, env: HostEnv)
    ensures var r := TransportStateChanged(a, s, env);
      && r.connectionState == s
      && r.isAuthenticated == (a.isAuthenticated && s != TM.Disconnected)
      && r.outbox == a.outbox + (if s == TM.Connected then [RegisterMessage(env), HelloMessage] else [])
      && r.calls == a.calls
  {
  }

  /** The registration names the host by its localized name when it has one, and always says "macos". */
  lemma RegistrationDescribesHost(env: HostEnv)
    ensures var reg := RegisterMessage(env).body.register;
      && reg.publicKey == env.publicKey
      && reg.platform == "macos"
      && reg.displayName == env.localizedName.GetOr("ClaudeHub Host")
      && reg.appVersion == env.bundleVersion.GetOr("0")
  {
  }

  /**
    A successful connect of the transport publishes disconnected, connecting
    and connected; the agent then has registered and greeted exactly once and
    waits for the relay's challenge, unauthenticated.
   */
  lemma ConnectAnnouncesOnce(a: Agent, w: TM.Wire, task: TM.TaskID, env: HostEnv)
    requires a.relayURL != []
    ensures var w' := TM.Connect(w, a.relayURL, true, task);
            var r := Observe(Connect(a), w'.published[|w.published|..], env);
      && r.outbox == a.outbox + [RegisterMessage(env), HelloMessage]
      && !r.isAuthenticated
      && r.connectionState == TM.Connected
  {
    var w' := TM.Connect(w, a.relayURL, true, task);
    assert w'.published[|w.published|..] == [TM.Disconnected, TM.Connecting, TM.Connected];
    var s1 := TransportStateChanged(Connect(a), TM.Disconnected, env);
    var s2 := TransportStateChanged(s1, TM.Connecting, env);
    var s3 := TransportStateChanged(s2, TM.Connected, env);
    assert Observe(s3, [], env) == s3;
    assert Observe(s2, [TM.Connected], env) == s3;
    assert Observe(s1, [TM.Connecting, TM.Connected], env) == s3;
  }

  // ---------------------------------------------------------------- pairing

  const NoRelayURLError := "No relay URL configured. Set it in Settings → Remote."

  function TimeoutError(relayURL: string): string {
    "Timeout: could not reach relay at " + relayURL + ". Check Settings → Remote."
  }

  /** The lifetime the host asks for a pairing challenge. */
  const PairingTtlSeconds := 120

  const PairingCreateMessage := ToRelay(T.PairingCreate, PairingCreateBody(PairingCreate(PairingTtlSeconds)))

  /** `requestPairing`. */
  function RequestPairing(a: Agent): Agent {
    var cleared := a.(pairingError := None);
    if a.relayURL == [] then
      cleared.(pairingError := Some(NoRelayURLError))
    else if !a.isAuthenticated then
      Connect(cleared).(pendingPairingRequest := true, pairingTimeoutArmed := true)
    else
      cleared.(isPairingActive := true, pairingTimeoutArmed := true, outbox := a.outbox + [PairingCreateMessage])
  }

  /** The three outcomes of a pairing request: no relay, connect first, or ask the relay now. */
  lemma RequestPairingOutcomes(a: Agent)
    ensures var r := RequestPairing(a);
      && (a.relayURL == [] ==>
            r.pairingError == Some(NoRelayURLError) && r.outbox == a.outbox && r.calls == a.calls
            && !r.pairingTimeoutArmed == !a.pairingTimeoutArmed)
      && (a.relayURL != [] && !a.isAuthenticated ==>
            r.pairingError.None? && r.outbox == a.outbox
            && r.calls == a.calls + [ConnectTransport(a.relayURL, a.hostID)]
            && r.pendingPairingRequest && r.pairingTimeoutArmed && !r.isPairingActive == !a.isPairingActive)
      && (a.relayURL != [] && a.isAuthenticated ==>
            r.pairingError.None? && r.outbox == a.outbox + [PairingCreateMessage]
            && r.calls == a.calls && r.isPairingActive && r.pairingTimeoutArmed)
  {
  }

  function CancelPairing(a: Agent): Agent {
    a.(isPairingActive := false, pairingQR := None, pairingError := None, pairingTimeoutArmed := false)
  }

  /** The pairing timeout task waking up after 15 seconds. */
  function PairingTimeoutFires(a: Agent): Agent {
    if !a.pairingTimeoutArmed then a
    else
      var done := a.(pairingTimeoutArmed := false);
      if a.pairingQR.None? && (a.isPairingActive || a.pendingPairingRequest) then
        done.(pairingError := Some(TimeoutError(a.relayURL)), isPairingActive := false, pendingPairingRequest := false)
      else done
  }

  /**
    The timeout reports an unreachable relay and gives up when no QR code came
    while pairing was still wanted; otherwise it only ends itself.
   */
  lemma TimeoutReportsOnlyUnansweredPairing(a: Agent)
    requires a.pairingTimeoutArmed
    ensures var r := PairingTimeoutFires(a);
      && !r.pairingTimeoutArmed
      && r.outbox == a.outbox && r.calls == a.calls && r.pairingQR == a.pairingQR
      && (if a.pairingQR.None? && (a.isPairingActive || a.pendingPairingRequest)
          then r.pairingError == Some(TimeoutError(a.relayURL)) && !r.isPairingActive && !r.pendingPairingRequest
          else r == a.(pairingTimeoutArmed := false))
  {
  }

  /** Once cancelled, a pairing attempt never times out. */
  lemma CancelledPairingNeverTimesOut(a: Agent)
    ensures PairingTimeoutFires(CancelPairing(a)) == CancelPairing(a)
  {
  }

  /** `handleChallenge`: sign the relay's nonce, consider the host authenticated, replay a pending pairing. */
  function HandleChallenge(a: Agent, p: Challenge, env: HostEnv): Agent {
    var answer := ToRelay(T.HostAuth, SignedBody(SignedChallenge(p.nonce, env.sign(p.nonce))));
    var a1 := a.(connectionState := TM.Connected, isAuthenticated := true, outbox := a.outbox + [answer]);
    if a.pendingPairingRequest then RequestPairing(a1.(pendingPairingRequest := false)) else a1
  }

  function AuthMessage(p: Challenge, env: HostEnv): Outgoing {
    ToRelay(T.HostAuth, SignedBody(SignedChallenge(p.nonce, env.sign(p.nonce))))
  }

  /**
    The challenge is answered with the same nonce and its signature; a pairing
    requested while unauthenticated is asked of the relay right after, once.
   */
  lemma ChallengeAnswered(a: Agent, p: Challenge, env: HostEnv)
    ensures var r := HandleChallenge(a, p, env);
      && r.isAuthenticated && r.connectionState == TM.Connected && !r.pendingPairingRequest
      && r.outbox == a.outbox + [AuthMessage(p, env)]
                     + (if a.pendingPairingRequest && a.relayURL != [] then [PairingCreateMessage] else [])
      && r.calls == a.calls
  {
  }

  /**
    A pairing requested before the relay has authenticated the host is sent
    as soon as the challenge arrives: the host answers the challenge and then
    asks for the pairing challenge, and the QR code is awaited.
   */
  lemma EarlyPairingRequestReplayed(a: Agent, p: Challenge, env: HostEnv)
    requires a.relayURL != [] && !a.isAuthenticated
    ensures var r := HandleChallenge(RequestPairing(a), p, env);
      && r.outbox == a.outbox + [AuthMessage(p, env), PairingCreateMessage]
      && r.isPairingActive && !r.pendingPairingRequest && r.pairingTimeoutArmed
      && r.calls == a.calls + [ConnectTransport(a.relayURL, a.hostID)]
  {
    ChallengeAnswered(RequestPairing(a), p, env);
  }

  function EffectiveRelayURL(a: Agent, p: PairingCreated): string {
    if p.relayURL == [] then a.relayURL else p.relayURL
  }

  /** `handlePairingCreated`: show the QR payload and stop the timeout. */
  function PairingCreatedReceived(a: Agent, p: PairingCreated): Agent {
    var qr := NewPairingQRCode(EffectiveRelayURL(a, p), a.hostID, p.challengeID, p.nonce, p.expiresAt);
    a.(pairingTimeoutArmed := false, pairingError := None, pairingQR := Some(EncodePairingQRCode(qr)))
  }

  /**
    The QR code a phone scans carries this host, the relay's challenge id and
    nonce, the expiry at whole seconds, and the relay's own address unless it
    sent none; and the timeout cannot clear it any more.
   */
  lemma PairingQRCarriesChallenge(a: Agent, p: PairingCreated)
    ensures var r := PairingCreatedReceived(a, p);
      && r.pairingQR.Some?
      && ParsePairingQRCode(r.pairingQR.value)
         == Some(PairingQRCode(1, if p.relayURL == [] then a.relayURL else p.relayURL,
                               a.hostID, p.challengeID, p.nonce, WholeSeconds(p.expiresAt)))
      && r.pairingError.None?
      && PairingTimeoutFires(r) == r
  {
  }

  function ApproveMessage(p: PairingPendingApproval, env: HostEnv): Outgoing {
    ToRelay(T.PairingApprove, PairingApproveBody(PairingApprove(p.clientID, p.challengeID, env.sign(p.challengeID))))
  }

  /** `handlePairingPendingApproval`: approve automatically, then hide the QR code. */
  function PendingApprovalReceived(a: Agent, p: PairingPendingApproval, env: HostEnv): Agent {
    a.(activeClientIDs := Insert(a.activeClientIDs, p.clientID),
       outbox := a.outbox + [ApproveMessage(p, env)],
       isPairingActive := false, pairingQR := None)
  }

  /**
    Every pending request is approved for the same client and challenge, the
    signature being over the challenge id; the client becomes active.
   */
  lemma PendingRequestApproved(a: Agent, p: PairingPendingApproval, env: HostEnv)
    ensures var r := PendingApprovalReceived(a, p, env);
      && r.outbox == a.outbox + [ApproveMessage(p, env)]
      && r.outbox[|a.outbox|].body.approve == PairingApprove(p.clientID, p.challengeID, env.sign(p.challengeID))
      && p.clientID in r.activeClientIDs
      && r.pairingQR.None? && !r.isPairingActive
  {
  }

  // ---------------------------------------------------------------- terminal traffic

  /** `captureTerminalOutput`: remember the output and, once authenticated, send it to every active client. */
  function CaptureTerminalOutput(a: Agent, data: seq<Byte>, sessionID: string,
                                 decodeUtf8: seq<Byte> -> string): Agent
  {
    var payload := TerminalData(sessionID, decodeUtf8(data));
    var a1 := a.(lastTerminalOutput := Some(payload));
    if a.isAuthenticated then
      a1.(outbox := a.outbox + Broadcast(a.activeClientIDs, T.TerminalOutput, TerminalDataBody(payload)))
    else a1
  }

  /**
    Once authenticated, every active client receives the output exactly once
    and no other peer receives anything; before that nothing is sent.
   */
  lemma OutputReachesEachActiveClientOnce(a: Agent, data: seq<Byte>, sessionID: string,
                                          decodeUtf8: seq<Byte> -> string, c: string)
    requires Valid(a)
    ensures var r := CaptureTerminalOutput(a, data, sessionID, decodeUtf8);
            var sent := r.outbox[|a.outbox|..];
            var payload := TerminalData(sessionID, decodeUtf8(data));
      && a.outbox <= r.outbox
      && r.lastTerminalOutput == Some(payload)
      && SentTo(sent, ClientPeer(c))
         == (if a.isAuthenticated && c in a.activeClientIDs
             then [ToClient(c, T.TerminalOutput, TerminalDataBody(payload))] else [])
      && |sent| == (if a.isAuthenticated then |a.activeClientIDs| else 0)
  {
    var r := CaptureTerminalOutput(a, data, sessionID, decodeUtf8);
    var payload := TerminalData(sessionID, decodeUtf8(data));
    if a.isAuthenticated {
      assert r.outbox[|a.outbox|..] == Broadcast(a.activeClientIDs, T.TerminalOutput, TerminalDataBody(payload));
      BroadcastReachesEachOnce(a.activeClientIDs, T.TerminalOutput, TerminalDataBody(payload), c);
    } else {
      assert r.outbox[|a.outbox|..] == [];
    }
  }

  function ListSessionsRequest(a: Agent, clientID: string, env: HostEnv): Agent {
    a.(activeClientIDs := Insert(a.activeClientIDs, clientID),
       outbox := a.outbox + [ToClient(clientID, T.SessionList, SessionListBody(env.sessions))])
  }

  /** The most scrollback bytes a snapshot carries. */
  const MaxSnapshotBytes := 128000

  /** The bytes of a snapshot: the whole scrollback, or its last `MaxSnapshotBytes` bytes. */
  function SnapshotBytes(data: seq<Byte>): seq<Byte> {
    Suffix(data, MaxSnapshotBytes)
  }

  /** A snapshot is the newest part of the scrollback, never above the bound, and all of it when it fits. */
  lemma SnapshotIsNewestScrollback(data: seq<Byte>)
    ensures var s := SnapshotBytes(data);
      && |s| <= MaxSnapshotBytes
      && s == data[|data| - |s|..]
      && (|data| <= MaxSnapshotBytes <==> s == data)
  {
  }

  /** `handleOpenSessionRequest`: remember and apply the size, then send the scrollback snapshot if any. */
  function OpenSessionRequest(a: Agent, source: string, p: SessionSize, env: HostEnv): Agent {
    var a1 := a.(activeClientIDs := Insert(a.activeClientIDs, source),
                 requestedTerminalSizes := a.requestedTerminalSizes[p.sessionID := (p.cols, p.rows)],
                 calls := a.calls + [ResizeTerminal(p.sessionID, p.cols, p.rows)]);
    match env.scrollback(p.sessionID)
    case None => a1
    case Some(data) =>
      var snapshot := TerminalData(p.sessionID, env.decodeUtf8(SnapshotBytes(data)));
      a1.(outbox := a1.outbox + [ToClient(source, T.TerminalSnapshot, TerminalDataBody(snapshot))])
  }

  /**
    Opening a session resizes it to the client's terminal, remembers that size
    and answers with the snapshot exactly when the store has scrollback.
   */
  lemma OpenSessionSendsSnapshot(a: Agent, source: string, p: SessionSize, env: HostEnv)
    ensures var r := OpenSessionRequest(a, source, p, env);
      && r.requestedTerminalSizes[p.sessionID] == (p.cols, p.rows)
      && r.calls == a.calls + [ResizeTerminal(p.sessionID, p.cols, p.rows)]
      && source in r.activeClientIDs
      && r.outbox == a.outbox + match env.scrollback(p.sessionID)
                                case None => []
                                case Some(data) =>
                                  [ToClient(source, T.TerminalSnapshot,
                                            TerminalDataBody(TerminalData(p.sessionID, env.decodeUtf8(SnapshotBytes(data)))))]
  {
  }

  function TerminalInputRequest(a: Agent, source: string, p: TerminalInput): Agent {
    a.(activeClientIDs := Insert(a.activeClientIDs, source),
       calls := a.calls + [SendInput(p.text, p.sessionID)])
  }

  function TerminalResizeRequest(a: Agent, source: string, p: SessionSize): Agent {
    a.(activeClientIDs := Insert(a.activeClientIDs, source),
       requestedTerminalSizes := a.requestedTerminalSizes[p.sessionID := (p.cols, p.rows)],
       calls := a.calls + [ResizeTerminal(p.sessionID, p.cols, p.rows)])
  }

  // ---------------------------------------------------------------- project paths

  /**
    The distinct non-empty paths in order of first appearance: the set of
    `seenPaths` and the order of `recentPaths` that the request handler builds.
   */
  function FirstSeen(paths: seq<string>): (r: seq<string>)
    ensures NoDuplicates(r)
    ensures forall p :: p in r <==> p in paths && p != []
    decreases |paths|
  {
    if paths == [] then []
    else
      var init := paths[..|paths| - 1];
      var p := paths[|paths| - 1];
      var prev := FirstSeen(init);
      assert forall q :: q in paths <==> q in init || q == p;
      if p == [] || p in prev then prev else prev + [p]
  }

  /** A longer history only appends paths: the order of first appearance is kept. */
  lemma {:induction false} FirstSeenExtends(paths: seq<string>, k: nat)
    requires k <= |paths|
    ensures FirstSeen(paths[..k]) <= FirstSeen(paths)
    decreases |paths| - k
  {
    if k < |paths| {
      var init := paths[..|paths| - 1];
      assert paths[..k] == init[..k];
      FirstSeenExtends(init, k);
    } else {
      assert paths[..k] == paths;
    }
  }

  /** A path list already free of empties and repeats is kept as it is. */
  lemma {:induction false} FirstSeenOfDistinct(paths: seq<string>)
    requires NoDuplicates(paths) && [] !in paths
    ensures FirstSeen(paths) == paths
    decreases |paths|
  {
    if paths != [] {
      var init := paths[..|paths| - 1];
      assert NoDuplicates(init) by {
        forall i, j | 0 <= i < j < |init| ensures init[i] != init[j] {
          assert init[i] == paths[i] && init[j] == paths[j];
        }
      }
      assert [] !in init by {
        forall i | 0 <= i < |init| ensures init[i] != [] {
          assert init[i] == paths[i];
        }
      }
      FirstSeenOfDistinct(init);
      assert paths[|paths| - 1] !in init by {
        forall i | 0 <= i < |init| ensures init[i] != paths[|paths| - 1] {
          assert init[i] == paths[i];
        }
      }
      assert init + [paths[|paths| - 1]] == paths;
    }
  }

  function RecentPath(path: string, isGitRepo: string -> bool): RecentProjectPath {
    RecentProjectPath(path, LastPathComponent(path), isGitRepo(path))
  }

  /** The `recentPaths` list the host reports: one entry per distinct non-empty path. */
  function RecentPaths(paths: seq<string>, isGitRepo: string -> bool): (r: seq<RecentProjectPath>)
    ensures |r| == |FirstSeen(paths)|
    ensures forall i :: 0 <= i < |r| ==> r[i].path == FirstSeen(paths)[i]
  {
    var fs := FirstSeen(paths);
    seq(|fs|, i requires 0 <= i < |fs| => RecentPath(fs[i], isGitRepo))
  }

  /** Every reported path is non-empty, reported once, and each session's non-empty path is reported. */
  lemma RecentPathsCoverSessions(paths: seq<string>, isGitRepo: string -> bool)
    ensures var r := RecentPaths(paths, isGitRepo);
      && (forall i, j :: 0 <= i < j < |r| ==> r[i].path != r[j].path)
      && (forall p :: p in paths && p != [] <==> exists i :: 0 <= i < |r| && r[i].path == p)
      && (forall i :: 0 <= i < |r| ==>
            r[i].name == LastPathComponent(r[i].path) && r[i].isGitRepo == isGitRepo(r[i].path))
  {
    var r := RecentPaths(paths, isGitRepo);
    var fs := FirstSeen(paths);
    forall p | p in paths && p != [] ensures exists i :: 0 <= i < |r| && r[i].path == p {
      var i :| 0 <= i < |fs| && fs[i] == p;
      assert r[i].path == p;
    }
  }

  function ProjectPathsMessage(clientID: string, env: HostEnv): Outgoing {
    ToClient(clientID, T.ProjectPathsList,
             ProjectPathsBody(RecentPaths(env.projectPaths, env.isGitRepo), env.groups))
  }

  function ListProjectPathsRequest(a: Agent, clientID: string, env: HostEnv): Agent {
    a.(activeClientIDs := Insert(a.activeClientIDs, clientID),
       outbox := a.outbox + [ProjectPathsMessage(clientID, env)])
  }

  // ---------------------------------------------------------------- session creation

  /** The branch name of a session's worktree: "worktree/" and the name, lower-cased, spaces as dashes. */
  function WorktreeBranch(name: string): (r: string)
    ensures |r| == |"worktree/"| + |name|
    ensures "worktree/" <= r
    ensures ' ' !in r
  {
    DashesForSpaces(Lowercased(name));
    "worktree/" + ReplaceAll(Lowercased(name), " ", "-")
  }

  lemma {:induction false} DashesForSpaces(s: string)
    ensures |ReplaceAll(s, " ", "-")| == |s|
    ensures ' ' !in ReplaceAll(s, " ", "-")
    ensures forall i :: 0 <= i < |s| && s[i] != ' ' ==> ReplaceAll(s, " ", "-")[i] == s[i]
    decreases |s|
  {
    if s != [] {
      DashesForSpaces(s[1..]);
      if " " <= s {
        assert s[0] == ' ';
      } else {
        assert s[0] != ' ';
      }
    }
  }

  function CreateSessionCall(p: CreateSession): LocalCall {
    CreateLocalSession(p.name, p.projectPath, p.command, p.flags, p.groupID,
                       if p.useWorktree then Some(p.projectPath) else None,
                       if p.useWorktree then Some(WorktreeBranch(p.name)) else None)
  }

  function PromptCalls(p: CreateSession, sessionID: string): seq<LocalCall> {
    if p.initialPrompt.Some? && p.initialPrompt.value != [] then
      [ScheduleInput(p.initialPrompt.value + "\n", sessionID)]
    else []
  }

  /** What `handleCreateSessionRequest` sends: the new session to the requester, then the list to every active client. */
  function CreateSessionMessages(clients: seq<string>, source: string, env: HostEnv): seq<Outgoing> {
    [ToClient(source, T.SessionCreated, SessionBody(env.created))]
    + Broadcast(clients, T.SessionList, SessionListBody(env.sessions))
  }

  /**
    `handleCreateSessionRequest`: create and select the session, schedule the
    initial prompt, tell the requester and broadcast the new session list.
   */
  function CreateSessionRequest(a: Agent, source: string, p: CreateSession, env: HostEnv): Agent {
    var clients := Insert(a.activeClientIDs, source);
    a.(activeClientIDs := clients,
       calls := a.calls + [CreateSessionCall(p), SelectSession(env.created.id)] + PromptCalls(p, env.created.id),
       outbox := a.outbox + CreateSessionMessages(clients, source, env))
  }

  /**
    The requester hears of the new session and then gets the list; every
    other active client gets the list once, and nobody else anything.
   */
  lemma CreateSessionAnnounced(a: Agent, source: string, p: CreateSession, env: HostEnv, c: string)
    requires Valid(a)
    ensures var clients := Insert(a.activeClientIDs, source);
      && CreateSessionRequest(a, source, p, env).outbox == a.outbox + CreateSessionMessages(clients, source, env)
      && SentTo(CreateSessionMessages(clients, source, env), ClientPeer(c))
         == (if c == source
             then [ToClient(source, T.SessionCreated, SessionBody(env.created)),
                   ToClient(source, T.SessionList, SessionListBody(env.sessions))]
             else if c in a.activeClientIDs then [ToClient(c, T.SessionList, SessionListBody(env.sessions))]
             else [])
  {
    CreateSessionMessagesReach(Insert(a.activeClientIDs, source), source, env, c);
  }

  lemma CreateSessionMessagesReach(clients: seq<string>, source: string, env: HostEnv, c: string)
    requires NoDuplicates(clients) && source in clients
    ensures SentTo(CreateSessionMessages(clients, source, env), ClientPeer(c))
            == (if c == source
                then [ToClient(source, T.SessionCreated, SessionBody(env.created)),
                      ToClient(source, T.SessionList, SessionListBody(env.sessions))]
                else if c in clients then [ToClient(c, T.SessionList, SessionListBody(env.sessions))]
                else [])
  {
    var body := SessionListBody(env.sessions);
    var created := ToClient(source, T.SessionCreated, SessionBody(env.created));
    var list := Broadcast(clients, T.SessionList, body);
    assert CreateSessionMessages(clients, source, env) == [created] + list;
    SentToAppend([created], list, ClientPeer(c));
    BroadcastReachesEachOnce(clients, T.SessionList, body, c);
    SentToOne(created, ClientPeer(c));
  }

  /**
    The session is created in a worktree on the project path exactly when the
    client asked for one, then selected; the prompt is typed, with a newline,
    only when there is one.
   */
  lemma CreateSessionCalls(a: Agent, source: string, p: CreateSession, env: HostEnv)
    ensures var r := CreateSessionRequest(a, source, p, env);
      && a.calls <= r.calls
      && r.calls[|a.calls|] == CreateSessionCall(p)
      && r.calls[|a.calls|].worktreePath == (if p.useWorktree then Some(p.projectPath) else None)
      && r.calls[|a.calls|].worktreeBranch.Some? == p.useWorktree
      && r.calls[|a.calls| + 1] == SelectSession(env.created.id)
      && (|r.calls| == |a.calls| + 3 <==> p.initialPrompt.Some? && p.initialPrompt.value != [])
      && (|r.calls| == |a.calls| + 3 ==> r.calls[|a.calls| + 2] == ScheduleInput(p.initialPrompt.value + "\n", env.created.id))
  {
  }

  // ---------------------------------------------------------------- inbound traffic

  /** A frame the host acts on, with its decoded payload and, for client requests, the sending client. */
  datatype Request =
    | ChallengeReceived(challenge: Challenge)
    | HostAuthenticatedReceived
    | ListSessionsReceived(source: string)
    | OpenSessionReceived(source: string, size: SessionSize)
    | TerminalInputReceived(source: string, input: TerminalInput)
    | TerminalResizeReceived(source: string, size: SessionSize)
    | PairingCreatedFrame(created: PairingCreated)
    | PendingApprovalFrame(pending: PairingPendingApproval)
    | ListProjectPathsReceived(source: string)
    | CreateSessionReceived(source: string, create: CreateSession)
    | Ignored

  /** `Self.decoder.decode(RemoteEnvelope<P>.self, …)` for the payload type that goes with `typ`. */
  function DecodeRequest(typ: string, j: Value): (r: Request)
    ensures typ !in HostHandled ==> r == Ignored
  {
    if typ == T.Challenge then
      match DecodeEnvelope(j, DecodeChallenge)
      case Some(e) => ChallengeReceived(e.payload)
      case None => Ignored
    else if typ == T.HostAuthenticated then HostAuthenticatedReceived
    else if typ == T.ListSessions then
      match DecodeEnvelope(j, DecodeEmpty)
      case Some(e) => ListSessionsReceived(e.source.id)
      case None => Ignored
    else if typ == T.OpenSession then
      match DecodeEnvelope(j, DecodeSessionSize)
      case Some(e) => OpenSessionReceived(e.source.id, e.payload)
      case None => Ignored
    else if typ == T.TerminalInput then
      match DecodeEnvelope(j, DecodeTerminalInput)
      case Some(e) => TerminalInputReceived(e.source.id, e.payload)
      case None => Ignored
    else if typ == T.TerminalResize then
      match DecodeEnvelope(j, DecodeSessionSize)
      case Some(e) => TerminalResizeReceived(e.source.id, e.payload)
      case None => Ignored
    else if typ == T.PairingCreated then
      match DecodeEnvelope(j, DecodePairingCreated)
      case Some(e) => PairingCreatedFrame(e.payload)
      case None => Ignored
    else if typ == T.PairingPendingApproval then
      match DecodeEnvelope(j, DecodePairingPendingApproval)
      case Some(e) => PendingApprovalFrame(e.payload)
      case None => Ignored
    else if typ == T.ListProjectPaths then
      match DecodeEnvelope(j, DecodeEmpty)
      case Some(e) => ListProjectPathsReceived(e.source.id)
      case None => Ignored
    else if typ == T.CreateSession then
      match DecodeEnvelope(j, DecodeCreateSession)
      case Some(e) => CreateSessionReceived(e.source.id, e.payload)
      case None => Ignored
    else Ignored
  }

  /** The handler each request goes to. */
  function Apply(a: Agent, req: Request, env: HostEnv): Agent {
    match req
    case ChallengeReceived(p) => HandleChallenge(a, p, env)
    case HostAuthenticatedReceived => a.(isAuthenticated := true, connectionState := TM.Connected)
    case ListSessionsReceived(source) => ListSessionsRequest(a, source, env)
    case OpenSessionReceived(source, p) => OpenSessionRequest(a, source, p, env)
    case TerminalInputReceived(source, p) => TerminalInputRequest(a, source, p)
    case TerminalResizeReceived(source, p) => TerminalResizeRequest(a, source, p)
    case PairingCreatedFrame(p) => PairingCreatedReceived(a, p)
    case PendingApprovalFrame(p) => PendingApprovalReceived(a, p, env)
    case ListProjectPathsReceived(source) => ListProjectPathsRequest(a, source, env)
    case CreateSessionReceived(source, p) => CreateSessionRequest(a, source, p, env)
    case Ignored => a
  }

  /** `handleInboundText`: remember the text, then act on the types the host handles. */
  function HandleInboundText(a: Agent, text: string, env: HostEnv): Agent {
    var a0 := a.(lastReceivedMessage := Some(text));
    match Inbound(text, env.parse)
    case None => a0
    case Some((j, h)) => Apply(a0, DecodeRequest(h.typ, j), env)
  }

  /** The types the host acts on; any other frame is only remembered. */
  const HostHandled: set<string> :=
    {T.Challenge, T.HostAuthenticated, T.ListSessions, T.OpenSession, T.TerminalInput, T.TerminalResize,
     T.PairingCreated, T.PairingPendingApproval, T.ListProjectPaths, T.CreateSession}

  /** Text that is not an envelope, or whose type the host does not handle, changes nothing but the last message. */
  lemma UnhandledInboundOnlyRemembered(a: Agent, text: string, env: HostEnv)
    requires Inbound(text, env.parse).None? || Inbound(text, env.parse).value.1.typ !in HostHandled
    ensures HandleInboundText(a, text, env) == a.(lastReceivedMessage := Some(text))
  {
  }

  /** Whatever arrives, the last message is the text itself and the set of active clients stays a set. */
  lemma InboundKeepsValid(a: Agent, text: string, env: HostEnv)
    requires Valid(a)
    ensures var r := HandleInboundText(a, text, env);
      && Valid(r)
      && r.lastReceivedMessage == Some(text)
      && forall c :: c in a.activeClientIDs ==> c in r.activeClientIDs
  {
    var a0 := a.(lastReceivedMessage := Some(text));
    match Inbound(text, env.parse)
    case None =>
    case Some((j, h)) => ApplyKeepsValid(a0, DecodeRequest(h.typ, j), env);
  }

  lemma ApplyKeepsValid(a: Agent, req: Request, env: HostEnv)
    requires Valid(a)
    ensures var r := Apply(a, req, env);
      && Valid(r)
      && r.lastReceivedMessage == a.lastReceivedMessage
      && forall c :: c in a.activeClientIDs ==> c in r.activeClientIDs
  {
    match req
    case ChallengeReceived(p) =>
      assert Apply(a, req, env).activeClientIDs == a.activeClientIDs;
    case CreateSessionReceived(source, p) =>
      assert Apply(a, req, env).activeClientIDs == Insert(a.activeClientIDs, source);
    case _ =>
  }
}
