/**
  `RemoteAgentService` as an object whose fields its methods update in place.
  Each method is proved to take the object from `old(Model())` to the value
  the step function of `AgentModel` with the same name gives; the properties
  are proved once, about those step functions. What the agent sends and the
  calls it makes are recorded in the ghost fields `outbox` and `calls`.
 */
module HostAgent {

  import opened Wrappers
  import opened Json
  import opened Envelope
  import opened Payloads
  import opened Runtime
  import opened Text
  import opened Outbox
  import opened AgentModel
  import TM = TransportModel
  import T = MessageTypes

  /**
    The loop of `handleListProjectPathsRequest`: skip empty and already seen
    paths, describe each new one.
   */
  method CollectRecentPaths(paths: seq<string>, isGitRepo: string -> bool) returns (recent: seq<RecentProjectPath>)
    ensures recent == RecentPaths(paths, isGitRepo)
  {
    var seenPaths: set<string> := {};
    recent := [];
    for i := 0 to |paths|
      invariant recent == RecentPaths(paths[..i], isGitRepo)
      invariant forall p :: p in seenPaths <==> p in FirstSeen(paths[..i])
    {
      var path := paths[i];
      assert paths[..i + 1][..i] == paths[..i];
      assert paths[..i + 1][i] == path;
      if path == [] || path in seenPaths {
        continue;
      }
      seenPaths := seenPaths + {path};
      recent := recent + [RecentPath(path, isGitRepo)];
    }
    assert paths[..|paths|] == paths;
  }

  class RemoteAgentService {
    const hostID: string
    const relayURL: string
    var connectionState: TM.ConnectionState
    var lastReceivedMessage: Option<string>
    var lastTerminalOutput: Option<TerminalData>
    var isAuthenticated: bool
    var pairingQR: Option<Value>
    var isPairingActive: bool
    var pairingError: Option<string>
    var activeClientIDs: seq<string>
    var requestedTerminalSizes: map<string, (int, int)>
    var pendingPairingRequest: bool
    var pairingTimeoutArmed: bool
    ghost var outbox: seq<Outgoing>
    ghost var calls: seq<LocalCall>

    ghost function Model(): Agent
      reads this
    {
      Agent(hostID, relayURL, connectionState, lastReceivedMessage, lastTerminalOutput, isAuthenticated,
            pairingQR, isPairingActive, pairingError, activeClientIDs, requestedTerminalSizes,
            pendingPairingRequest, pairingTimeoutArmed, outbox, calls)
    }

    constructor (hostID: string, relayURL: string)
      ensures Model() == Initial(hostID, relayURL)
    {
      this.hostID := hostID;
      this.relayURL := relayURL;
      connectionState := TM.Disconnected;
      lastReceivedMessage := None;
      lastTerminalOutput := None;
      isAuthenticated := false;
      pairingQR := None;
      isPairingActive := false;
      pairingError := None;
      activeClientIDs := [];
      requestedTerminalSizes := map[];
      pendingPairingRequest := false;
      pairingTimeoutArmed := false;
      outbox := [];
      calls := [];
    }

    method InsertClient(id: string)
      modifies this`activeClientIDs
      ensures activeClientIDs == Insert(old(activeClientIDs), id)
    {
      if id !in activeClientIDs {
        activeClientIDs := activeClientIDs + [id];
      }
    }

    method Connect()
      modifies this
      ensures Model() == AgentModel.Connect(old(Model()))
    {
      isAuthenticated := false;
      calls := calls + [ConnectTransport(relayURL, hostID)];
    }

    method ConnectIfConfigured()
      modifies this
      ensures Model() == AgentModel.ConnectIfConfigured(old(Model()))
    {
      if relayURL == [] {
        return;
      }
      Connect();
    }

    method Disconnect()
      modifies this
      ensures Model() == AgentModel.Disconnect(old(Model()))
    {
      calls := calls + [DisconnectTransport];
      isAuthenticated := false;
      isPairingActive := false;
      pairingQR := None;
    }

    method RequestPairing()
      modifies this
      ensures Model() == AgentModel.RequestPairing(old(Model()))
    {
      pairingError := None;
      if relayURL == [] {
        pairingError := Some(NoRelayURLError);
        return;
      }
      if !isAuthenticated {
        Connect();
        pendingPairingRequest := true;
        pairingTimeoutArmed := true;
        return;
      }
      isPairingActive := true;
      pairingTimeoutArmed := true;
      outbox := outbox + [PairingCreateMessage];
    }

    method CancelPairing()
      modifies this
      ensures Model() == AgentModel.CancelPairing(old(Model()))
    {
      isPairingActive := false;
      pairingQR := None;
      pairingError := None;
      pairingTimeoutArmed := false;
    }

    /** The body of the timer task `startPairingTimeout` starts, once its 15 seconds are up. */
    method PairingTimeoutFires()
      modifies this
      ensures Model() == AgentModel.PairingTimeoutFires(old(Model()))
    {
      if !pairingTimeoutArmed {
        return;
      }
      pairingTimeoutArmed := false;
      if pairingQR.Some? || !(isPairingActive || pendingPairingRequest) {
        return;
      }
      pairingError := Some(TimeoutError(relayURL));
      isPairingActive := false;
      pendingPairingRequest := false;
    }

    method HandleTransportStateChange(s: TM.ConnectionState, env: HostEnv)
      modifies this
      ensures Model() == TransportStateChanged(old(Model()), s, env)
    {
      if s == TM.Disconnected {
        isAuthenticated := false;
      }
      connectionState := s;
      if s == TM.Connected {
        outbox := outbox + [RegisterMessage(env)];
        outbox := outbox + [HelloMessage];
      }
    }

    method CaptureTerminalOutput(data: seq<Byte>, sessionID: string, decodeUtf8: seq<Byte> -> string)
      modifies this
      ensures Model() == AgentModel.CaptureTerminalOutput(old(Model()), data, sessionID, decodeUtf8)
    {
      var payload := TerminalData(sessionID, decodeUtf8(data));
      lastTerminalOutput := Some(payload);
      if !isAuthenticated {
        return;
      }
      BroadcastToActiveClients(T.TerminalOutput, TerminalDataBody(payload));
    }

    /** The `for clientID in activeClientIDs { send(…) }` loops. */
    method BroadcastToActiveClients(typ: string, body: Body)
      modifies this`outbox
      ensures outbox == old(outbox) + Broadcast(activeClientIDs, typ, body)
    {
      var clients := activeClientIDs;
      for i := 0 to |clients|
        invariant outbox == old(outbox) + Broadcast(clients[..i], typ, body)
      {
        BroadcastSnoc(clients, i, typ, body);
        outbox := outbox + [ToClient(clients[i], typ, body)];
      }
      assert clients[..|clients|] == clients;
    }

    method HandleInboundText(text: string, env: HostEnv)
      modifies this
      ensures Model() == AgentModel.HandleInboundText(old(Model()), text, env)
    {
      lastReceivedMessage := Some(text);
      var inbound := Inbound(text, env.parse);
      if inbound.None? {
        return;
      }
      var (j, header) := inbound.value;
      Apply(DecodeRequest(header.typ, j), env);
    }

    method Apply(req: Request, env: HostEnv)
      modifies this
      ensures Model() == AgentModel.Apply(old(Model()), req, env)
    {
      match req {
        case ChallengeReceived(p) => HandleChallenge(p, env);
        case HostAuthenticatedReceived =>
          isAuthenticated := true;
          connectionState := TM.Connected;
        case ListSessionsReceived(source) => HandleListSessionsRequest(source, env);
        case OpenSessionReceived(source, p) => HandleOpenSessionRequest(source, p, env);
        case TerminalInputReceived(source, p) => HandleTerminalInputRequest(source, p);
        case TerminalResizeReceived(source, p) => HandleTerminalResizeRequest(source, p);
        case PairingCreatedFrame(p) => HandlePairingCreated(p);
        case PendingApprovalFrame(p) => HandlePairingPendingApproval(p, env);
        case ListProjectPathsReceived(source) => HandleListProjectPathsRequest(source, env);
        case CreateSessionReceived(source, p) => HandleCreateSessionRequest(source, p, env);
        case Ignored =>
      }
    }

    method HandleChallenge(p: Challenge, env: HostEnv)
      modifies this
      ensures Model() == AgentModel.HandleChallenge(old(Model()), p, env)
    {
      connectionState := TM.Authenticating;
      var signature := env.sign(p.nonce);
      outbox := outbox + [ToRelay(T.HostAuth, SignedBody(SignedChallenge(p.nonce, signature)))];
      isAuthenticated := true;
      connectionState := TM.Connected;
      if pendingPairingRequest {
        pendingPairingRequest := false;
        RequestPairing();
      }
    }

    method HandleListSessionsRequest(clientID: string, env: HostEnv)
      modifies this
      ensures Model() == ListSessionsRequest(old(Model()), clientID, env)
    {
      InsertClient(clientID);
      outbox := outbox + [ToClient(clientID, T.SessionList, SessionListBody(env.sessions))];
    }

    method HandleOpenSessionRequest(source: string, p: SessionSize, env: HostEnv)
      modifies this
      ensures Model() == OpenSessionRequest(old(Model()), source, p, env)
    {
      InsertClient(source);
      requestedTerminalSizes := requestedTerminalSizes[p.sessionID := (p.cols, p.rows)];
      calls := calls + [ResizeTerminal(p.sessionID, p.cols, p.rows)];
      var scrollback := env.scrollback(p.sessionID);
      if scrollback.None? {
        return;
      }
      var data := scrollback.value;
      var snapshotData := if |data| > MaxSnapshotBytes then data[|data| - MaxSnapshotBytes..] else data;
      var snapshot := env.decodeUtf8(snapshotData);
      outbox := outbox + [ToClient(source, T.TerminalSnapshot, TerminalDataBody(TerminalData(p.sessionID, snapshot)))];
    }

    method HandleTerminalInputRequest(source: string, p: TerminalInput)
      modifies this
      ensures Model() == TerminalInputRequest(old(Model()), source, p)
    {
      InsertClient(source);
      calls := calls + [SendInput(p.text, p.sessionID)];
    }

    method HandleTerminalResizeRequest(source: string, p: SessionSize)
      modifies this
      ensures Model() == TerminalResizeRequest(old(Model()), source, p)
    {
      InsertClient(source);
      requestedTerminalSizes := requestedTerminalSizes[p.sessionID := (p.cols, p.rows)];
      calls := calls + [ResizeTerminal(p.sessionID, p.cols, p.rows)];
    }

    method HandleListProjectPathsRequest(clientID: string, env: HostEnv)
      modifies this
      ensures Model() == ListProjectPathsRequest(old(Model()), clientID, env)
    {
      InsertClient(clientID);
      var recentPaths := CollectRecentPaths(env.projectPaths, env.isGitRepo);
      outbox := outbox + [ToClient(clientID, T.ProjectPathsList, ProjectPathsBody(recentPaths, env.groups))];
    }

    method HandleCreateSessionRequest(source: string, p: CreateSession, env: HostEnv)
      modifies this
      ensures Model() == CreateSessionRequest(old(Model()), source, p, env)
    {
      InsertClient(source);
      CreateAndSelect(p, env.created.id);
      AnnounceCreatedSession(source, env);
    }

    /** Create the session, select it and schedule the initial prompt, if any. */
    method CreateAndSelect(p: CreateSession, sessionID: string)
      modifies this`calls
      ensures calls == old(calls) + [CreateSessionCall(p), SelectSession(sessionID)] + PromptCalls(p, sessionID)
    {
      var branch := if p.useWorktree then Some(WorktreeBranch(p.name)) else None;
      calls := calls + [CreateLocalSession(p.name, p.projectPath, p.command, p.flags, p.groupID,
                                           if p.useWorktree then Some(p.projectPath) else None, branch)];
      calls := calls + [SelectSession(sessionID)];
      if p.initialPrompt.Some? && p.initialPrompt.value != [] {
        calls := calls + [ScheduleInput(p.initialPrompt.value + "\n", sessionID)];
      }
    }

    /** Tell the requester about the new session, then send every active client the new list. */
    method AnnounceCreatedSession(source: string, env: HostEnv)
      modifies this`outbox
      ensures outbox == old(outbox) + CreateSessionMessages(activeClientIDs, source, env)
    {
      var created := ToClient(source, T.SessionCreated, SessionBody(env.created));
      outbox := outbox + [created];
      BroadcastToActiveClients(T.SessionList, SessionListBody(env.sessions));
      assert outbox == old(outbox) + ([created] + Broadcast(activeClientIDs, T.SessionList, SessionListBody(env.sessions)));
    }

    method HandlePairingCreated(p: PairingCreated)
      modifies this
      ensures Model() == PairingCreatedReceived(old(Model()), p)
    {
      var effectiveRelayURL := if p.relayURL == [] then relayURL else p.relayURL;
      var qrPayload := NewPairingQRCode(effectiveRelayURL, hostID, p.challengeID, p.nonce, p.expiresAt);
      pairingTimeoutArmed := false;
      pairingError := None;
      pairingQR := Some(EncodePairingQRCode(qrPayload));
    }

    method HandlePairingPendingApproval(p: PairingPendingApproval, env: HostEnv)
      modifies this
      ensures Model() == PendingApprovalReceived(old(Model()), p, env)
    {
      InsertClient(p.clientID);
      var signature := env.sign(p.challengeID);
      outbox := outbox + [ToRelay(T.PairingApprove, PairingApproveBody(PairingApprove(p.clientID, p.challengeID, signature)))];
      isPairingActive := false;
      pairingQR := None;
    }
  }
}
