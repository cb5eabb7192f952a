/**
  `MobileRelayClient` as an object whose fields its methods update in place.
  Each method is proved to take the object from `old(Model())` to the value
  the step function of `MobileModel` with the same name gives; the properties
  are proved once, about those step functions. What the client sends and what
  it reports through its callbacks are recorded in the ghost fields `outbox`
  and `callbacks`.
 */
module MobileClient {

  import opened Wrappers
  import opened Json
  import opened Envelope
  import opened Payloads
  import opened Runtime
  import opened Outbox
  import opened MobileModel
  import T = MessageTypes

  class MobileRelayClient {
    const clientID: string
    var socket: Option<string>
    var hostID: Option<string>
    var activeRelayURL: Option<string>
    var pairedHost: Option<PairedHostRecord>
    ghost var cancelled: seq<string>
    ghost var outbox: seq<Outgoing>
    ghost var callbacks: seq<Callback>

    ghost function Model(): Mobile
      reads this
    {
      Mobile(clientID, socket, hostID, activeRelayURL, pairedHost, cancelled, outbox, callbacks)
    }

    /** The identity and the stored paired host come from `MobileCredentialStore`. */
    constructor (clientID: string, storedHost: Option<PairedHostRecord>)
      ensures Model() == Initial(clientID, storedHost)
    {
      this.clientID := clientID;
      socket := None;
      hostID := None;
      activeRelayURL := None;
      pairedHost := storedHost;
      cancelled := [];
      outbox := [];
      callbacks := [];
    }

    method Report(cb: Callback)
      modifies this`callbacks
      ensures callbacks == old(callbacks) + [cb]
    {
      callbacks := callbacks + [cb];
    }

    method Send(typ: string, target: Peer, body: Body)
      modifies this`outbox
      ensures Model() == MobileModel.Send(old(Model()), typ, target, body)
    {
      if socket.None? {
        return;
      }
      outbox := outbox + [Outgoing(typ, target, body)];
    }

    /** The completion handler of `send`, called with the description of a send error. */
    method SendFailed(description: string)
      modifies this`callbacks
      ensures Model() == MobileModel.SendFailed(old(Model()), description)
    {
      Report(StatusText("Send failed: " + description));
    }

    method ConnectSocket(relayURL: string, env: ClientEnv)
      modifies this`socket, this`callbacks
      ensures Model() == MobileModel.ConnectSocket(old(Model()), relayURL, env)
    {
      if !env.urlParses(relayURL) {
        Report(StatusText("Invalid relay URL"));
        return;
      }
      socket := Some(SocketURL(relayURL, clientID));
      Report(StatusText("Connecting…"));
    }

    method Disconnect()
      modifies this`socket, this`cancelled
      ensures Model() == MobileModel.Disconnect(old(Model()))
    {
      if socket.Some? {
        cancelled := cancelled + [socket.value];
      }
      socket := None;
    }

    method AuthenticatePairedClient()
      modifies this`outbox
      ensures Model() == MobileModel.AuthenticatePairedClient(old(Model()))
    {
      if hostID.None? {
        return;
      }
      Send(T.ClientHello, RelayPeer, ClientHelloBody(ClientHello(hostID.value)));
    }

    method Connect(qr: PairingQRCode, env: ClientEnv)
      modifies this
      ensures Model() == MobileModel.Connect(old(Model()), qr, env)
    {
      Disconnect();
      hostID := Some(qr.hostID);
      activeRelayURL := Some(qr.relayURL);
      ConnectSocket(qr.relayURL, env);
      Send(T.PairingRequest, RelayPeer,
           PairingRequestBody(PairingRequest(qr.hostID, qr.challengeID, qr.nonce, env.deviceName, env.publicKey)));
    }

    method ReconnectIfPossible(env: ClientEnv)
      modifies this
      ensures Model() == MobileModel.ReconnectIfPossible(old(Model()), env)
    {
      if pairedHost.None? {
        return;
      }
      var record := pairedHost.value;
      Disconnect();
      hostID := Some(record.hostID);
      activeRelayURL := Some(record.relayURL);
      ConnectSocket(record.relayURL, env);
      AuthenticatePairedClient();
    }

    method RequestSessions()
      modifies this`outbox
      ensures Model() == MobileModel.RequestSessions(old(Model()))
    {
      if hostID.None? {
        return;
      }
      Send(T.ListSessions, Peer(Host, hostID.value), EmptyBody);
    }

    method SendInput(text: string, sessionID: string)
      modifies this`outbox
      ensures Model() == MobileModel.SendInput(old(Model()), text, sessionID)
    {
      if hostID.None? {
        return;
      }
      Send(T.TerminalInput, Peer(Host, hostID.value), TerminalInputBody(TerminalInput(sessionID, text)));
    }

    method SendResize(cols: int, rows: int, sessionID: string)
      modifies this`outbox
      ensures Model() == MobileModel.SendResize(old(Model()), cols, rows, sessionID)
    {
      if hostID.None? {
        return;
      }
      Send(T.TerminalResize, Peer(Host, hostID.value), SessionSizeBody(SessionSize(sessionID, cols, rows)));
    }

    method OpenSession(sessionID: string, cols: int := 100, rows: int := 28)
      modifies this`outbox
      ensures Model() == MobileModel.OpenSession(old(Model()), sessionID, cols, rows)
    {
      if hostID.None? {
        return;
      }
      Send(T.OpenSession, Peer(Host, hostID.value), SessionSizeBody(SessionSize(sessionID, cols, rows)));
    }

    method HandleIncomingText(text: string, env: ClientEnv)
      modifies this
      ensures Model() == MobileModel.HandleIncomingText(old(Model()), text, env)
    {
      var inbound := Inbound(text, env.parse);
      if inbound.None? {
        Report(StatusText(text));
        return;
      }
      var (j, header) := inbound.value;
      Apply(DecodeIncoming(header.typ, j), env);
    }

    method Apply(inc: Incoming, env: ClientEnv)
      modifies this
      ensures Model() == MobileModel.Apply(old(Model()), inc, env)
    {
      match inc {
        case PairingSuccessFrame(p) => HandlePairingSuccess(p);
        case ChallengeFrame(p) => HandleChallenge(p, env);
        case AuthenticatedFrame(_) => HandleAuthenticated();
        case SessionListFrame(s) => Report(SessionListed(s));
        case SnapshotFrame(d) => Report(SnapshotReceived(d.sessionID, d.data));
        case OutputFrame(d) => Report(OutputReceived(d.sessionID, d.data));
        case Unhandled(typ) => Report(StatusText(typ));
        case Dropped =>
      }
    }

    method HandlePairingSuccess(p: PairingSuccess)
      modifies this`pairedHost, this`callbacks, this`outbox
      ensures Model() == PairingSuccessReceived(old(Model()), p)
    {
      if activeRelayURL.Some? {
        pairedHost := Some(RecordFor(activeRelayURL.value, p));
      }
      Report(PairingSucceeded(p));
      Report(StatusText("Paired to " + p.hostName));
      AuthenticatePairedClient();
    }

    method HandleChallenge(p: Challenge, env: ClientEnv)
      modifies this`outbox, this`callbacks
      ensures Model() == MobileModel.HandleChallenge(old(Model()), p, env)
    {
      Send(T.ClientAuth, RelayPeer, SignedBody(SignedChallenge(p.nonce, env.sign(p.nonce))));
      Report(StatusText("Authenticating device…"));
    }

    method HandleAuthenticated()
      modifies this`outbox, this`callbacks
      ensures Model() == MobileModel.HandleAuthenticated(old(Model()))
    {
      if pairedHost.Some? {
        Report(ClientAuthenticated(pairedHost.value));
        Report(StatusText("Connected to " + pairedHost.value.hostName));
      } else {
        Report(StatusText("Connected"));
      }
      RequestSessions();
    }

    /** The failure branch of `receiveLoop`. */
    method ReceiveFailed(description: string)
      modifies this`callbacks
      ensures Model() == MobileModel.ReceiveFailed(old(Model()), description)
    {
      Report(StatusText("Disconnected: " + description));
    }
  }
}
