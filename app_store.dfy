/**
  `MobileAppStore` as an object whose published properties its methods update
  in place, each method proved to follow the step function of `StoreModel`
  with the same name. The calls the store makes on its relay client are
  recorded in the ghost field `calls`.
 */
module AppStore {

  import opened Wrappers
  import opened Json
  import opened Payloads
  import opened Runtime
  import MM = MobileModel
  import opened StoreModel

  /** `firstIndex(where: { $0.id == id })`, the scan each session callback starts with. */
  method FindSession(sessions: seq<MobileSession>, id: string) returns (index: Option<nat>)
    ensures index == FirstIndex(sessions, id)
  {
    var i := 0;
    while i < |sessions|
      invariant 0 <= i <= |sessions|
      invariant forall k :: 0 <= k < i ==> sessions[k].id != id
    {
      if sessions[i].id == id {
        return Some(i);
      }
      i := i + 1;
    }
    return None;
  }

  class MobileAppStore {
    var connectionState: ConnectionState
    var statusText: string
    var sessions: seq<MobileSession>
    var selectedSessionID: Option<string>
    var pairedHostName: Option<string>
    var recentProjectPaths: seq<RecentProjectPath>
    var hostGroups: seq<GroupSummary>
    var isCreatingSession: bool
    var pendingOpenSessionID: Option<string>
    ghost var calls: seq<ClientCall>

    ghost function Model(): Store
      reads this
    {
      Store(connectionState, statusText, sessions, selectedSessionID, pairedHostName, recentProjectPaths,
            hostGroups, isCreatingSession, pendingOpenSessionID, calls)
    }

    /** `init`, given what the credential store holds. */
    constructor (stored: Option<MM.PairedHostRecord>)
      ensures Model() == Initial(stored)
    {
      connectionState := Disconnected;
      statusText := WelcomeText;
      sessions := [];
      selectedSessionID := None;
      pairedHostName := None;
      recentProjectPaths := [];
      hostGroups := [];
      isCreatingSession := false;
      pendingOpenSessionID := None;
      calls := [];
      if stored.Some? {
        pairedHostName := Some(stored.value.hostName);
        statusText := "Reconnecting to " + stored.value.hostName + "…";
        connectionState := Connecting;
        calls := calls + [ReconnectIfPossible];
      }
    }

    method OnSessionList(list: seq<SessionSummary>)
      modifies this`sessions
      ensures Model() == StoreModel.OnSessionList(old(Model()), list)
    {
      sessions := seq(|list|, i requires 0 <= i < |list| => FromSummary(list[i]));
    }

    method OnSessionUpdated(summary: SessionSummary)
      modifies this`sessions
      ensures Model() == StoreModel.OnSessionUpdated(old(Model()), summary)
    {
      var index := FindSession(sessions, summary.id);
      if index.None? {
        return;
      }
      var i := index.value;
      var session := sessions[i];
      session := session.(status := summary.status);
      session := session.(name := summary.name);
      session := session.(hasUnread := summary.hasUnread);
      if summary.lastPreview != [] {
        session := session.(lastPreview := summary.lastPreview);
      }
      sessions := sessions[i := session];
    }

    method OnTerminalSnapshot(sessionID: string, snapshot: string)
      modifies this`sessions
      ensures Model() == StoreModel.OnTerminalSnapshot(old(Model()), sessionID, snapshot)
    {
      var index := FindSession(sessions, sessionID);
      if index.None? {
        return;
      }
      var i := index.value;
      var session := sessions[i].(transcript := snapshot);
      session := session.(lastPreview := Preview(snapshot));
      sessions := sessions[i := session];
    }

    method OnTerminalOutput(sessionID: string, chunk: string)
      modifies this`sessions
      ensures Model() == StoreModel.OnTerminalOutput(old(Model()), sessionID, chunk)
    {
      var index := FindSession(sessions, sessionID);
      if index.None? {
        return;
      }
      var i := index.value;
      var session := sessions[i].(transcript := sessions[i].transcript + chunk);
      session := session.(lastPreview := Preview(chunk));
      sessions := sessions[i := session];
    }

    method OnStatusText(text: string)
      modifies this
      ensures Model() == StoreModel.OnStatusText(old(Model()), text)
    {
      statusText := text;
    }

    method OnPairingSuccess(p: PairingSuccess)
      modifies this
      ensures Model() == StoreModel.OnPairingSuccess(old(Model()), p)
    {
      pairedHostName := Some(p.hostName);
      connectionState := ConnectionState.Authenticated;
    }

    method OnClientAuthenticated(rec: MM.PairedHostRecord)
      modifies this
      ensures Model() == StoreModel.OnClientAuthenticated(old(Model()), rec)
    {
      pairedHostName := Some(rec.hostName);
      connectionState := ConnectionState.Authenticated;
    }

    method OnDisconnected()
      modifies this
      ensures Model() == StoreModel.OnDisconnected(old(Model()))
    {
      connectionState := Disconnected;
    }

    method OnProjectPathsList(paths: seq<RecentProjectPath>, groups: seq<GroupSummary>)
      modifies this
      ensures Model() == StoreModel.OnProjectPathsList(old(Model()), paths, groups)
    {
      recentProjectPaths := paths;
      hostGroups := groups;
    }

    method OnSessionCreated(summary: SessionSummary)
      modifies this
      ensures Model() == StoreModel.OnSessionCreated(old(Model()), summary)
    {
      isCreatingSession := false;
      PrepareToOpenSession(summary.id);
    }

    /** The callback the relay client invokes for one of its reports. */
    method Deliver(cb: MM.Callback)
      modifies this
      ensures Model() == StoreModel.Deliver(old(Model()), cb)
    {
      match cb {
        case StatusText(text) => OnStatusText(text);
        case PairingSucceeded(p) => OnPairingSuccess(p);
        case ClientAuthenticated(rec) => OnClientAuthenticated(rec);
        case SessionListed(list) => OnSessionList(list);
        case SnapshotReceived(id, data) => OnTerminalSnapshot(id, data);
        case OutputReceived(id, data) => OnTerminalOutput(id, data);
      }
    }

    method Pair(raw: string, parse: string -> Option<Value>, errorText: string)
      modifies this
      ensures Model() == StoreModel.Pair(old(Model()), raw, parse, errorText)
    {
      connectionState := Pairing;
      var qr := ParseQRCode(raw, parse);
      if qr.None? {
        statusText := errorText;
        connectionState := Disconnected;
        return;
      }
      calls := calls + [ConnectUsing(qr.value)];
      statusText := "Pairing in progress…";
    }

    method Reconnect()
      modifies this
      ensures Model() == StoreModel.Reconnect(old(Model()))
    {
      connectionState := Connecting;
      statusText := "Reconnecting…";
      calls := calls + [ReconnectIfPossible];
    }

    method ReconnectIfNeeded()
      modifies this
      ensures Model() == ReconnectIfNeededStep(old(Model()))
    {
      if connectionState == ConnectionState.Authenticated {
        return;
      }
      connectionState := Connecting;
      calls := calls + [ClientCall.ReconnectIfNeeded];
    }

    /** `refreshSessions`. */
    method RefreshSessions()
      modifies this`calls
      ensures Model() == Forward(old(Model()), ClientCall.RequestSessions)
    {
      calls := calls + [ClientCall.RequestSessions];
    }

    /** `sendInput(_:to:)`. */
    method SendInput(text: string, sessionID: string)
      modifies this`calls
      ensures Model() == Forward(old(Model()), ClientCall.SendInput(text, sessionID))
    {
      calls := calls + [ClientCall.SendInput(text, sessionID)];
    }

    /** `sendResize(cols:rows:for:)`. */
    method SendResize(cols: int, rows: int, sessionID: string)
      modifies this`calls
      ensures Model() == Forward(old(Model()), ClientCall.SendResize(cols, rows, sessionID))
    {
      calls := calls + [ClientCall.SendResize(cols, rows, sessionID)];
    }

    method PrepareToOpenSession(sessionID: string)
      modifies this
      ensures Model() == StoreModel.PrepareToOpenSession(old(Model()), sessionID)
    {
      selectedSessionID := Some(sessionID);
      pendingOpenSessionID := Some(sessionID);
    }

    method OpenSessionIfNeeded(sessionID: string, cols: int, rows: int)
      modifies this
      ensures Model() == StoreModel.OpenSessionIfNeeded(old(Model()), sessionID, cols, rows)
    {
      if pendingOpenSessionID == Some(sessionID) {
        calls := calls + [OpenSession(sessionID, cols, rows)];
        pendingOpenSessionID := None;
      } else {
        calls := calls + [ClientCall.SendResize(cols, rows, sessionID)];
      }
    }

    /** `requestProjectPaths`. */
    method RequestProjectPaths()
      modifies this`calls
      ensures Model() == Forward(old(Model()), ClientCall.RequestProjectPaths)
    {
      calls := calls + [ClientCall.RequestProjectPaths];
    }

    method CreateSession(request: CreateSession)
      modifies this
      ensures Model() == CreateSessionStep(old(Model()), request)
    {
      isCreatingSession := true;
      calls := calls + [CreateSessionCall(request)];
    }
  }
}
