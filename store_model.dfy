/**
  `MobileAppStore`, the phone's observable state, as a value and one step
  function per entry point. The callbacks it installs on its relay client in
  `init` become functions named after them (`OnSessionList`, …); what it asks
  of the relay client is appended to `calls`.

  The store also installs `onSessionUpdated`, `onDisconnected`,
  `onProjectPathsList` and `onSessionCreated`, and calls `reconnectIfNeeded`,
  `requestProjectPaths` and `createSession` on the client; `MobileRelayClient`
  as modelled here has none of these, so those entry points are modelled as
  the store defines them and the client's side of them is a recorded call.
 */
module StoreModel {

  import opened Wrappers
  import opened Payloads
  import opened Runtime
  import opened Text
  import MM = MobileModel

  /**
    `MobileConnectionState`, whose declaration is not part of this model: the
    states a client passes through, of which the store sets `disconnected`,
    `connecting`, `pairing` and `authenticated`.
   */
  datatype ConnectionState = Disconnected | Connecting | Pairing | Authenticating | Authenticated

  /** `MobileSession`. */
  datatype MobileSession = MobileSession(id: string, name: string, status: string, lastPreview: string,
                                         hasUnread: bool, transcript: string)

  /** Calls the store makes on its relay client, in order. */
  datatype ClientCall =
    | ConnectUsing(qr: PairingQRCode)
    | ReconnectIfPossible
    | ReconnectIfNeeded
    | RequestSessions
    | SendInput(text: string, sessionID: string)
    | SendResize(cols: int, rows: int, sessionID: string)
    | OpenSession(sessionID: string, cols: int, rows: int)
    | RequestProjectPaths
    | CreateSessionCall(request: CreateSession)

  datatype Store = Store(
    connectionState: ConnectionState,
    statusText: string,
    sessions: seq<MobileSession>,
    selectedSessionID: Option<string>,
    pairedHostName: Option<string>,
    recentProjectPaths: seq<RecentProjectPath>,
    hostGroups: seq<GroupSummary>,
    isCreatingSession: bool,
    pendingOpenSessionID: Option<string>,
    calls: seq<ClientCall>)

  const WelcomeText := "Scan or paste a QR pairing payload."

  /** `init`: with a stored paired host, start reconnecting to it at once. */
  function Initial(stored: Option<MM.PairedHostRecord>): (s: Store)
    ensures s.sessions == [] && s.selectedSessionID.None? && s.pendingOpenSessionID.None?
    ensures stored.None? ==> s.connectionState == Disconnected && s.statusText == WelcomeText && s.calls == []
    ensures stored.Some? ==>
      && s.connectionState == Connecting
      && s.pairedHostName == Some(stored.value.hostName)
      && s.calls == [ReconnectIfPossible]
  {
    var s0 := Store(Disconnected, WelcomeText, [], None, None, [], [], false, None, []);
    match stored
    case None => s0
    case Some(rec) =>
      s0.(pairedHostName := Some(rec.hostName),
          statusText := "Reconnecting to " + rec.hostName + "…",
          connectionState := Connecting,
          calls := [ReconnectIfPossible])
  }

  // ---------------------------------------------------------------- sessions

  /** `sessions.firstIndex(where: { $0.id == id })`. */
  function FirstIndex(sessions: seq<MobileSession>, id: string): (r: Option<nat>)
    ensures r.None? <==> forall i :: 0 <= i < |sessions| ==> sessions[i].id != id
    ensures r.Some? ==> r.value < |sessions| && sessions[r.value].id == id
    ensures r.Some? ==> forall i :: 0 <= i < r.value ==> sessions[i].id != id
  {
    if sessions == [] then None
    else if sessions[0].id == id then Some(0)
    else match FirstIndex(sessions[1..], id)
      case None => None
      case Some(k) => Some(k + 1)
  }

  /** `selectedSession`: the first session with the selected id. */
  function SelectedSession(s: Store): (r: Option<MobileSession>)
    ensures r.Some? ==> s.selectedSessionID == Some(r.value.id) && r.value in s.sessions
    ensures r.None? ==> s.selectedSessionID.None? || forall m :: m in s.sessions ==> m.id != s.selectedSessionID.value
  {
    match s.selectedSessionID
    case None => None
    case Some(id) =>
      match FirstIndex(s.sessions, id)
      case None => None
      case Some(i) => Some(s.sessions[i])
  }

  /** The preview of a chunk: the first 80 characters of the chunk without surrounding white space. */
  function Preview(chunk: string): (r: string)
    ensures |r| <= 80
    ensures r == [] || (!IsSpaceOrNewline(r[0]))
    ensures r == [] <==> forall i :: 0 <= i < |chunk| ==> IsSpaceOrNewline(chunk[i])
  {
    var trimmed := Trim(chunk, IsSpaceOrNewline);
    Prefix(trimmed, 80)
  }

  function FromSummary(m: SessionSummary): MobileSession {
    MobileSession(m.id, m.name, m.status, m.lastPreview, m.hasUnread, "")
  }

  /** `onSessionList`: the list replaces the sessions, one per summary, each with an empty transcript. */
  function OnSessionList(s: Store, list: seq<SessionSummary>): (r: Store)
    ensures |r.sessions| == |list|
    ensures forall i :: 0 <= i < |list| ==>
      && r.sessions[i].id == list[i].id
      && r.sessions[i].name == list[i].name
      && r.sessions[i].status == list[i].status
      && r.sessions[i].lastPreview == list[i].lastPreview
      && r.sessions[i].hasUnread == list[i].hasUnread
      && r.sessions[i].transcript == []
    ensures r.(sessions := s.sessions) == s
  {
    s.(sessions := seq(|list|, i requires 0 <= i < |list| => FromSummary(list[i])))
  }

  /** The session update `onSessionUpdated` makes: the preview only when the new one is not empty. */
  function Updated(m: MobileSession, summary: SessionSummary): MobileSession {
    m.(status := summary.status, name := summary.name, hasUnread := summary.hasUnread,
       lastPreview := if summary.lastPreview != [] then summary.lastPreview else m.lastPreview)
  }

  /** `onSessionUpdated`. */
  function OnSessionUpdated(s: Store, summary: SessionSummary): Store {
    match FirstIndex(s.sessions, summary.id)
    case None => s
    case Some(i) => s.(sessions := s.sessions[i := Updated(s.sessions[i], summary)])
  }

  /**
    A session update changes only the status, name and unread flag (and a
    non-empty preview) of the first session with that id; its id and
    transcript stay, every other session stays, and an unknown id changes
    nothing.
   */
  lemma SessionUpdateTouchesOnlyMatch(s: Store, summary: SessionSummary)
    ensures var r := OnSessionUpdated(s, summary);
      && r.(sessions := s.sessions) == s
      && |r.sessions| == |s.sessions|
      && ((forall i :: 0 <= i < |s.sessions| ==> s.sessions[i].id != summary.id) ==> r == s)
      && forall i :: 0 <= i < |s.sessions| ==>
           if FirstIndex(s.sessions, summary.id) == Some(i) then
             && r.sessions[i].id == s.sessions[i].id
             && r.sessions[i].transcript == s.sessions[i].transcript
             && r.sessions[i].status == summary.status
             && r.sessions[i].name == summary.name
             && r.sessions[i].hasUnread == summary.hasUnread
             && r.sessions[i].lastPreview == (if summary.lastPreview == [] then s.sessions[i].lastPreview
                                              else summary.lastPreview)
           else r.sessions[i] == s.sessions[i]
  {
  }

  /** `onTerminalSnapshot`: the snapshot replaces the transcript. */
  function OnTerminalSnapshot(s: Store, sessionID: string, snapshot: string): Store {
    match FirstIndex(s.sessions, sessionID)
    case None => s
    case Some(i) =>
      s.(sessions := s.sessions[i := s.sessions[i].(transcript := snapshot, lastPreview := Preview(snapshot))])
  }

  /** `onTerminalOutput`: the chunk is appended to the transcript. */
  function OnTerminalOutput(s: Store, sessionID: string, chunk: string): Store {
    match FirstIndex(s.sessions, sessionID)
    case None => s
    case Some(i) =>
      s.(sessions := s.sessions[i := s.sessions[i].(transcript := s.sessions[i].transcript + chunk,
                                                   lastPreview := Preview(chunk))])
  }

  /**
    Terminal output extends the transcript of the first session with that id
    by exactly the chunk, sets its preview from the chunk alone, and leaves
    every other session alone; an unknown id changes nothing.
   */
  lemma OutputAppendsToTranscript(s: Store, sessionID: string, chunk: string)
    ensures var r := OnTerminalOutput(s, sessionID, chunk);
      && r.(sessions := s.sessions) == s
      && |r.sessions| == |s.sessions|
      && match FirstIndex(s.sessions, sessionID)
         case None => r == s
         case Some(i) =>
           && r.sessions[i] == s.sessions[i].(transcript := s.sessions[i].transcript + chunk,
                                              lastPreview := Preview(chunk))
           && forall k :: 0 <= k < |s.sessions| && k != i ==> r.sessions[k] == s.sessions[k]
  {
    match FirstIndex(s.sessions, sessionID) {
      case None =>
      case Some(i) =>
    }
  }

  /** A snapshot replaces the transcript of the first session with that id instead of appending to it. */
  lemma SnapshotReplacesTranscript(s: Store, sessionID: string, snapshot: string)
    ensures var r := OnTerminalSnapshot(s, sessionID, snapshot);
      && r.(sessions := s.sessions) == s
      && |r.sessions| == |s.sessions|
      && match FirstIndex(s.sessions, sessionID)
         case None => r == s
         case Some(i) =>
           && r.sessions[i] == s.sessions[i].(transcript := snapshot, lastPreview := Preview(snapshot))
           && forall k :: 0 <= k < |s.sessions| && k != i ==> r.sessions[k] == s.sessions[k]
  {
    match FirstIndex(s.sessions, sessionID) {
      case None =>
      case Some(i) =>
    }
  }

  // ---------------------------------------------------------------- other callbacks

  function OnStatusText(s: Store, text: string): Store {
    s.(statusText := text)
  }

  function OnPairingSuccess(s: Store, p: PairingSuccess): Store {
    s.(pairedHostName := Some(p.hostName), connectionState := ConnectionState.Authenticated)
  }

  function OnClientAuthenticated(s: Store, rec: MM.PairedHostRecord): Store {
    s.(pairedHostName := Some(rec.hostName), connectionState := ConnectionState.Authenticated)
  }

  function OnDisconnected(s: Store): Store {
    s.(connectionState := Disconnected)
  }

  function OnProjectPathsList(s: Store, paths: seq<RecentProjectPath>, groups: seq<GroupSummary>): Store {
    s.(recentProjectPaths := paths, hostGroups := groups)
  }

  /** `onSessionCreated`: creation is over, and the new session is the one to open. */
  function OnSessionCreated(s: Store, summary: SessionSummary): Store {
    PrepareToOpenSession(s.(isCreatingSession := false), summary.id)
  }

  /** The store's callback for each report of the relay client. */
  function Deliver(s: Store, cb: MM.Callback): Store {
    match cb
    case StatusText(text) => OnStatusText(s, text)
    case PairingSucceeded(p) => OnPairingSuccess(s, p)
    case ClientAuthenticated(rec) => OnClientAuthenticated(s, rec)
    case SessionListed(list) => OnSessionList(s, list)
    case SnapshotReceived(id, data) => OnTerminalSnapshot(s, id, data)
    case OutputReceived(id, data) => OnTerminalOutput(s, id, data)
  }

  /** Reports delivered in the order the client made them. */
  function DeliverAll(s: Store, cbs: seq<MM.Callback>): Store
    decreases |cbs|
  {
    if cbs == [] then s else DeliverAll(Deliver(s, cbs[0]), cbs[1..])
  }

  // ---------------------------------------------------------------- user actions

  /** `QRCodePairingParser.parse`: JSON text, then the QR payload's decoder. */
  function ParseQRCode(raw: string, parse: string -> Option<Json.Value>): Option<PairingQRCode> {
    match parse(raw)
    case None => None
    case Some(j) => ParsePairingQRCode(j)
  }

  /**
    `pair(with:)`. `errorText` is the localized description of the decoding
    error, which Foundation supplies.
   */
  function Pair(s: Store, raw: string, parse: string -> Option<Json.Value>, errorText: string): Store {
    var s0 := s.(connectionState := Pairing);
    match ParseQRCode(raw, parse)
    case None => s0.(statusText := errorText, connectionState := Disconnected)
    case Some(qr) => s0.(calls := s0.calls + [ConnectUsing(qr)], statusText := "Pairing in progress…")
  }

  /**
    Pairing either hands the parsed payload to the client and stays in the
    pairing state, or shows the error and ends disconnected without calling
    the client.
   */
  lemma PairOutcomes(s: Store, raw: string, parse: string -> Option<Json.Value>, errorText: string)
    ensures var r := Pair(s, raw, parse, errorText);
      && r.sessions == s.sessions
      && match ParseQRCode(raw, parse)
         case None => r.connectionState == Disconnected && r.statusText == errorText && r.calls == s.calls
         case Some(qr) => r.connectionState == Pairing && r.calls == s.calls + [ConnectUsing(qr)]
  {
  }

  function Reconnect(s: Store): Store {
    s.(connectionState := Connecting, statusText := "Reconnecting…", calls := s.calls + [ReconnectIfPossible])
  }

  /** `reconnectIfNeeded`: nothing when already authenticated. */
  function ReconnectIfNeededStep(s: Store): (r: Store)
    ensures s.connectionState == ConnectionState.Authenticated <==> r == s
    ensures r != s ==> r.connectionState == Connecting && r.calls == s.calls + [ReconnectIfNeeded]
  {
    if s.connectionState == ConnectionState.Authenticated then s
    else s.(connectionState := Connecting, calls := s.calls + [ReconnectIfNeeded])
  }

  function PrepareToOpenSession(s: Store, sessionID: string): Store {
    s.(selectedSessionID := Some(sessionID), pendingOpenSessionID := Some(sessionID))
  }

  /** `openSessionIfNeeded`: open the pending session once; otherwise only resize. */
  function OpenSessionIfNeeded(s: Store, sessionID: string, cols: int, rows: int): Store {
    if s.pendingOpenSessionID == Some(sessionID) then
      s.(calls := s.calls + [OpenSession(sessionID, cols, rows)], pendingOpenSessionID := None)
    else s.(calls := s.calls + [SendResize(cols, rows, sessionID)])
  }

  /**
    After `prepareToOpenSession(id)` the first `openSessionIfNeeded(id, …)`
    opens the session and the next one only resizes it; both keep it selected.
   */
  lemma OpenOnceThenResize(s: Store, id: string, cols: int, rows: int, cols': int, rows': int)
    ensures var s1 := OpenSessionIfNeeded(PrepareToOpenSession(s, id), id, cols, rows);
            var s2 := OpenSessionIfNeeded(s1, id, cols', rows');
      && s1.calls == s.calls + [OpenSession(id, cols, rows)]
      && s2.calls == s1.calls + [SendResize(cols', rows', id)]
      && s1.pendingOpenSessionID.None? && s2.pendingOpenSessionID.None?
      && s2.selectedSessionID == Some(id)
  {
  }

  /** A session other than the pending one is only ever resized, and the pending one stays pending. */
  lemma OtherSessionOnlyResized(s: Store, id: string, cols: int, rows: int)
    requires s.pendingOpenSessionID != Some(id)
    ensures var r := OpenSessionIfNeeded(s, id, cols, rows);
      r.calls == s.calls + [SendResize(cols, rows, id)] && r.pendingOpenSessionID == s.pendingOpenSessionID
  {
  }

  /**
    `refreshSessions`, `sendInput`, `sendResize` and `requestProjectPaths`:
    each hands exactly one request to the relay client and changes nothing
    the store shows.
   */
  function Forward(s: Store, call: ClientCall): (r: Store)
    ensures r.calls == s.calls + [call]
    ensures r.(calls := s.calls) == s
  {
    s.(calls := s.calls + [call])
  }

  /** `createSession`. */
  function CreateSessionStep(s: Store, request: CreateSession): Store {
    s.(isCreatingSession := true, calls := s.calls + [CreateSessionCall(request)])
  }

  /**
    `createSession` marks a creation in progress and asks the client once;
    the session-created answer ends it and makes the new session the selected
    one, to be opened next.
   */
  lemma CreationEndsWithNewSessionPending(s: Store, request: CreateSession, created: SessionSummary)
    ensures var s1 := CreateSessionStep(s, request);
            var s2 := OnSessionCreated(s1, created);
      && s1.isCreatingSession
      && s1.calls == s.calls + [CreateSessionCall(request)]
      && !s2.isCreatingSession
      && s2.selectedSessionID == Some(created.id)
      && s2.pendingOpenSessionID == Some(created.id)
      && s2.calls == s1.calls
  {
  }
}
