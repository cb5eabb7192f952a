/**
  `RemoteRelayTransport`, the host's WebSocket connection, as a value: a
  published connection state and the current socket task. `Wire` is the
  transport and the functions below are its operations; the
  `RelayTransport.Transport` class holds the same fields and each of its
  methods is proved to follow the matching function. Tasks are numbers drawn when
  created; what the socket does with a frame is left to the network. The
  record of published states, cancelled tasks, frames handed to a task,
  delivered texts and receive calls stands for what observers of the
  transport see.
 */
module TransportModel {

  import opened Wrappers

  /** `RelayConnectionState`. */
  datatype ConnectionState = Disconnected | Connecting | Authenticating | Connected

  function StateRaw(s: ConnectionState): string {
    match s
    case Disconnected => "disconnected"
    case Connecting => "connecting"
    case Authenticating => "authenticating"
    case Connected => "connected"
  }

  /** `RelayConnectionState(rawValue:)`. */
  function ParseState(raw: string): (r: Option<ConnectionState>)
    ensures r.Some? ==> StateRaw(r.value) == raw
    ensures forall s :: StateRaw(s) == raw ==> r == Some(s)
  {
    if raw == "disconnected" then Some(Disconnected)
    else if raw == "connecting" then Some(Connecting)
    else if raw == "authenticating" then Some(Authenticating)
    else if raw == "connected" then Some(Connected)
    else None
  }

  type TaskID = nat

  /** An inbound WebSocket message: text, or bytes with their UTF-8 reading if they have one. */
  datatype Message = TextMessage(text: string) | DataMessage(utf8: Option<string>)

  datatype Wire = Wire(
    state: ConnectionState,
    task: Option<TaskID>,
    published: seq<ConnectionState>,   // every value assigned to `connectionState`, in order
    cancelled: seq<TaskID>,            // tasks cancelled with a normal closure
    sent: seq<(TaskID, string)>,       // frames handed to a task
    delivered: seq<string>,            // texts passed to `onTextMessage`
    receives: seq<TaskID>)             // `receive` calls issued, by task

  const Initial := Wire(Disconnected, None, [], [], [], [], [])

  function Listed(t: Option<TaskID>): (r: seq<TaskID>)
    ensures |r| <= 1 && (r == [] <==> t.None?)
  {
    if t.Some? then [t.value] else []
  }

  /** Assigning `connectionState`, which publishes the value. */
  function Publish(w: Wire, s: ConnectionState): (r: Wire)
    ensures r == w.(state := s, published := w.published + [s])
  {
    w.(state := s, published := w.published + [s])
  }

  /** `disconnect()`: the socket task, if any, is cancelled and forgotten. */
  function Disconnect(w: Wire): (r: Wire)
    ensures r.state == Disconnected && r.task.None?
    ensures r.cancelled == w.cancelled + Listed(w.task)
    ensures r.published == w.published + [Disconnected]
    ensures r.sent == w.sent && r.delivered == w.delivered && r.receives == w.receives
  {
    Publish(w.(task := None, cancelled := w.cancelled + Listed(w.task)), Disconnected)
  }

  /**
    `connect(to:)`. An empty or unparseable URL publishes disconnected and
    leaves the current task alone. Otherwise the old task is torn down, the new
    one is started and the state reaches connected at once, with no handshake;
    one receive is issued on the new task.
   */
  function Connect(w: Wire, relayURL: string, urlParses: bool, newTask: TaskID): (r: Wire)
    ensures relayURL == [] || !urlParses ==> r == Publish(w, Disconnected)
    ensures relayURL != [] && urlParses ==>
              r.state == Connected && r.task == Some(newTask) &&
              r.cancelled == w.cancelled + Listed(w.task) &&
              r.published == w.published + [Disconnected, Connecting, Connected] &&
              r.receives == w.receives + [newTask] &&
              r.sent == w.sent && r.delivered == w.delivered
  {
    if relayURL == [] || !urlParses then
      Publish(w, Disconnected)
    else
      var closed := Disconnect(w);
      var started := Publish(closed, Connecting).(task := Some(newTask));
      Publish(started, Connected).(receives := started.receives + [newTask])
  }

  /** `sendRaw`: handed to the current task, or dropped when there is none. */
  function SendRaw(w: Wire, text: string): (r: Wire)
    ensures w.task.None? ==> r == w
    ensures w.task.Some? ==> r == w.(sent := w.sent + [(w.task.value, text)])
  {
    if w.task.None? then w else w.(sent := w.sent + [(w.task.value, text)])
  }

  /**
    `send`: `encoded` is the envelope's JSON text, or `None` when encoding
    throws. Nothing happens without a task; an encoding failure publishes
    disconnected but keeps the socket task.
   */
  function Send(w: Wire, encoded: Option<string>): (r: Wire)
    ensures w.task.None? ==> r == w
    ensures w.task.Some? && encoded.None? ==> r == Publish(w, Disconnected)
    ensures w.task.Some? && encoded.Some? ==> r == SendRaw(w, encoded.value)
  {
    if w.task.None? then w
    else if encoded.None? then Publish(w, Disconnected)
    else SendRaw(w, encoded.value)
  }

  /** The completion of a send that reported an error. */
  function SendFailed(w: Wire): (r: Wire)
    ensures r == Publish(w, Disconnected)
  {
    Publish(w, Disconnected)
  }

  /**
    A receive that succeeded: text, or data that reads as UTF-8, is delivered;
    then the next receive is issued on the current task, if any.
   */
  function Received(w: Wire, m: Message): (r: Wire)
    ensures r.state == w.state && r.task == w.task && r.published == w.published && r.sent == w.sent
    ensures r.delivered == w.delivered + (match m
                                          case TextMessage(t) => [t]
                                          case DataMessage(u) => if u.Some? then [u.value] else [])
    ensures r.receives == w.receives + Listed(w.task)
  {
    var text := match m
                case TextMessage(t) => Some(t)
                case DataMessage(u) => u;
    var w' := if text.Some? then w.(delivered := w.delivered + [text.value]) else w;
    w'.(receives := w.receives + Listed(w.task))
  }

  /**
    A failed receive as written: whichever task it was issued on, the
    transport publishes disconnected and forgets its current task.
   */
  function ReceiveFailedAsWritten(w: Wire, from: TaskID): (r: Wire)
    ensures r.state == Disconnected && r.task.None?
  {
    Publish(w, Disconnected).(task := None)
  }

  /**
    Reconnecting over a live task: cancelling the old task makes its pending
    receive fail, and as written that late failure tears down the new
    connection the transport has just opened.
   */
  lemma StaleReceiveFailureDropsNewConnection(w: Wire, url: string, oldTask: TaskID, newTask: TaskID)
    requires w.task == Some(oldTask) && oldTask != newTask && url != []
    ensures var reconnected := Connect(w, url, true, newTask);
            reconnected.state == Connected && reconnected.task == Some(newTask) &&
            var after := ReceiveFailedAsWritten(reconnected, oldTask);
            after.state == Disconnected && after.task.None?
  {
  }

  /**
    A failed receive, as intended: the failure of the current task's receive
    publishes disconnected and forgets the socket task; one from a task already
    replaced changes nothing.
   */
  function ReceiveFailed(w: Wire, from: TaskID): (r: Wire)
    ensures w.task == Some(from) ==> r.state == Disconnected && r.task.None? && r.published == w.published + [Disconnected]
    ensures w.task != Some(from) ==> r == w
  {
    if w.task == Some(from) then Publish(w, Disconnected).(task := None) else w
  }

  /** With the intended failure handling, a reconnect survives the old task's failure. */
  lemma {:induction false} ReconnectSurvivesStaleFailure(w: Wire, url: string, oldTask: TaskID, newTask: TaskID)
    requires w.task == Some(oldTask) && oldTask != newTask && url != []
    ensures var reconnected := Connect(w, url, true, newTask);
            ReceiveFailed(reconnected, oldTask) == reconnected &&
            ReceiveFailed(reconnected, newTask).state == Disconnected
  {
    var reconnected := Connect(w, url, true, newTask);
    assert reconnected.task == Some(newTask);
  }

  /** Nothing reaches a task that has been cancelled: sends go only to the current task. */
  lemma SendsGoToCurrentTask(w: Wire, encoded: Option<string>)
    requires w.task.Some?
    ensures var r := Send(w, encoded);
            r.sent == w.sent || r.sent == w.sent + [(w.task.value, encoded.value)]
  {
  }

  /** After `disconnect` every send is dropped until the next `connect`. */
  lemma DisconnectedSendsNothing(w: Wire, encoded: Option<string>, text: string)
    ensures Send(Disconnect(w), encoded) == Disconnect(w)
    ensures SendRaw(Disconnect(w), text) == Disconnect(w)
  {
  }
}
