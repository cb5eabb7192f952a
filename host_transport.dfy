/**
  `RemoteRelayTransport` as an object whose fields the operations update in
  place, each method proved to follow the step function of `TransportModel`
  of the same name.
 */
module RelayTransport {

  import opened Wrappers
  import opened TransportModel

  class Transport {
    var connectionState: ConnectionState
    var webSocketTask: Option<TaskID>
    ghost var published: seq<ConnectionState>
    ghost var cancelled: seq<TaskID>
    ghost var sent: seq<(TaskID, string)>
    ghost var delivered: seq<string>
    ghost var receives: seq<TaskID>

    ghost function Model(): Wire
      reads this
    {
      Wire(connectionState, webSocketTask, published, cancelled, sent, delivered, receives)
    }

    constructor ()
      ensures Model() == Initial
    {
      connectionState := Disconnected;
      webSocketTask := None;
      published := [];
      cancelled := [];
      sent := [];
      delivered := [];
      receives := [];
    }

    method SetState(s: ConnectionState)
      modifies this
      ensures Model() == Publish(old(Model()), s)
    {
      connectionState := s;
      published := published + [s];
    }

    method Connect(relayURL: string, urlParses: bool, newTask: TaskID)
      modifies this
      ensures Model() == TransportModel.Connect(old(Model()), relayURL, urlParses, newTask)
    {
      if relayURL == [] || !urlParses {
        SetState(Disconnected);
        return;
      }
      Disconnect();
      SetState(Connecting);
      webSocketTask := Some(newTask);
      SetState(Connected);
      receives := receives + [newTask];
    }

    method Disconnect()
      modifies this
      ensures Model() == TransportModel.Disconnect(old(Model()))
    {
      cancelled := cancelled + Listed(webSocketTask);
      webSocketTask := None;
      SetState(Disconnected);
    }

    method Send(encoded: Option<string>)
      modifies this
      ensures Model() == TransportModel.Send(old(Model()), encoded)
    {
      if webSocketTask.None? {
        return;
      }
      if encoded.None? {
        SetState(Disconnected);
      } else {
        SendRaw(encoded.value);
      }
    }

    method SendRaw(text: string)
      modifies this
      ensures Model() == TransportModel.SendRaw(old(Model()), text)
    {
      if webSocketTask.Some? {
        sent := sent + [(webSocketTask.value, text)];
      }
    }

    method SendFailed()
      modifies this
      ensures Model() == TransportModel.SendFailed(old(Model()))
    {
      SetState(Disconnected);
    }

    method Received(m: Message)
      modifies this
      ensures Model() == TransportModel.Received(old(Model()), m)
    {
      match m {
        case TextMessage(t) =>
          delivered := delivered + [t];
        case DataMessage(u) =>
          if u.Some? {
            delivered := delivered + [u.value];
          }
      }
      receives := receives + Listed(webSocketTask);
    }

    /** The receive failure handler as written: whichever task failed, the transport disconnects. */
    method ReceiveFailedAsWritten(from: TaskID)
      modifies this
      ensures Model() == TransportModel.ReceiveFailedAsWritten(old(Model()), from)
    {
      SetState(Disconnected);
      webSocketTask := None;
    }

    /** The corrected handler: only a failure of the current task disconnects. */
    method ReceiveFailed(from: TaskID)
      modifies this
      ensures Model() == TransportModel.ReceiveFailed(old(Model()), from)
    {
      if webSocketTask == Some(from) {
        SetState(Disconnected);
        webSocketTask := None;
      }
    }
  }
}
