/**
  What a peer (the host agent or the mobile client) hands to its transport:
  the message type, the target peer and the typed payload. The envelope's
  message id and timestamp, which Swift fills with `UUID()` and `Date()`, are
  not recorded; the source is always the sending peer itself.
 */
module Outbox {

  import opened Envelope
  import opened Payloads
  import opened Runtime

  datatype Body =
    | HostRegisterBody(register: HostRegister)
    | HostHelloBody
    | SignedBody(signed: SignedChallenge)
    | PairingCreateBody(create: PairingCreate)
    | PairingApproveBody(approve: PairingApprove)
    | PairingRequestBody(request: PairingRequest)
    | ClientHelloBody(hello: ClientHello)
    | EmptyBody
    | SessionListBody(sessions: seq<SessionSummary>)
    | SessionBody(session: SessionSummary)
    | TerminalDataBody(data: TerminalData)
    | TerminalInputBody(input: TerminalInput)
    | SessionSizeBody(size: SessionSize)
    | ProjectPathsBody(paths: seq<RecentProjectPath>, groups: seq<GroupSummary>)

  datatype Outgoing = Outgoing(typ: string, target: Peer, body: Body)

  const RelayPeer := Peer(Relay, "relay")

  function ClientPeer(id: string): Peer {
    Peer(Client, id)
  }

  /** The messages sent to `target` among `out`. */
  function SentTo(out: seq<Outgoing>, target: Peer): (r: seq<Outgoing>)
    ensures |r| <= |out|
    ensures forall i :: 0 <= i < |r| ==> r[i].target == target
  {
    if out == [] then []
    else (if out[0].target == target then [out[0]] else []) + SentTo(out[1..], target)
  }

  lemma {:induction false} SentToAppend(a: seq<Outgoing>, b: seq<Outgoing>, target: Peer)
    ensures SentTo(a + b, target) == SentTo(a, target) + SentTo(b, target)
    decreases |a|
  {
    if a == [] {
      assert a + b == b;
    } else {
      var head := if a[0].target == target then [a[0]] else [];
      assert (a + b)[1..] == a[1..] + b;
      assert SentTo(a + b, target) == head + SentTo(a[1..] + b, target);
      SentToAppend(a[1..], b, target);
      assert SentTo(a, target) == head + SentTo(a[1..], target);
    }
  }

  /** One message reaches its own target and nobody else. */
  lemma SentToOne(m: Outgoing, target: Peer)
    ensures SentTo([m], target) == if m.target == target then [m] else []
  {
    assert [m][1..] == [];
  }
}
