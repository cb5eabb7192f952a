/**
  The relay's in-memory registry as a value: eight directories and the
  operations on them, each returning the new registry and its result. The
  imperative `RelayRegistry.Registry` class is proved to follow these step
  functions.

  Sockets are opaque connection numbers. Time is an integer count of
  milliseconds (`now`), a time to live is in seconds. Signature verification
  (base64 decoding, P-256 key parsing and ECDSA checking together) is the
  predicate `valid(publicKey, message, signature)`; fresh nonces and
  challenge ids are parameters.
 */
module RegistryModel {

  import opened Wrappers
  import opened Payloads

  type Socket = nat

  type Verifier = (string, string, string) -> bool

  datatype HostRegistration = HostRegistration(displayName: string, publicKey: string,
                                               appVersion: string, platform: string)

  datatype PendingChallenge = PendingChallenge(nonce: string, expiresAt: int)

  datatype PendingClientChallenge = PendingClientChallenge(hostID: string, nonce: string, expiresAt: int)

  datatype PairingChallenge = PairingChallenge(challengeID: string, hostID: string, nonce: string, expiresAt: int)

  datatype PendingPairingRequest = PendingPairingRequest(hostID: string, clientID: string, deviceName: string,
                                                         publicKey: string, challengeID: string)

  /** The eight maps, keyed as in the relay. `trusted` is hostID -> clientID -> public key. */
  datatype Ledger = Ledger(
    hostSockets: map<string, Socket>,
    clientSockets: map<string, Socket>,
    registrations: map<string, HostRegistration>,
    hostChallenges: map<string, PendingChallenge>,
    clientChallenges: map<string, PendingClientChallenge>,
    pairingChallenges: map<string, PairingChallenge>,
    pairingRequests: map<string, PendingPairingRequest>,
    trusted: map<string, map<string, string>>)

  const EmptyLedger := Ledger(map[], map[], map[], map[], map[], map[], map[], map[])

  /** The default time to live of every challenge, in seconds. */
  const DefaultTtl := 60

  /** `Date().addingTimeInterval(ttl)`. */
  function ExpiryAfter(now: int, ttlSeconds: int): int {
    now + ttlSeconds * 1000
  }

  // ---------------------------------------------------------------- socket directories

  function SetHostSocket(l: Ledger, hostID: string, s: Socket): (r: Ledger)
    ensures r.hostSockets == l.hostSockets[hostID := s]
    ensures r == l.(hostSockets := r.hostSockets)
  {
    l.(hostSockets := l.hostSockets[hostID := s])
  }

  function RemoveHostSocket(l: Ledger, hostID: string): (r: Ledger)
    ensures hostID !in r.hostSockets
    ensures forall id :: id != hostID ==> (id in r.hostSockets <==> id in l.hostSockets)
    ensures forall id :: id != hostID && id in r.hostSockets ==> r.hostSockets[id] == l.hostSockets[id]
    ensures r == l.(hostSockets := r.hostSockets)
  {
    l.(hostSockets := l.hostSockets - {hostID})
  }

  function HostSocket(l: Ledger, hostID: string): (r: Option<Socket>)
    ensures r.Some? <==> hostID in l.hostSockets
    ensures r.Some? ==> r.value == l.hostSockets[hostID]
  {
    if hostID in l.hostSockets then Some(l.hostSockets[hostID]) else None
  }

  function SetClientSocket(l: Ledger, clientID: string, s: Socket): (r: Ledger)
    ensures r.clientSockets == l.clientSockets[clientID := s]
    ensures r == l.(clientSockets := r.clientSockets)
  {
    l.(clientSockets := l.clientSockets[clientID := s])
  }

  function RemoveClientSocket(l: Ledger, clientID: string): (r: Ledger)
    ensures clientID !in r.clientSockets
    ensures forall id :: id != clientID ==> (id in r.clientSockets <==> id in l.clientSockets)
    ensures forall id :: id != clientID && id in r.clientSockets ==> r.clientSockets[id] == l.clientSockets[id]
    ensures r == l.(clientSockets := r.clientSockets)
  {
    l.(clientSockets := l.clientSockets - {clientID})
  }

  function ClientSocket(l: Ledger, clientID: string): (r: Option<Socket>)
    ensures r.Some? <==> clientID in l.clientSockets
    ensures r.Some? ==> r.value == l.clientSockets[clientID]
  {
    if clientID in l.clientSockets then Some(l.clientSockets[clientID]) else None
  }

  /**
    The directory laws: a lookup after `set` sees the new socket (replacing any
    older one), `remove` is idempotent, and the host and client directories
    never affect each other.
   */
  lemma SocketDirectoryLaws(l: Ledger, id: string, s: Socket)
    ensures HostSocket(SetHostSocket(l, id, s), id) == Some(s)
    ensures ClientSocket(SetClientSocket(l, id, s), id) == Some(s)
    ensures HostSocket(RemoveHostSocket(l, id), id).None?
    ensures RemoveHostSocket(RemoveHostSocket(l, id), id) == RemoveHostSocket(l, id)
    ensures RemoveClientSocket(RemoveClientSocket(l, id), id) == RemoveClientSocket(l, id)
    ensures ClientSocket(SetHostSocket(l, id, s), id) == ClientSocket(l, id)
    ensures HostSocket(SetClientSocket(l, id, s), id) == HostSocket(l, id)
    ensures ClientSocket(RemoveHostSocket(l, id), id) == ClientSocket(l, id)
    ensures HostSocket(RemoveClientSocket(l, id), id) == HostSocket(l, id)
  {
    var once := RemoveHostSocket(l, id);
    assert RemoveHostSocket(once, id).hostSockets == once.hostSockets;
    var c := RemoveClientSocket(l, id);
    assert RemoveClientSocket(c, id).clientSockets == c.clientSockets;
  }

  // ---------------------------------------------------------------- registrations

  /** An unconditional upsert of all four fields; nothing is validated. */
  function RegisterHost(l: Ledger, p: HostRegister, hostID: string): (r: Ledger)
    ensures r.registrations == l.registrations[hostID := HostRegistration(p.displayName, p.publicKey, p.appVersion, p.platform)]
    ensures r == l.(registrations := r.registrations)
  {
    l.(registrations := l.registrations[hostID := HostRegistration(p.displayName, p.publicKey, p.appVersion, p.platform)])
  }

  function Registration(l: Ledger, hostID: string): (r: Option<HostRegistration>)
    ensures r.Some? <==> hostID in l.registrations
    ensures r.Some? ==> r.value == l.registrations[hostID]
  {
    if hostID in l.registrations then Some(l.registrations[hostID]) else None
  }

  // ---------------------------------------------------------------- host challenges

  /**
    `createChallenge`: always succeeds, needs no registration, replaces any
    pending challenge of that host and touches no other map.
   */
  function CreateChallenge(l: Ledger, hostID: string, nonce: string, now: int,
                           ttl: int := DefaultTtl): (r: (Ledger, PendingChallenge))
    ensures r.1 == PendingChallenge(nonce, ExpiryAfter(now, ttl))
    ensures r.0.hostChallenges == l.hostChallenges[hostID := r.1]
    ensures r.0 == l.(hostChallenges := r.0.hostChallenges)
  {
    var c := PendingChallenge(nonce, ExpiryAfter(now, ttl));
    (l.(hostChallenges := l.hostChallenges[hostID := c]), c)
  }

  /** What `verifyHostSignature` checks, all of it. */
  predicate HostProofAccepted(l: Ledger, hostID: string, nonce: string, signature: string,
                              now: int, valid: Verifier) {
    hostID in l.registrations && hostID in l.hostChallenges &&
    l.hostChallenges[hostID].nonce == nonce &&
    l.hostChallenges[hostID].expiresAt > now &&
    valid(l.registrations[hostID].publicKey, nonce, signature)
  }

  /**
    `verifyHostSignature`: true exactly when the check passes; success
    consumes the challenge and failure changes nothing.
   */
  function VerifyHostSignature(l: Ledger, hostID: string, nonce: string, signature: string,
                               now: int, valid: Verifier): (r: (Ledger, bool))
    ensures r.1 <==> HostProofAccepted(l, hostID, nonce, signature, now, valid)
    ensures r.1 ==> r.0 == l.(hostChallenges := l.hostChallenges - {hostID})
    ensures !r.1 ==> r.0 == l
  {
    if HostProofAccepted(l, hostID, nonce, signature, now, valid) then
      (l.(hostChallenges := l.hostChallenges - {hostID}), true)
    else
      (l, false)
  }

  /** A host challenge is single-use: the identical retry after a success fails. */
  lemma HostChallengeSingleUse(l: Ledger, hostID: string, nonce: string, sig: string,
                               now: int, later: int, valid: Verifier)
    requires VerifyHostSignature(l, hostID, nonce, sig, now, valid).1
    ensures !VerifyHostSignature(VerifyHostSignature(l, hostID, nonce, sig, now, valid).0,
                                 hostID, nonce, sig, later, valid).1
  {
  }

  /**
    A challenge answered at or after its expiry is refused, however valid the
    signature: it lives for `ttl` seconds counted from its creation.
   */
  lemma ExpiredHostChallengeRejected(l: Ledger, hostID: string, nonce: string, sig: string,
                                     now: int, ttl: int, later: int, valid: Verifier)
    requires later >= ExpiryAfter(now, ttl)
    ensures !VerifyHostSignature(CreateChallenge(l, hostID, nonce, now, ttl).0,
                                 hostID, nonce, sig, later, valid).1
  {
  }

  /**
    A registered host answering a fresh challenge with a valid signature is
    accepted before the expiry.
   */
  lemma FreshHostChallengeAccepted(l: Ledger, hostID: string, nonce: string, sig: string,
                                   now: int, later: int, valid: Verifier)
    requires hostID in l.registrations
    requires later < ExpiryAfter(now, DefaultTtl)
    requires valid(l.registrations[hostID].publicKey, nonce, sig)
    ensures VerifyHostSignature(CreateChallenge(l, hostID, nonce, now).0, hostID, nonce, sig, later, valid).1
  {
  }

  // ---------------------------------------------------------------- client challenges

  predicate IsTrusted(l: Ledger, hostID: string, clientID: string) {
    hostID in l.trusted && clientID in l.trusted[hostID]
  }

  /**
    `createClientChallenge`: nothing, and no change, unless the client is in
    the host's trust ledger; otherwise a challenge bound to that host is stored
    under the client id, replacing any earlier one.
   */
  function CreateClientChallenge(l: Ledger, clientID: string, hostID: string, nonce: string, now: int,
                                 ttl: int := DefaultTtl): (r: (Ledger, Option<PendingClientChallenge>))
    ensures r.1.Some? <==> IsTrusted(l, hostID, clientID)
    ensures r.1.None? ==> r.0 == l
    ensures r.1.Some? ==> r.1.value == PendingClientChallenge(hostID, nonce, ExpiryAfter(now, ttl))
    ensures r.1.Some? ==> r.0 == l.(clientChallenges := l.clientChallenges[clientID := r.1.value])
  {
    if IsTrusted(l, hostID, clientID) then
      var c := PendingClientChallenge(hostID, nonce, ExpiryAfter(now, ttl));
      (l.(clientChallenges := l.clientChallenges[clientID := c]), Some(c))
    else
      (l, None)
  }

  /** The key the client must sign with: the one trusted by the host the challenge names. */
  function ClientKey(l: Ledger, clientID: string): (r: Option<string>)
    ensures r.Some? ==> clientID in l.clientChallenges && IsTrusted(l, l.clientChallenges[clientID].hostID, clientID)
    ensures r.Some? ==> r.value == l.trusted[l.clientChallenges[clientID].hostID][clientID]
  {
    if clientID in l.clientChallenges && IsTrusted(l, l.clientChallenges[clientID].hostID, clientID) then
      Some(l.trusted[l.clientChallenges[clientID].hostID][clientID])
    else
      None
  }

  predicate ClientProofAccepted(l: Ledger, clientID: string, nonce: string, signature: string,
                                now: int, valid: Verifier) {
    clientID in l.clientChallenges &&
    ClientKey(l, clientID).Some? &&
    l.clientChallenges[clientID].nonce == nonce &&
    l.clientChallenges[clientID].expiresAt > now &&
    valid(ClientKey(l, clientID).value, nonce, signature)
  }

  /** `verifyClientSignature`: the same shape as the host's. */
  function VerifyClientSignature(l: Ledger, clientID: string, nonce: string, signature: string,
                                 now: int, valid: Verifier): (r: (Ledger, bool))
    ensures r.1 <==> ClientProofAccepted(l, clientID, nonce, signature, now, valid)
    ensures r.1 ==> r.0 == l.(clientChallenges := l.clientChallenges - {clientID})
    ensures !r.1 ==> r.0 == l
  {
    if ClientProofAccepted(l, clientID, nonce, signature, now, valid) then
      (l.(clientChallenges := l.clientChallenges - {clientID}), true)
    else
      (l, false)
  }

  lemma ClientChallengeSingleUse(l: Ledger, clientID: string, nonce: string, sig: string,
                                 now: int, later: int, valid: Verifier)
    requires VerifyClientSignature(l, clientID, nonce, sig, now, valid).1
    ensures !VerifyClientSignature(VerifyClientSignature(l, clientID, nonce, sig, now, valid).0,
                                   clientID, nonce, sig, later, valid).1
  {
  }

  // ---------------------------------------------------------------- pairing

  /** `createPairingChallenge`: stored under its fresh challenge id. */
  function CreatePairingChallenge(l: Ledger, hostID: string, challengeID: string, nonce: string, now: int,
                                  ttl: int := DefaultTtl): (r: (Ledger, PairingChallenge))
    ensures r.1 == PairingChallenge(challengeID, hostID, nonce, ExpiryAfter(now, ttl))
    ensures r.0 == l.(pairingChallenges := l.pairingChallenges[challengeID := r.1])
  {
    var c := PairingChallenge(challengeID, hostID, nonce, ExpiryAfter(now, ttl));
    (l.(pairingChallenges := l.pairingChallenges[challengeID := c]), c)
  }

  predicate PairingRequestAccepted(l: Ledger, p: PairingRequest, now: int) {
    p.challengeID in l.pairingChallenges &&
    l.pairingChallenges[p.challengeID].hostID == p.hostID &&
    l.pairingChallenges[p.challengeID].nonce == p.nonce &&
    l.pairingChallenges[p.challengeID].expiresAt > now
  }

  /**
    `beginPairingRequest`: nothing unless the pairing challenge exists for that
    host and nonce and is unexpired; on success the request is stored under the
    challenge id, overwriting an earlier one, and the challenge is kept.
   */
  function BeginPairingRequest(l: Ledger, p: PairingRequest, clientID: string, now: int)
    : (r: (Ledger, Option<PendingPairingRequest>))
    ensures r.1.Some? <==> PairingRequestAccepted(l, p, now)
    ensures r.1.None? ==> r.0 == l
    ensures r.1.Some? ==> r.1.value == PendingPairingRequest(p.hostID, clientID, p.deviceName, p.publicKey, p.challengeID)
    ensures r.1.Some? ==> r.0 == l.(pairingRequests := l.pairingRequests[p.challengeID := r.1.value])
  {
    if PairingRequestAccepted(l, p, now) then
      var req := PendingPairingRequest(p.hostID, clientID, p.deviceName, p.publicKey, p.challengeID);
      (l.(pairingRequests := l.pairingRequests[p.challengeID := req]), Some(req))
    else
      (l, None)
  }

  /** `trustedClients[hostID][clientID] = key`, creating the host's table if needed. */
  function Trust(trusted: map<string, map<string, string>>, hostID: string, clientID: string, key: string)
    : (r: map<string, map<string, string>>)
    ensures r.Keys == trusted.Keys + {hostID}
    ensures r[hostID].Keys == (if hostID in trusted then trusted[hostID].Keys else {}) + {clientID}
    ensures r[hostID][clientID] == key
    ensures forall c :: c in r[hostID] && c != clientID ==> r[hostID][c] == trusted[hostID][c]
    ensures forall h :: h in trusted && h != hostID ==> r[h] == trusted[h]
  {
    var clients := if hostID in trusted then trusted[hostID] else map[];
    trusted[hostID := clients[clientID := key]]
  }

  predicate ApprovalAccepted(l: Ledger, hostID: string, clientID: string, challengeID: string) {
    challengeID in l.pairingRequests &&
    l.pairingRequests[challengeID].hostID == hostID &&
    l.pairingRequests[challengeID].clientID == clientID
  }

  /**
    `approvePairing`: nothing unless the stored request names this host and
    client; then the request and its challenge are removed and the request's
    key becomes trusted. Expiry is not checked again.
   */
  function ApprovePairing(l: Ledger, hostID: string, clientID: string, challengeID: string)
    : (r: (Ledger, Option<PendingPairingRequest>))
    ensures r.1.Some? <==> ApprovalAccepted(l, hostID, clientID, challengeID)
    ensures r.1.None? ==> r.0 == l
    ensures r.1.Some? ==> r.1.value == l.pairingRequests[challengeID]
    ensures r.1.Some? ==> r.0 == l.(pairingRequests := l.pairingRequests - {challengeID},
                                    pairingChallenges := l.pairingChallenges - {challengeID},
                                    trusted := Trust(l.trusted, hostID, clientID, r.1.value.publicKey))
  {
    if ApprovalAccepted(l, hostID, clientID, challengeID) then
      var req := l.pairingRequests[challengeID];
      (l.(pairingRequests := l.pairingRequests - {challengeID},
          pairingChallenges := l.pairingChallenges - {challengeID},
          trusted := Trust(l.trusted, hostID, clientID, req.publicKey)), Some(req))
    else
      (l, None)
  }

  /** A second approval of the same request finds nothing. */
  lemma ApprovalIsOneShot(l: Ledger, hostID: string, clientID: string, challengeID: string)
    requires ApprovePairing(l, hostID, clientID, challengeID).1.Some?
    ensures ApprovePairing(ApprovePairing(l, hostID, clientID, challengeID).0, hostID, clientID, challengeID).1.None?
  {
  }

  /**
    Approval adds exactly one trust entry: the approved client under the
    approving host, with the key it sent; every other entry stays as it was.
   */
  lemma ApprovalTrustsExactlyOneKey(l: Ledger, hostID: string, clientID: string, challengeID: string)
    requires ApprovePairing(l, hostID, clientID, challengeID).1.Some?
    ensures var l' := ApprovePairing(l, hostID, clientID, challengeID).0;
            IsTrusted(l', hostID, clientID) &&
            l'.trusted[hostID][clientID] == l.pairingRequests[challengeID].publicKey &&
            (forall h, c :: (h != hostID || c != clientID) ==>
                 (IsTrusted(l', h, c) <==> IsTrusted(l, h, c)) &&
                 (IsTrusted(l, h, c) ==> l'.trusted[h][c] == l.trusted[h][c]))
  {
    var l' := ApprovePairing(l, hostID, clientID, challengeID).0;
    forall h, c | h != hostID || c != clientID
      ensures IsTrusted(l', h, c) <==> IsTrusted(l, h, c)
      ensures IsTrusted(l, h, c) ==> l'.trusted[h][c] == l.trusted[h][c]
    {
      if h == hostID {
        assert c != clientID;
      }
    }
  }

  /** Begin a pairing does not consume its challenge: a repeated request is accepted again. */
  lemma PairingRequestRepeatable(l: Ledger, p: PairingRequest, clientID: string, other: string, now: int)
    requires BeginPairingRequest(l, p, clientID, now).1.Some?
    ensures var l' := BeginPairingRequest(l, p, clientID, now).0;
            BeginPairingRequest(l', p, other, now).1.Some? &&
            BeginPairingRequest(l', p, other, now).0.pairingRequests[p.challengeID].clientID == other
  {
  }

  // ---------------------------------------------------------------- invariant

  /**
    Every pending client challenge belongs to a client that the challenge's
    host trusts. Trust is never withdrawn, so every operation keeps this.
   */
  predicate ClientChallengesTrusted(l: Ledger) {
    forall c :: c in l.clientChallenges ==> IsTrusted(l, l.clientChallenges[c].hostID, c)
  }

  /** Approval only adds trust, so it keeps the invariant. */
  lemma {:induction false} ApprovalKeepsClientChallengesTrusted(l: Ledger, hostID: string, clientID: string, challengeID: string)
    requires ClientChallengesTrusted(l)
    ensures ClientChallengesTrusted(ApprovePairing(l, hostID, clientID, challengeID).0)
  {
    var r := ApprovePairing(l, hostID, clientID, challengeID);
    if r.1.Some? {
      var l' := r.0;
      forall c | c in l'.clientChallenges
        ensures IsTrusted(l', l'.clientChallenges[c].hostID, c)
      {
        var h := l.clientChallenges[c].hostID;
        assert IsTrusted(l, h, c);
        if h == hostID {
          assert c in l'.trusted[hostID];
        } else {
          assert l'.trusted[h] == l.trusted[h];
        }
      }
    }
  }

  /** Issuing a client challenge keeps the invariant: it is only issued to trusted clients. */
  lemma ClientChallengeKeepsInvariant(l: Ledger, clientID: string, hostID: string, nonce: string, now: int, ttl: int)
    requires ClientChallengesTrusted(l)
    ensures ClientChallengesTrusted(CreateClientChallenge(l, clientID, hostID, nonce, now, ttl).0)
  {
  }

  /**
    Under the invariant, a client whose proof is accepted is trusted by the
    host its challenge was issued for, and signed with that trusted key.
   */
  lemma AcceptedClientIsTrusted(l: Ledger, clientID: string, nonce: string, sig: string, now: int, valid: Verifier)
    requires ClientChallengesTrusted(l)
    requires VerifyClientSignature(l, clientID, nonce, sig, now, valid).1
    ensures var h := l.clientChallenges[clientID].hostID;
            IsTrusted(l, h, clientID) && valid(l.trusted[h][clientID], nonce, sig)
  {
  }

  /** A client no host has approved cannot even be challenged. */
  lemma UnpairedClientNotChallenged(l: Ledger, clientID: string, hostID: string, nonce: string, now: int)
    requires !IsTrusted(l, hostID, clientID)
    ensures CreateClientChallenge(l, clientID, hostID, nonce, now) == (l, None)
  {
  }

  // ---------------------------------------------------------------- scenario

  /**
    The pairing flow end to end: a pairing challenge, the mobile's request
    echoing it, the host's approval, then a client challenge and a valid
    answer. The client ends trusted with the key it presented, and its
    reconnect challenge is accepted exactly once.
   */
  lemma {:induction false} PairingThenReconnect(l0: Ledger, hostID: string, clientID: string, challengeID: string,
                                                pairNonce: string, device: string, key: string,
                                                clientNonce: string, sig: string, t: int, valid: Verifier)
    requires valid(key, clientNonce, sig)
    ensures var (l1, pc) := CreatePairingChallenge(l0, hostID, challengeID, pairNonce, t, 120);
            var (l2, req) := BeginPairingRequest(l1, PairingRequest(hostID, challengeID, pairNonce, device, key), clientID, t + 1000);
            req.Some? &&
            var (l3, ok) := ApprovePairing(l2, hostID, clientID, challengeID);
            ok.Some? && IsTrusted(l3, hostID, clientID) && l3.trusted[hostID][clientID] == key &&
            var (l4, cc) := CreateClientChallenge(l3, clientID, hostID, clientNonce, t + 2000);
            cc.Some? &&
            var (l5, yes) := VerifyClientSignature(l4, clientID, clientNonce, sig, t + 3000, valid);
            yes && !VerifyClientSignature(l5, clientID, clientNonce, sig, t + 4000, valid).1
  {
    var (l1, pc) := CreatePairingChallenge(l0, hostID, challengeID, pairNonce, t, 120);
    var p := PairingRequest(hostID, challengeID, pairNonce, device, key);
    assert PairingRequestAccepted(l1, p, t + 1000);
    var (l2, req) := BeginPairingRequest(l1, p, clientID, t + 1000);
    assert ApprovalAccepted(l2, hostID, clientID, challengeID);
    var (l3, ok) := ApprovePairing(l2, hostID, clientID, challengeID);
    assert l3.trusted[hostID][clientID] == key;
    var (l4, cc) := CreateClientChallenge(l3, clientID, hostID, clientNonce, t + 2000);
    assert ClientKey(l4, clientID) == Some(key);
    assert ClientProofAccepted(l4, clientID, clientNonce, sig, t + 3000, valid);
  }
}
