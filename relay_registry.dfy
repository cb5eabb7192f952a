/**
  `RelayRegistry`: the relay's eight dictionaries, updated in place. Each
  method is proved to take the registry from `old(Model())` to the value the
  matching step function of `RegistryModel` gives, and to return that
  function's result; the properties are proved once, about the step functions.
  The lock is left out: each method is one atomic step.
 */
module RelayRegistry {

  import opened Wrappers
  import opened Payloads
  import opened RegistryModel

  class Registry {
    var hostSockets: map<string, Socket>
    var clientSockets: map<string, Socket>
    var hostRegistrations: map<string, HostRegistration>
    var pendingChallenges: map<string, PendingChallenge>
    var pendingClientChallenges: map<string, PendingClientChallenge>
    var pairingChallenges: map<string, PairingChallenge>
    var pendingPairingRequests: map<string, PendingPairingRequest>
    var trustedClients: map<string, map<string, string>>

    /** The registry's current contents as a value. */
    function Model(): Ledger
      reads this
    {
      Ledger(hostSockets, clientSockets, hostRegistrations, pendingChallenges,
             pendingClientChallenges, pairingChallenges, pendingPairingRequests, trustedClients)
    }

    constructor ()
      ensures Model() == EmptyLedger
    {
      hostSockets := map[];
      clientSockets := map[];
      hostRegistrations := map[];
      pendingChallenges := map[];
      pendingClientChallenges := map[];
      pairingChallenges := map[];
      pendingPairingRequests := map[];
      trustedClients := map[];
    }

    method SetHostSocket(socket: Socket, hostID: string)
      modifies this
      ensures Model() == RegistryModel.SetHostSocket(old(Model()), hostID, socket)
    {
      hostSockets := hostSockets[hostID := socket];
    }

    method RemoveHostSocket(hostID: string)
      modifies this
      ensures Model() == RegistryModel.RemoveHostSocket(old(Model()), hostID)
    {
      hostSockets := hostSockets - {hostID};
    }

    method HostSocket(hostID: string) returns (r: Option<Socket>)
      ensures r == RegistryModel.HostSocket(Model(), hostID)
    {
      if hostID in hostSockets {
        r := Some(hostSockets[hostID]);
      } else {
        r := None;
      }
    }

    method SetClientSocket(socket: Socket, clientID: string)
      modifies this
      ensures Model() == RegistryModel.SetClientSocket(old(Model()), clientID, socket)
    {
      clientSockets := clientSockets[clientID := socket];
    }

    method RemoveClientSocket(clientID: string)
      modifies this
      ensures Model() == RegistryModel.RemoveClientSocket(old(Model()), clientID)
    {
      clientSockets := clientSockets - {clientID};
    }

    method ClientSocket(clientID: string) returns (r: Option<Socket>)
      ensures r == RegistryModel.ClientSocket(Model(), clientID)
    {
      if clientID in clientSockets {
        r := Some(clientSockets[clientID]);
      } else {
        r := None;
      }
    }

    method RegisterHost(payload: HostRegister, hostID: string)
      modifies this
      ensures Model() == RegistryModel.RegisterHost(old(Model()), payload, hostID)
    {
      var registration := HostRegistration(payload.displayName, payload.publicKey, payload.appVersion, payload.platform);
      hostRegistrations := hostRegistrations[hostID := registration];
    }

    method HostRegistrationFor(hostID: string) returns (r: Option<HostRegistration>)
      ensures r == Registration(Model(), hostID)
    {
      if hostID in hostRegistrations {
        r := Some(hostRegistrations[hostID]);
      } else {
        r := None;
      }
    }

    /** `nonce` is the fresh value `makeNonce()` draws. */
    method CreateChallenge(hostID: string, nonce: string, now: int, ttl: int := DefaultTtl)
      returns (challenge: PendingChallenge)
      modifies this
      ensures (Model(), challenge) == RegistryModel.CreateChallenge(old(Model()), hostID, nonce, now, ttl)
    {
      challenge := PendingChallenge(nonce, ExpiryAfter(now, ttl));
      pendingChallenges := pendingChallenges[hostID := challenge];
    }

    method CreateClientChallenge(clientID: string, hostID: string, nonce: string, now: int, ttl: int := DefaultTtl)
      returns (challenge: Option<PendingClientChallenge>)
      modifies this
      ensures (Model(), challenge) == RegistryModel.CreateClientChallenge(old(Model()), clientID, hostID, nonce, now, ttl)
    {
      var isTrusted := hostID in trustedClients && clientID in trustedClients[hostID];
      if !isTrusted {
        return None;
      }
      var c := PendingClientChallenge(hostID, nonce, ExpiryAfter(now, ttl));
      pendingClientChallenges := pendingClientChallenges[clientID := c];
      challenge := Some(c);
    }

    method VerifyHostSignature(hostID: string, nonce: string, signature: string, now: int, valid: Verifier)
      returns (ok: bool)
      modifies this
      ensures (Model(), ok) == RegistryModel.VerifyHostSignature(old(Model()), hostID, nonce, signature, now, valid)
    {
      if hostID !in hostRegistrations || hostID !in pendingChallenges {
        return false;
      }
      var registration := hostRegistrations[hostID];
      var challenge := pendingChallenges[hostID];
      if challenge.nonce != nonce || challenge.expiresAt <= now || !valid(registration.publicKey, nonce, signature) {
        return false;
      }
      pendingChallenges := pendingChallenges - {hostID};
      ok := true;
    }

    method VerifyClientSignature(clientID: string, nonce: string, signature: string, now: int, valid: Verifier)
      returns (ok: bool)
      modifies this
      ensures (Model(), ok) == RegistryModel.VerifyClientSignature(old(Model()), clientID, nonce, signature, now, valid)
    {
      if clientID !in pendingClientChallenges {
        return false;
      }
      var challenge := pendingClientChallenges[clientID];
      if challenge.hostID !in trustedClients || clientID !in trustedClients[challenge.hostID] {
        return false;
      }
      var publicKey := trustedClients[challenge.hostID][clientID];
      if challenge.nonce != nonce || challenge.expiresAt <= now || !valid(publicKey, nonce, signature) {
        return false;
      }
      pendingClientChallenges := pendingClientChallenges - {clientID};
      ok := true;
    }

    /** `challengeID` and `nonce` are the fresh `UUID().uuidString` and `makeNonce()`. */
    method CreatePairingChallenge(hostID: string, challengeID: string, nonce: string, now: int, ttl: int := DefaultTtl)
      returns (challenge: PairingChallenge)
      modifies this
      ensures (Model(), challenge) == RegistryModel.CreatePairingChallenge(old(Model()), hostID, challengeID, nonce, now, ttl)
    {
      challenge := PairingChallenge(challengeID, hostID, nonce, ExpiryAfter(now, ttl));
      pairingChallenges := pairingChallenges[challengeID := challenge];
    }

    method BeginPairingRequest(payload: PairingRequest, clientID: string, now: int)
      returns (request: Option<PendingPairingRequest>)
      modifies this
      ensures (Model(), request) == RegistryModel.BeginPairingRequest(old(Model()), payload, clientID, now)
    {
      if payload.challengeID !in pairingChallenges {
        return None;
      }
      var challenge := pairingChallenges[payload.challengeID];
      if challenge.hostID != payload.hostID || challenge.nonce != payload.nonce || challenge.expiresAt <= now {
        return None;
      }
      var req := PendingPairingRequest(payload.hostID, clientID, payload.deviceName, payload.publicKey, payload.challengeID);
      pendingPairingRequests := pendingPairingRequests[payload.challengeID := req];
      request := Some(req);
    }

    method ApprovePairing(hostID: string, clientID: string, challengeID: string)
      returns (request: Option<PendingPairingRequest>)
      modifies this
      ensures (Model(), request) == RegistryModel.ApprovePairing(old(Model()), hostID, clientID, challengeID)
    {
      if challengeID !in pendingPairingRequests {
        return None;
      }
      var req := pendingPairingRequests[challengeID];
      if req.hostID != hostID || req.clientID != clientID {
        return None;
      }
      pendingPairingRequests := pendingPairingRequests - {challengeID};
      pairingChallenges := pairingChallenges - {challengeID};
      var clients := if hostID in trustedClients then trustedClients[hostID] else map[];
      clients := clients[clientID := req.publicKey];
      trustedClients := trustedClients[hostID := clients];
      request := Some(req);
    }
  }
}
