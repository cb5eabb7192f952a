/**
  Properties of the three peers together: a relay frame as the host or the
  phone receives it, and what the phone then sends back to the relay.
 */
module Protocol {

  import opened Wrappers
  import opened Json
  import opened Envelope
  import opened Payloads
  import opened Outbox
  import T = MessageTypes
  import RM = RegistryModel
  import RS = RelayServer
  import AM = AgentModel
  import MM = MobileModel
  import SM = StoreModel

  /**
    The relay's client-authenticated frame as written reaches the phone and
    is dropped: the phone never asks for the session list and its store is
    never told that it is connected.
   */
  lemma AsWrittenAuthenticationIgnoredByPhone(c: MM.Mobile, text: string, env: MM.ClientEnv,
                                              messageID: string, now: int)
    requires IsCanonicalUuid(messageID)
    requires env.parse(text) == Some(RS.RelayFrame(T.ClientAuthenticated, Peer(Client, c.clientID),
                                                   RS.ClientAuthenticatedReplyAsWritten(), messageID, now))
    ensures MM.HandleIncomingText(c, text, env) == c
  {
    RS.AsWrittenClientAuthenticatedUndecodable(c.clientID, messageID, now);
    MM.UndecodableAuthenticatedDropped(c, text, env);
  }

  /**
    With the corrected reply, a paired phone with a live socket sends exactly
    one list-sessions to its host, and its store, fed the phone's reports,
    ends authenticated with the stored host's name.
   */
  lemma CorrectedAuthenticationListsSessions(c: MM.Mobile, s: SM.Store, text: string, env: MM.ClientEnv,
                                            messageID: string, now: int)
    requires IsCanonicalUuid(messageID)
    requires env.parse(text) == Some(RS.RelayFrame(T.ClientAuthenticated, Peer(Client, c.clientID),
                                                   RS.ClientAuthenticatedReply(now), messageID, now))
    requires c.hostID.Some? && c.socket.Some? && c.pairedHost.Some?
    ensures var r := MM.HandleIncomingText(c, text, env);
      && r.outbox == c.outbox + [Outgoing(T.ListSessions, Peer(Host, c.hostID.value), EmptyBody)]
      && |r.callbacks| >= |c.callbacks|
      && var s' := SM.DeliverAll(s, r.callbacks[|c.callbacks|..]);
         && s'.connectionState == SM.ConnectionState.Authenticated
         && s'.pairedHostName == Some(c.pairedHost.value.hostName)
         && s'.statusText == "Connected to " + c.pairedHost.value.hostName
  {
    var frame := RS.RelayFrame(T.ClientAuthenticated, Peer(Client, c.clientID), RS.ClientAuthenticatedReply(now),
                               messageID, now);
    RS.RelayFrameDecodes(T.ClientAuthenticated, Peer(Client, c.clientID), RS.ClientAuthenticatedReply(now),
                         messageID, now, DecodeAuthenticated);
    var e := Envelope(1, T.ClientAuthenticated, messageID, now, RS.RelayPeer, Peer(Client, c.clientID),
                      Authenticated(now));
    assert MM.Carried(text, env, DecodeAuthenticated) == Some(e);
    MM.AuthenticatedRequestsSessionsOnce(c, text, env, e);
    var r := MM.HandleIncomingText(c, text, env);
    var rec := c.pairedHost.value;
    var reported := [MM.ClientAuthenticated(rec), MM.StatusText("Connected to " + rec.hostName)];
    assert r.callbacks[|c.callbacks|..] == reported;
    var s1 := SM.Deliver(s, reported[0]);
    assert reported[1..] == [reported[1]] && [reported[1]][1..] == [];
    assert SM.DeliverAll(s, reported) == SM.DeliverAll(s1, [reported[1]]);
    assert SM.DeliverAll(s1, [reported[1]]) == SM.Deliver(s1, reported[1]);
  }

  /**
    Pairing end to end. The relay answers pairing-create with a pairing
    challenge it holds for this host; the host turns the frame into its QR
    code; the phone's store parses the scanned code and hands it to the relay
    client, which sends one pairing request; and that request is one the relay
    accepts while the challenge is unexpired.
   */
  lemma ScannedPairingRequestAccepted(l: RM.Ledger, ch: RM.PairingChallenge, relayURL: string,
                                      messageID: string, a: AM.Agent, hostText: string, hostEnv: AM.HostEnv,
                                      s: SM.Store, raw: string, scan: string -> Option<Value>,
                                      errorText: string, m: MM.Mobile, env: MM.ClientEnv, now: int)
    requires IsCanonicalUuid(messageID)
    requires ch.challengeID in l.pairingChallenges && l.pairingChallenges[ch.challengeID] == ch
    requires ch.hostID == a.hostID && ch.expiresAt > now
    requires hostEnv.parse(hostText) == Some(RS.RelayFrame(T.PairingCreated, Peer(Host, a.hostID),
                                                           RS.PairingCreatedReply(ch, relayURL), messageID, now))
    requires scan(raw) == AM.HandleInboundText(a, hostText, hostEnv).pairingQR
    ensures SM.ParseQRCode(raw, scan).Some?
    ensures var qr := SM.ParseQRCode(raw, scan).value;
      && qr.challengeID == ch.challengeID
      && SM.Pair(s, raw, scan, errorText).calls == s.calls + [SM.ConnectUsing(qr)]
      && (env.urlParses(qr.relayURL) ==> MM.Connect(m, qr, env).outbox == m.outbox + [MM.PairingRequestFor(qr, env)])
      && RM.PairingRequestAccepted(l, MM.PairingRequestFor(qr, env).body.request, now)
  {
    var created := Payloads.PairingCreated(ch.challengeID, ch.nonce, ch.expiresAt, relayURL);
    RS.RelayFrameDecodes(T.PairingCreated, Peer(Host, a.hostID), RS.PairingCreatedReply(ch, relayURL),
                         messageID, now, DecodePairingCreated);
    var frame := RS.RelayFrame(T.PairingCreated, Peer(Host, a.hostID), RS.PairingCreatedReply(ch, relayURL),
                               messageID, now);
    assert DecodeHeader(frame) == Some(Header(1, T.PairingCreated, messageID, now, RS.RelayPeer, Peer(Host, a.hostID)));
    assert AM.DecodeRequest(T.PairingCreated, frame) == AM.PairingCreatedFrame(created);
    var a0 := a.(lastReceivedMessage := Some(hostText));
    assert AM.HandleInboundText(a, hostText, hostEnv) == AM.PairingCreatedReceived(a0, created);
    AM.PairingQRCarriesChallenge(a0, created);
    MM.ConnectRequestsPairing(m, SM.ParseQRCode(raw, scan).value, env);
  }
}
