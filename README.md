# ClaudeHub, modelled in Dafny

ClaudeHub runs terminal sessions of the `claude` command-line agent on a Mac
and lets a paired phone watch and drive them through a relay. This project
models the parts of ClaudeHub that decide what happens, and proves
properties about them:

- **The relay** (`ClaudeHubRelay`). The registry holds host registrations,
  single-use authentication challenges, pairing challenges, the trust ledger
  and the live sockets (`registry_model.dfy` as values, `relay_registry.dfy`
  as a class with those maps as fields). The server dispatches host and
  client frames (`relay_server.dfy`).
- **The wire format** shared by all peers. This covers the envelope, its
  header and peers (`envelope.dfy`), the bootstrap and pairing payloads with
  the pairing QR code (`payloads.dfy`), and the runtime and session-creation
  messages with session summaries (`runtime.dfy`). JSON values are a small
  datatype (`json.dfy`).
- **The Mac-side agent.** This covers the relay transport
  (`transport_model.dfy`, `host_transport.dfy`) and `RemoteAgentService`
  (`agent_model.dfy`, `host_agent.dfy`), which authenticates, approves
  pairings and serves sessions to phones.
- **The phone.** This covers `MobileRelayClient` (`mobile_model.dfy`,
  `mobile_client.dfy`), `MobileAppStore` (`store_model.dfy`,
  `app_store.dfy`) and the coordinator of the remote terminal view
  (`terminal_coordinator.dfy`). `protocol.dfy` follows frames end to end
  between host, relay and phone.
- **Local services on the Mac.** These are the session and group records,
  `SessionStatus` and `SessionManager` (`session.dfy`, `session_status.dfy`,
  `session_manager.dfy`). They also include status detection from terminal
  output, tool-call monitoring and the output parser that feeds both
  (`status_detector.dfy`, `mcp_monitor.dfy`, `output_parser.dfy`). Then come
  the process manager (`process_manager.dfy`), git worktrees
  (`git_worktree.dfy`) and the child-process monitor (`child_process.dfy`).
  Last are shell quoting (`shell_quoting.dfy`) and the launch of a `claude`
  session in a terminal (`terminal_launch.dfy`).

Where a source type updates its fields in place, the model is a class. Its
fields are the ones the source updates, and it has a ghost `Model()` value.
In most classes each method states its new state as a step function of the
old one, and the step functions and the lemmas about them live in a companion
module of pure functions. The classes of `ProcessManager`, `SessionManager`,
`Session` and `ChildProcessMonitor` state their new fields directly.

Things outside the model become parameters:

- the clock (`now`, in milliseconds);
- fresh nonces and UUIDs;
- signature checking (`valid(key, message, signature)`);
- the output of shell commands;
- UTF-8 decoding;
- the ANSI stripping.

Sockets become effect lists or a ghost outbox of the frames sent.

Two points about the code shape what the model covers:

- Peers do no ping probe, keepalive or exponential backoff. A failed
  receive only marks the transport disconnected
  (`ClaudeHub/Utilities/RemoteRelayTransport.swift:95-97`).
- Signature verification reads the challenge under one lock acquisition and
  deletes it under another
  (`Backend/ClaudeHubRelay/Sources/ClaudeHubRelay/RelayRegistry.swift:133-155`).
  It is not one critical section. The model runs every registry call as one
  atomic step.

## Model

| member | source | states |
|---|---|---|
| RegistryModel.SetHostSocket | Backend/ClaudeHubRelay/Sources/ClaudeHubRelay/RelayRegistry.swift:51-55 | the host directory maps the id to the new socket, replacing any earlier one; the other seven maps are unchanged |
| RegistryModel.RemoveHostSocket | Backend/ClaudeHubRelay/Sources/ClaudeHubRelay/RelayRegistry.swift:57-61 | the id is gone from the host directory, every other entry and every other map is unchanged |
| RegistryModel.HostSocket | Backend/ClaudeHubRelay/Sources/ClaudeHubRelay/RelayRegistry.swift:63-67 | the lookup finds a socket exactly when the id is in the host directory, and it is the stored one |
| RegistryModel.SetClientSocket | Backend/ClaudeHubRelay/Sources/ClaudeHubRelay/RelayRegistry.swift:69-73 | the client directory maps the id to the new socket; nothing else changes |
| RegistryModel.RemoveClientSocket | Backend/ClaudeHubRelay/Sources/ClaudeHubRelay/RelayRegistry.swift:75-79 | the id is gone from the client directory, every other entry and map is unchanged |
| RegistryModel.ClientSocket | Backend/ClaudeHubRelay/Sources/ClaudeHubRelay/RelayRegistry.swift:81-85 | the lookup finds a socket exactly when the id is in the client directory, and it is the stored one |
| RegistryModel.SocketDirectoryLaws | Backend/ClaudeHubRelay/Sources/ClaudeHubRelay/RelayRegistry.swift:51-85 | lookup after set gives the new socket, lookup after remove gives none, remove is idempotent, and the host and client directories do not affect each other |
| RegistryModel.RegisterHost | Backend/ClaudeHubRelay/Sources/ClaudeHubRelay/RelayRegistry.swift:87-98 | an unconditional upsert: the registration holds the payload's four fields and no other map changes |
| RegistryModel.Registration | Backend/ClaudeHubRelay/Sources/ClaudeHubRelay/RelayRegistry.swift:251-255 | the registration is found exactly when the host is registered, and it is the stored one |
| RegistryModel.CreateChallenge | Backend/ClaudeHubRelay/Sources/ClaudeHubRelay/RelayRegistry.swift:100-111 | always succeeds, needs no registration, replaces the host's pending challenge with one expiring at now + ttl, and changes no other map |
| RegistryModel.VerifyHostSignature | Backend/ClaudeHubRelay/Sources/ClaudeHubRelay/RelayRegistry.swift:133-155 | true exactly when a registration and a challenge exist, the nonce matches, the challenge has not expired (strictly) and the signature is valid under the registered key; true removes the challenge, false changes nothing |
| RegistryModel.HostChallengeSingleUse | Backend/ClaudeHubRelay/Sources/ClaudeHubRelay/RelayRegistry.swift:133-155 | after a successful verification the identical retry fails, whatever the time |
| RegistryModel.ExpiredHostChallengeRejected | Backend/ClaudeHubRelay/Sources/ClaudeHubRelay/RelayRegistry.swift:100-141 | a challenge answered at or after now + ttl is rejected |
| RegistryModel.FreshHostChallengeAccepted | Backend/ClaudeHubRelay/Sources/ClaudeHubRelay/RelayRegistry.swift:100-111 | a registered host answering a fresh default-ttl challenge with a valid signature over its nonce before expiry is accepted (also lines 133-155) |
| RegistryModel.CreateClientChallenge | Backend/ClaudeHubRelay/Sources/ClaudeHubRelay/RelayRegistry.swift:113-131 | a challenge exists exactly when the client is trusted by that host; then it is bound to the host, keyed by client and replaces any earlier one; otherwise nothing changes |
| RegistryModel.ClientKey | Backend/ClaudeHubRelay/Sources/ClaudeHubRelay/RelayRegistry.swift:158-161 | the key used is the one the challenge's own host trusts for that client |
| RegistryModel.VerifyClientSignature | Backend/ClaudeHubRelay/Sources/ClaudeHubRelay/RelayRegistry.swift:157-182 | true exactly when a challenge and a trusted key exist, the nonce matches, it is unexpired and the signature is valid; true removes the challenge, false changes nothing |
| RegistryModel.ClientChallengeSingleUse | Backend/ClaudeHubRelay/Sources/ClaudeHubRelay/RelayRegistry.swift:157-182 | after a successful client verification the identical retry fails |
| RegistryModel.CreatePairingChallenge | Backend/ClaudeHubRelay/Sources/ClaudeHubRelay/RelayRegistry.swift:184-197 | the pairing challenge is stored under its id with the host, nonce and now + ttl; nothing else changes |
| RegistryModel.BeginPairingRequest | Backend/ClaudeHubRelay/Sources/ClaudeHubRelay/RelayRegistry.swift:199-225 | succeeds exactly when a pairing challenge with that id has equal host and nonce and is unexpired; then the request is stored under the challenge id (overwriting) and the challenge is kept; otherwise nothing changes |
| RegistryModel.Trust | Backend/ClaudeHubRelay/Sources/ClaudeHubRelay/RelayRegistry.swift:243-245 | the nested trust map gains exactly the one client key under the host; every other host's table and every other client entry is unchanged |
| RegistryModel.ApprovePairing | Backend/ClaudeHubRelay/Sources/ClaudeHubRelay/RelayRegistry.swift:227-249 | succeeds exactly when the stored request matches both host and client; then the request and the challenge are removed and the request's key is trusted; otherwise nothing changes; expiry is not re-checked |
| RegistryModel.ApprovalIsOneShot | Backend/ClaudeHubRelay/Sources/ClaudeHubRelay/RelayRegistry.swift:227-249 | a second approval of the same request returns none |
| RegistryModel.ApprovalTrustsExactlyOneKey | Backend/ClaudeHubRelay/Sources/ClaudeHubRelay/RelayRegistry.swift:243-245 | after approval the client is trusted with the request's key and every other trust entry is as before |
| RegistryModel.PairingRequestRepeatable | Backend/ClaudeHubRelay/Sources/ClaudeHubRelay/RelayRegistry.swift:199-225 | beginning a pairing does not consume the challenge: the same payload is accepted again |
| RegistryModel.ApprovalKeepsClientChallengesTrusted | Backend/ClaudeHubRelay/Sources/ClaudeHubRelay/RelayRegistry.swift:113-131 | approval keeps the invariant that every pending client challenge belongs to a trusted client (also lines 227-249) |
| RegistryModel.ClientChallengeKeepsInvariant | Backend/ClaudeHubRelay/Sources/ClaudeHubRelay/RelayRegistry.swift:113-131 | issuing a client challenge keeps the same invariant |
| RegistryModel.AcceptedClientIsTrusted | Backend/ClaudeHubRelay/Sources/ClaudeHubRelay/RelayRegistry.swift:157-182 | under the invariant, an accepted client is trusted by its challenge's host and signed with that trusted key |
| RegistryModel.UnpairedClientNotChallenged | Backend/ClaudeHubRelay/Sources/ClaudeHubRelay/RelayRegistry.swift:113-118 | an untrusted client gets no challenge and the registry is unchanged |
| RegistryModel.PairingThenReconnect | Backend/ClaudeHubRelay/Sources/ClaudeHubRelay/RelayRegistry.swift:113-249 | a full run (pairing challenge, request, approval, client challenge, verification) ends with the client authenticated under the key it paired with |
| RelayRegistry.Registry.constructor | Backend/ClaudeHubRelay/Sources/ClaudeHubRelay/RelayRegistry.swift:40-49 | all eight maps start empty |
| RelayRegistry.Registry.SetHostSocket | Backend/ClaudeHubRelay/Sources/ClaudeHubRelay/RelayRegistry.swift:51-55 | the registry's state is the model's SetHostSocket of the old state |
| RelayRegistry.Registry.RemoveHostSocket | Backend/ClaudeHubRelay/Sources/ClaudeHubRelay/RelayRegistry.swift:57-61 | the state is the model's RemoveHostSocket of the old state |
| RelayRegistry.Registry.HostSocket | Backend/ClaudeHubRelay/Sources/ClaudeHubRelay/RelayRegistry.swift:63-67 | returns the model's lookup |
| RelayRegistry.Registry.SetClientSocket | Backend/ClaudeHubRelay/Sources/ClaudeHubRelay/RelayRegistry.swift:69-73 | the state is the model's SetClientSocket of the old state |
| RelayRegistry.Registry.RemoveClientSocket | Backend/ClaudeHubRelay/Sources/ClaudeHubRelay/RelayRegistry.swift:75-79 | the state is the model's RemoveClientSocket of the old state |
| RelayRegistry.Registry.ClientSocket | Backend/ClaudeHubRelay/Sources/ClaudeHubRelay/RelayRegistry.swift:81-85 | returns the model's lookup |
| RelayRegistry.Registry.RegisterHost | Backend/ClaudeHubRelay/Sources/ClaudeHubRelay/RelayRegistry.swift:87-98 | the state is the model's RegisterHost of the old state |
| RelayRegistry.Registry.HostRegistrationFor | Backend/ClaudeHubRelay/Sources/ClaudeHubRelay/RelayRegistry.swift:251-255 | returns the model's registration lookup |
| RelayRegistry.Registry.CreateChallenge | Backend/ClaudeHubRelay/Sources/ClaudeHubRelay/RelayRegistry.swift:100-111 | new state and result are the model's CreateChallenge of the old state |
| RelayRegistry.Registry.CreateClientChallenge | Backend/ClaudeHubRelay/Sources/ClaudeHubRelay/RelayRegistry.swift:113-131 | new state and result are the model's CreateClientChallenge of the old state |
| RelayRegistry.Registry.VerifyHostSignature | Backend/ClaudeHubRelay/Sources/ClaudeHubRelay/RelayRegistry.swift:133-155 | new state and verdict are the model's VerifyHostSignature of the old state |
| RelayRegistry.Registry.VerifyClientSignature | Backend/ClaudeHubRelay/Sources/ClaudeHubRelay/RelayRegistry.swift:157-182 | new state and verdict are the model's VerifyClientSignature of the old state |
| RelayRegistry.Registry.CreatePairingChallenge | Backend/ClaudeHubRelay/Sources/ClaudeHubRelay/RelayRegistry.swift:184-197 | new state and result are the model's CreatePairingChallenge of the old state |
| RelayRegistry.Registry.BeginPairingRequest | Backend/ClaudeHubRelay/Sources/ClaudeHubRelay/RelayRegistry.swift:199-225 | new state and result are the model's BeginPairingRequest of the old state |
| RelayRegistry.Registry.ApprovePairing | Backend/ClaudeHubRelay/Sources/ClaudeHubRelay/RelayRegistry.swift:227-249 | new state and result are the model's ApprovePairing of the old state, including the nested trust-map write |
| Envelope.ParseKind | Packages/ClaudeHubRemote/Sources/ClaudeHubRemote/Models/RemotePeer.swift:2 | a device kind is read back from exactly its raw string, and from no other |
| Envelope.EncodePeer | Packages/ClaudeHubRemote/Sources/ClaudeHubRemote/Models/RemotePeer.swift:1-9 | a peer is encoded under exactly the keys kind and id, and decoding the result gives the peer back |
| Envelope.DecodePeer | Packages/ClaudeHubRemote/Sources/ClaudeHubRemote/Models/RemotePeer.swift:1-9 | a peer decodes only from an object carrying both keys |
| Envelope.DecodeUuid | Packages/ClaudeHubRemote/Sources/ClaudeHubRemote/Models/RemoteEnvelope.swift:6 | a message id decodes only from UUID text, and canonical UUID text decodes to itself |
| Envelope.HeaderKeysAreEnvelopeKeysWithoutPayload | Packages/ClaudeHubRemote/Sources/ClaudeHubRemote/Models/RemoteEnvelopeHeader.swift:27-34 | the header's wire keys are the envelope's keys minus payload |
| Envelope.NewEnvelope | Packages/ClaudeHubRemote/Sources/ClaudeHubRemote/Models/RemoteEnvelope.swift:12-28 | the initialiser stores every argument unchanged |
| Envelope.NewEnvelopeDefaultsToVersionOne | Packages/ClaudeHubRemote/Sources/ClaudeHubRemote/Models/RemoteEnvelope.swift:13 | when v is not supplied it is 1 |
| Envelope.EncodeEnvelope | Packages/ClaudeHubRemote/Sources/ClaudeHubRemote/Models/RemoteEnvelope.swift:30-38 | an envelope is encoded under exactly v, type, message_id, timestamp, source, target and payload, the payload by its own encoder |
| Envelope.DecodeHeader | Packages/ClaudeHubRemote/Sources/ClaudeHubRemote/Models/RemoteEnvelopeHeader.swift:11-34 | a header decodes only from an object carrying all six header keys |
| Envelope.Inbound | Backend/ClaudeHubRelay/Sources/ClaudeHubRelay/main.swift:86-91 | a frame is accepted exactly when its text parses and its header decodes, and the header is that of the parsed value |
| Envelope.DecodeEnvelope | Packages/ClaudeHubRemote/Sources/ClaudeHubRemote/Models/RemoteEnvelope.swift:30-38 | an envelope decodes only from an object with all seven keys; its header part is what the header decode gives and its payload is what the payload decoder gives |
| Envelope.EnvelopeRoundTrip | Packages/ClaudeHubRemote/Sources/ClaudeHubRemote/Models/RemoteEnvelope.swift:30-38 | decoding an encoded envelope gives back every field, the timestamp at whole-second precision |
| Envelope.HeaderOfEncodedEnvelope | Packages/ClaudeHubRemote/Sources/ClaudeHubRemote/Models/RemoteEnvelopeHeader.swift:27-34 | for any payload, the header decoded from an encoded envelope carries its v, type, message_id, timestamp, source and target |
| Envelope.HeaderIgnoresPayload | Packages/ClaudeHubRemote/Sources/ClaudeHubRemote/Models/RemoteEnvelopeHeader.swift:27-34 | the header decode does not depend on the payload's value |
| Envelope.MissingVersionRejected | Packages/ClaudeHubRemote/Sources/ClaudeHubRemote/Models/RemoteEnvelopeHeader.swift:4-28 | a frame without v fails both the header and the envelope decode: the initialiser default does not apply when decoding |
| Payloads.EncodeHostHello | Packages/ClaudeHubRemote/Sources/ClaudeHubRemote/Messages/BootstrapMessages.swift:3-5 | the hello payload is the empty object, and it decodes back |
| Payloads.DecodeHostHello | Packages/ClaudeHubRemote/Sources/ClaudeHubRemote/Messages/BootstrapMessages.swift:3-5 | any object decodes as a hello payload, and nothing else does |
| Payloads.EncodeHostRegister | Packages/ClaudeHubRemote/Sources/ClaudeHubRemote/Messages/BootstrapMessages.swift:7-25 | encoded under exactly display_name, public_key, app_version and platform; decoding gives the payload back |
| Payloads.DecodeHostRegister | Packages/ClaudeHubRemote/Sources/ClaudeHubRemote/Messages/BootstrapMessages.swift:20-25 | decodes only from an object with all four keys |
| Payloads.EncodeChallenge | Packages/ClaudeHubRemote/Sources/ClaudeHubRemote/Messages/BootstrapMessages.swift:28-40 | encoded under exactly nonce and expires_at; decoding gives it back, the date at whole-second precision |
| Payloads.DecodeChallenge | Packages/ClaudeHubRemote/Sources/ClaudeHubRemote/Messages/BootstrapMessages.swift:37-40 | decodes only from an object with both keys |
| Payloads.EncodeSignedChallenge | Packages/ClaudeHubRemote/Sources/ClaudeHubRemote/Messages/BootstrapMessages.swift:43-51 | encoded under the property names nonce and signature; decoding gives it back |
| Payloads.DecodeSignedChallenge | Packages/ClaudeHubRemote/Sources/ClaudeHubRemote/Messages/BootstrapMessages.swift:43-51 | decodes only from an object with both keys |
| Payloads.EncodeAuthenticated | Packages/ClaudeHubRemote/Sources/ClaudeHubRemote/Messages/BootstrapMessages.swift:53-87 | the host- and client-authenticated payloads are encoded under exactly authenticated_at and decode back at whole-second precision |
| Payloads.DecodeAuthenticated | Packages/ClaudeHubRemote/Sources/ClaudeHubRemote/Messages/BootstrapMessages.swift:77-87 | decodes exactly when authenticated_at is present as a date: it is required |
| Payloads.EncodeClientHello | Packages/ClaudeHubRemote/Sources/ClaudeHubRemote/Messages/BootstrapMessages.swift:65-75 | encoded under exactly host_id; decoding gives it back |
| Payloads.DecodeClientHello | Packages/ClaudeHubRemote/Sources/ClaudeHubRemote/Messages/BootstrapMessages.swift:72-74 | decodes only from an object with host_id |
| Payloads.NewPairingCreate | Packages/ClaudeHubRemote/Sources/ClaudeHubRemote/Messages/PairingMessages.swift:3-8 | the initialiser stores the ttl, 60 when not supplied |
| Payloads.EncodePairingCreate | Packages/ClaudeHubRemote/Sources/ClaudeHubRemote/Messages/PairingMessages.swift:10-12 | encoded under exactly ttl_seconds; decoding gives it back |
| Payloads.DecodePairingCreate | Packages/ClaudeHubRemote/Sources/ClaudeHubRemote/Messages/PairingMessages.swift:10-12 | decodes only from an object with ttl_seconds |
| Payloads.EncodePairingCreated | Packages/ClaudeHubRemote/Sources/ClaudeHubRemote/Messages/PairingMessages.swift:15-34 | encoded under exactly challenge_id, nonce, expires_at and relay_url; decoding gives it back, the date at whole seconds |
| Payloads.DecodePairingCreated | Packages/ClaudeHubRemote/Sources/ClaudeHubRemote/Messages/PairingMessages.swift:28-33 | decodes only from an object with all four keys |
| Payloads.EncodePairingRequest | Packages/ClaudeHubRemote/Sources/ClaudeHubRemote/Messages/PairingMessages.swift:36-58 | encoded under exactly host_id, challenge_id, nonce, device_name and public_key; decoding gives it back |
| Payloads.DecodePairingRequest | Packages/ClaudeHubRemote/Sources/ClaudeHubRemote/Messages/PairingMessages.swift:51-57 | decodes only from an object with all five keys |
| Payloads.EncodePairingPendingApproval | Packages/ClaudeHubRemote/Sources/ClaudeHubRemote/Messages/PairingMessages.swift:60-79 | encoded under exactly client_id, device_name, public_key and challenge_id; decoding gives it back |
| Payloads.DecodePairingPendingApproval | Packages/ClaudeHubRemote/Sources/ClaudeHubRemote/Messages/PairingMessages.swift:73-78 | decodes only from an object with all four keys |
| Payloads.EncodePairingApprove | Packages/ClaudeHubRemote/Sources/ClaudeHubRemote/Messages/PairingMessages.swift:81-97 | encoded under exactly client_id, challenge_id and signature; decoding gives it back |
| Payloads.DecodePairingApprove | Packages/ClaudeHubRemote/Sources/ClaudeHubRemote/Messages/PairingMessages.swift:92-96 | decodes only from an object with all three keys |
| Payloads.EncodePairingSuccess | Packages/ClaudeHubRemote/Sources/ClaudeHubRemote/Messages/PairingMessages.swift:99-115 | encoded under exactly host_id, host_name and host_public_key; decoding gives it back |
| Payloads.DecodePairingSuccess | Packages/ClaudeHubRemote/Sources/ClaudeHubRemote/Messages/PairingMessages.swift:110-114 | decodes only from an object with all three keys |
| Payloads.NewPairingQRCode | Packages/ClaudeHubRemote/Sources/ClaudeHubRemote/Models/PairingQRCodePayload.swift:11-25 | the initialiser stores every field unchanged |
| Payloads.NewPairingQRCodeDefaultsToVersionOne | Packages/ClaudeHubRemote/Sources/ClaudeHubRemote/Models/PairingQRCodePayload.swift:12 | v is 1 when not supplied |
| Payloads.EncodePairingQRCode | Packages/ClaudeHubRemote/Sources/ClaudeHubRemote/Models/PairingQRCodePayload.swift:27-34 | the QR payload is encoded under exactly v, relay_url, host_id, challenge_id, nonce and expires_at, and parsing it back recovers the payload with the date at whole seconds |
| Payloads.ParsePairingQRCode | Packages/ClaudeHubRemote/Sources/ClaudeHubRemote/Models/PairingQRCodePayload.swift:27-34 | parses only from an object with all six keys |
| Payloads.QRCodeStableAfterOneRoundTrip | Packages/ClaudeHubRemote/Sources/ClaudeHubRemote/Models/PairingQRCodePayload.swift:27-34 | after one encode and parse, further round trips change nothing |
| RelayServer.RelayFrame | Backend/ClaudeHubRelay/Sources/ClaudeHubRelay/main.swift:265-292 | the relay's envelope dictionary has exactly the envelope's seven keys, carries the payload unchanged, and its header decodes as v 1, the type, the message id, the time, the relay as source and the target |
| RelayServer.RelayFrameDecodes | Backend/ClaudeHubRelay/Sources/ClaudeHubRelay/main.swift:265-292 | a peer's typed decode of a relay frame succeeds exactly when its payload decoder accepts the payload dictionary, and then recovers every envelope field |
| RelayServer.ChallengeReply | Backend/ClaudeHubRelay/Sources/ClaudeHubRelay/main.swift:107 | the challenge dictionary has exactly the keys ChallengePayload expects and decodes as that challenge (also line 224) |
| RelayServer.PairingCreatedReply | Backend/ClaudeHubRelay/Sources/ClaudeHubRelay/main.swift:139-144 | the pairing-created dictionary has exactly PairingCreatedPayload's keys and decodes as the challenge id, nonce, expiry and relay URL |
| RelayServer.PendingApprovalReply | Backend/ClaudeHubRelay/Sources/ClaudeHubRelay/main.swift:204-209 | the pending-approval dictionary has exactly PairingPendingApprovalPayload's keys and decodes as the request's fields |
| RelayServer.PairingSuccessReply | Backend/ClaudeHubRelay/Sources/ClaudeHubRelay/main.swift:162-166 | the pairing-success dictionary has exactly PairingSuccessPayload's keys and decodes as the host id, name and key |
| RelayServer.HostAuthenticatedReply | Backend/ClaudeHubRelay/Sources/ClaudeHubRelay/main.swift:123 | the host-authenticated payload is empty |
| RelayServer.ClientAuthenticatedReplyAsWritten | Backend/ClaudeHubRelay/Sources/ClaudeHubRelay/main.swift:240 | the client-authenticated payload as written is empty, which ClientAuthenticatedPayload cannot decode |
| RelayServer.AsWrittenClientAuthenticatedUndecodable | Backend/ClaudeHubRelay/Sources/ClaudeHubRelay/main.swift:236-242 | the client's typed decode of the client-authenticated frame as the relay sends it fails |
| RelayServer.ClientAuthenticatedReply | Backend/ClaudeHubRelay/Sources/ClaudeHubRelay/main.swift:236-242 | the corrected payload carries authenticated_at and decodes as the time of authentication |
| RelayServer.Greeting | Backend/ClaudeHubRelay/Sources/ClaudeHubRelay/main.swift:59-66 | the connection greeting holds status and client_id and is not an envelope |
| RelayServer.HostOpened | Backend/ClaudeHubRelay/Sources/ClaudeHubRelay/main.swift:38 | a host connection registers its socket, replacing any earlier one |
| RelayServer.ClientOpened | Backend/ClaudeHubRelay/Sources/ClaudeHubRelay/main.swift:57-66 | a client connection registers its socket and sends the greeting on it |
| RelayServer.CloseAfterReplacementForgetsNewSocket | Backend/ClaudeHubRelay/Sources/ClaudeHubRelay/main.swift:38-74 | when a replaced connection closes, the directory entry of the newer connection is removed too |
| RelayServer.HostStep | Backend/ClaudeHubRelay/Sources/ClaudeHubRelay/main.swift:78-182 | a host frame produces at most one effect, never touches the socket directories or client challenges, and never removes trust |
| RelayServer.UndecodableHostFrameIgnored | Backend/ClaudeHubRelay/Sources/ClaudeHubRelay/main.swift:86-91 | a host frame whose header does not decode changes nothing and sends nothing |
| RelayServer.UnlistedHostTypeIgnored | Backend/ClaudeHubRelay/Sources/ClaudeHubRelay/main.swift:179-180 | a host frame of an unlisted type (project-paths-list and session-created among them) changes nothing and sends nothing |
| RelayServer.HostHelloIssuesChallenge | Backend/ClaudeHubRelay/Sources/ClaudeHubRelay/main.swift:100-109 | host-hello always stores a fresh default-ttl challenge and sends exactly one challenge reply on the host's socket, which decodes as that challenge |
| RelayServer.HostAuthRepliesIffVerified | Backend/ClaudeHubRelay/Sources/ClaudeHubRelay/main.swift:111-128 | host-auth moves the registry as verifyHostSignature does and replies host-authenticated exactly when the proof is accepted, otherwise closes the socket |
| RelayServer.PairingCreateReplies | Backend/ClaudeHubRelay/Sources/ClaudeHubRelay/main.swift:130-146 | pairing-create stores a pairing challenge with the requested ttl and replies with challenge_id, nonce, expires_at and the configured public URL |
| RelayServer.ApprovalTrustsEvenWithoutReply | Backend/ClaudeHubRelay/Sources/ClaudeHubRelay/main.swift:148-168 | pairing-approve updates trust as approvePairing does; pairing-success goes to the client's socket exactly when approval succeeds, the client is connected and the host is registered |
| RelayServer.HostPassThroughVerbatim | Backend/ClaudeHubRelay/Sources/ClaudeHubRelay/main.swift:170-177 | the four host pass-through types are forwarded unchanged to the client socket named by the target id, dropped without one, with no authentication check |
| RelayServer.HostStepKeepsClientChallengesTrusted | Backend/ClaudeHubRelay/Sources/ClaudeHubRelay/main.swift:78-182 | no host frame breaks the invariant that pending client challenges belong to trusted clients |
| RelayServer.ClientStep | Backend/ClaudeHubRelay/Sources/ClaudeHubRelay/main.swift:184-260 | the dispatch as written (a verified client-auth gets the empty payload): a client frame produces at most one effect and never changes the socket directories, the trust ledger or the registrations |
| RelayServer.ClientStepCorrected | Backend/ClaudeHubRelay/Sources/ClaudeHubRelay/main.swift:228-245 | the dispatch with the corrected client-authenticated payload leaves the same ledger and sends or closes on the same sockets as the dispatch as written |
| RelayServer.UnlistedClientTypeIgnored | Backend/ClaudeHubRelay/Sources/ClaudeHubRelay/main.swift:190-192 | an undecodable client frame or an unlisted type (list-project-paths and create-session among them) changes nothing and sends nothing (also lines 257-258) |
| RelayServer.PairingRequestForwardedOnlyWhenAccepted | Backend/ClaudeHubRelay/Sources/ClaudeHubRelay/main.swift:195-211 | pairing-request is forwarded as pairing-pending-approval to the host exactly when beginPairingRequest succeeds and that host has a socket |
| RelayServer.ClientHelloChallengesOnlyTrusted | Backend/ClaudeHubRelay/Sources/ClaudeHubRelay/main.swift:213-226 | client-hello replies with a challenge only for a trusted client; an untrusted client or an undecodable payload closes the socket |
| RelayServer.ClientAuthRepliesIffVerified | Backend/ClaudeHubRelay/Sources/ClaudeHubRelay/main.swift:228-245 | as written, client-auth moves the registry as verifyClientSignature does, replies client-authenticated with the empty payload exactly when the proof is accepted (a reply the phone cannot decode) and otherwise closes the socket |
| RelayServer.CorrectedClientAuthRepliesIffVerified | Backend/ClaudeHubRelay/Sources/ClaudeHubRelay/main.swift:228-245 | with the corrected payload, the reply is sent exactly when the proof is accepted and decodes on the phone as authenticated at the current time |
| RelayServer.ClientPassThroughVerbatim | Backend/ClaudeHubRelay/Sources/ClaudeHubRelay/main.swift:247-255 | the five client pass-through types are forwarded unchanged to the host socket named by the target id |
| RelayServer.ClientStepKeepsClientChallengesTrusted | Backend/ClaudeHubRelay/Sources/ClaudeHubRelay/main.swift:184-260 | no client frame breaks the client-challenge invariant |
| RelayServer.Relay.constructor | Backend/ClaudeHubRelay/Sources/ClaudeHubRelay/main.swift:26 | the relay starts with an empty registry and nothing sent |
| RelayServer.Relay.SendJSON | Backend/ClaudeHubRelay/Sources/ClaudeHubRelay/main.swift:265-292 | exactly one send of the relay frame is appended |
| RelayServer.Relay.HostConnected | Backend/ClaudeHubRelay/Sources/ClaudeHubRelay/main.swift:31-38 | the registry moves as HostOpened says |
| RelayServer.Relay.HostDisconnected | Backend/ClaudeHubRelay/Sources/ClaudeHubRelay/main.swift:45-48 | the host's directory entry is removed |
| RelayServer.Relay.ClientConnected | Backend/ClaudeHubRelay/Sources/ClaudeHubRelay/main.swift:51-66 | the registry and the sends move as ClientOpened says |
| RelayServer.Relay.ClientDisconnected | Backend/ClaudeHubRelay/Sources/ClaudeHubRelay/main.swift:72-74 | the client's directory entry is removed |
| RelayServer.Relay.HandleHostMessage | Backend/ClaudeHubRelay/Sources/ClaudeHubRelay/main.swift:78-182 | registry and sends move exactly as HostStep says |
| RelayServer.Relay.HandleClientMessage | Backend/ClaudeHubRelay/Sources/ClaudeHubRelay/main.swift:184-260 | registry and sends move exactly as ClientStep, the dispatch as written, says |
| Runtime.EncodeEmpty | Clients/ClaudeHubMobile/Services/MobileRelayClient.swift:68 | the empty payload sent with list-sessions decodes back from its encoding |
| Runtime.DecodeEmpty | ClaudeHub/Utilities/RemoteAgentService.swift:257 | any object decodes as the empty payload the host reads list-sessions with, and nothing else does (also line 275) |
| Runtime.GetOptionalUuid | Packages/ClaudeHubRemote/Sources/ClaudeHubRemote/Models/SessionSummary.swift:27-34 | an absent optional id decodes as none; a present one must be a UUID |
| Runtime.GetOptionalString | Packages/ClaudeHubRemote/Sources/ClaudeHubRemote/Models/SessionSummary.swift:27-34 | an absent optional text decodes as none; a present one is the stored string |
| Runtime.EncodeSummary | Packages/ClaudeHubRemote/Sources/ClaudeHubRemote/Models/SessionSummary.swift:3-35 | a session summary is encoded under id, name, status, last_preview and has_unread, plus group_id only when it has a group, and decodes back |
| Runtime.DecodeSummary | Packages/ClaudeHubRemote/Sources/ClaudeHubRemote/Models/SessionSummary.swift:27-34 | a decoded summary always carries canonical UUIDs |
| Runtime.EncodeSessionList | Packages/ClaudeHubRemote/Sources/ClaudeHubRemote/Messages/RuntimeMessages.swift:3-9 | a session list is encoded under sessions alone and decodes back to the same summaries in order |
| Runtime.EncodeSummaries | Packages/ClaudeHubRemote/Sources/ClaudeHubRemote/Messages/RuntimeMessages.swift:3-9 | one encoded item per summary, and the items decode back to the summaries |
| Runtime.DecodeSummaries | Packages/ClaudeHubRemote/Sources/ClaudeHubRemote/Messages/RuntimeMessages.swift:3-9 | a decoded list has one summary per item, each the item's own decode |
| Runtime.EncodeSessionSize | Packages/ClaudeHubRemote/Sources/ClaudeHubRemote/Messages/RuntimeMessages.swift:11-27 | open-session and resize payloads are encoded under session_id, cols and rows and decode back (also lines 86-102) |
| Runtime.DecodeSessionSize | Packages/ClaudeHubRemote/Sources/ClaudeHubRemote/Messages/RuntimeMessages.swift:22-26 | a decoded size payload carries a canonical session id |
| Runtime.EncodeTerminalData | Packages/ClaudeHubRemote/Sources/ClaudeHubRemote/Messages/RuntimeMessages.swift:29-57 | terminal output and snapshot payloads are encoded under session_id and data and decode back |
| Runtime.DecodeTerminalData | Packages/ClaudeHubRemote/Sources/ClaudeHubRemote/Messages/RuntimeMessages.swift:38-56 | a decoded data payload carries a canonical session id |
| Runtime.EncodeTerminalInput | Packages/ClaudeHubRemote/Sources/ClaudeHubRemote/Messages/RuntimeMessages.swift:59-72 | terminal input is encoded under session_id and text and decodes back |
| Runtime.DecodeTerminalInput | Packages/ClaudeHubRemote/Sources/ClaudeHubRemote/Messages/RuntimeMessages.swift:68-71 | a decoded input payload carries a canonical session id |
| Runtime.NewCreateSession | Packages/ClaudeHubRemote/Sources/ClaudeHubRemote/Messages/SessionCreationMessages.swift:14-31 | the initialiser stores every argument, command "claude" and empty flags by default |
| Runtime.EncodeCreateSession | Packages/ClaudeHubRemote/Sources/ClaudeHubRemote/Messages/SessionCreationMessages.swift:5-41 | create-session is encoded under name, project_path, command, flags and use_worktree, plus group_id when set, and decodes back |
| Runtime.DecodeCreateSession | Packages/ClaudeHubRemote/Sources/ClaudeHubRemote/Messages/SessionCreationMessages.swift:32-40 | a decoded create-session carries a canonical or absent group id |
| TransportModel.ParseState | Packages/ClaudeHubRemote/Sources/ClaudeHubRemote/Transport/RelayConnectionState.swift:1-6 | a connection state is read back from exactly its raw value, and from no other |
| TransportModel.Listed | ClaudeHub/Utilities/RemoteRelayTransport.swift:36 | the optional task as a list: empty exactly when there is no task |
| TransportModel.Publish | ClaudeHub/Utilities/RemoteRelayTransport.swift:7 | setting the published state records it in the history of published states and changes nothing else |
| TransportModel.Disconnect | ClaudeHub/Utilities/RemoteRelayTransport.swift:35-39 | the current task, if any, is cancelled and forgotten and disconnected is published; nothing sent or delivered changes |
| TransportModel.Connect | ClaudeHub/Utilities/RemoteRelayTransport.swift:18-33 | an empty or unparseable URL only publishes disconnected and creates no task; otherwise the old task is torn down and the transport ends connected on the new task at once, with one receive armed |
| TransportModel.SendRaw | ClaudeHub/Utilities/RemoteRelayTransport.swift:52-62 | without a task nothing happens; otherwise the text is handed to the current task |
| TransportModel.Send | ClaudeHub/Utilities/RemoteRelayTransport.swift:41-50 | without a task nothing happens; an encoding failure publishes disconnected; otherwise it is sendRaw of the encoded text |
| TransportModel.SendFailed | ClaudeHub/Utilities/RemoteRelayTransport.swift:55-60 | a send error publishes disconnected |
| TransportModel.Received | ClaudeHub/Utilities/RemoteRelayTransport.swift:82-94 | a received text (or UTF-8 data) is delivered and another receive is armed on the same task; nothing else changes |
| TransportModel.ReceiveFailedAsWritten | ClaudeHub/Utilities/RemoteRelayTransport.swift:95-97 | as written, any failed receive sets disconnected and clears the task, whichever task it came from |
| TransportModel.StaleReceiveFailureDropsNewConnection | ClaudeHub/Utilities/RemoteRelayTransport.swift:25-32 | as written, the cancelled old task's receive failure tears down the connection just opened (also lines 95-97) |
| TransportModel.ReceiveFailed | ClaudeHub/Utilities/RemoteRelayTransport.swift:95-97 | corrected: only a failure of the current task's receive disconnects and clears it; a stale one changes nothing |
| TransportModel.ReconnectSurvivesStaleFailure | ClaudeHub/Utilities/RemoteRelayTransport.swift:25-32 | with the corrected handling a reconnect survives the old task's failure, while the new task's own failure still disconnects (also lines 95-97) |
| TransportModel.SendsGoToCurrentTask | ClaudeHub/Utilities/RemoteRelayTransport.swift:41-62 | a send reaches only the current task, and at most once |
| TransportModel.DisconnectedSendsNothing | ClaudeHub/Utilities/RemoteRelayTransport.swift:35-62 | after disconnect, send and sendRaw do nothing |
| RelayTransport.Transport.constructor | ClaudeHub/Utilities/RemoteRelayTransport.swift:7-16 | starts disconnected with no task |
| RelayTransport.Transport.SetState | ClaudeHub/Utilities/RemoteRelayTransport.swift:7 | publishes the state as Publish says |
| RelayTransport.Transport.Connect | ClaudeHub/Utilities/RemoteRelayTransport.swift:18-33 | the state moves as the model's Connect says |
| RelayTransport.Transport.Disconnect | ClaudeHub/Utilities/RemoteRelayTransport.swift:35-39 | the state moves as the model's Disconnect says |
| RelayTransport.Transport.Send | ClaudeHub/Utilities/RemoteRelayTransport.swift:41-50 | the state moves as the model's Send says |
| RelayTransport.Transport.SendRaw | ClaudeHub/Utilities/RemoteRelayTransport.swift:52-62 | the state moves as the model's SendRaw says |
| RelayTransport.Transport.SendFailed | ClaudeHub/Utilities/RemoteRelayTransport.swift:55-60 | the state moves as the model's SendFailed says |
| RelayTransport.Transport.Received | ClaudeHub/Utilities/RemoteRelayTransport.swift:82-94 | the state moves as the model's Received says |
| RelayTransport.Transport.ReceiveFailedAsWritten | ClaudeHub/Utilities/RemoteRelayTransport.swift:95-97 | the state moves as the model's ReceiveFailedAsWritten says: disconnected and no task, whichever task failed |
| RelayTransport.Transport.ReceiveFailed | ClaudeHub/Utilities/RemoteRelayTransport.swift:95-97 | the state moves as the corrected ReceiveFailed says |
| AgentModel.Insert | ClaudeHub/Utilities/RemoteAgentService.swift:323 | inserting a client id gives exactly the old ids plus the new one, keeps the earlier order and never duplicates |
| AgentModel.Broadcast | ClaudeHub/Utilities/RemoteAgentService.swift:186-190 | one message per listed client, each addressed to that client with the same type and payload |
| AgentModel.BroadcastAppend | ClaudeHub/Utilities/RemoteAgentService.swift:186-190 | broadcasting to two lists in turn is broadcasting to their concatenation |
| AgentModel.BroadcastReachesEachOnce | ClaudeHub/Utilities/RemoteAgentService.swift:186-190 | over a duplicate-free client list each listed client gets exactly one message and any other peer none |
| AgentModel.StateChangeAnnouncesHost | ClaudeHub/Utilities/RemoteAgentService.swift:229-240 | a state change publishes the state; disconnected clears isAuthenticated; connected sends host-register then host-hello, in that order; nothing else is sent |
| AgentModel.RegistrationDescribesHost | ClaudeHub/Utilities/RemoteAgentService.swift:125-132 | the registration carries the host's public key, platform macos, the localized name or "ClaudeHub Host", and the bundle version or "0" (also lines 314-320) |
| AgentModel.ConnectAnnouncesOnce | ClaudeHub/Utilities/RemoteAgentService.swift:64-67 | connecting over a working URL ends connected, not yet authenticated, with exactly host-register and host-hello sent (also lines 229-240) |
| AgentModel.RequestPairingOutcomes | ClaudeHub/Utilities/RemoteAgentService.swift:78-102 | with no relay URL only the error is set; unauthenticated, it connects, remembers the request and arms the timeout; authenticated, it sets isPairingActive, arms the timeout and sends pairing-create with ttl 120 to the relay |
| AgentModel.TimeoutReportsOnlyUnansweredPairing | ClaudeHub/Utilities/RemoteAgentService.swift:113-123 | the timeout reports an error and clears both flags only when no QR code arrived and a pairing is active or pending; it sends nothing |
| AgentModel.CancelledPairingNeverTimesOut | ClaudeHub/Utilities/RemoteAgentService.swift:104-118 | after cancelPairing the timeout has no effect |
| AgentModel.ChallengeAnswered | ClaudeHub/Utilities/RemoteAgentService.swift:285-304 | a challenge is answered with host-auth over the same nonce, isAuthenticated becomes true at once, and a pending pairing is replayed once and cleared |
| AgentModel.EarlyPairingRequestReplayed | ClaudeHub/Utilities/RemoteAgentService.swift:86-93 | a pairing asked for before authentication is sent exactly once after the next challenge, with the flag cleared (also lines 299-303) |
| AgentModel.PairingQRCarriesChallenge | ClaudeHub/Utilities/RemoteAgentService.swift:459-482 | pairing-created yields a QR payload that parses back with the host id, challenge and the payload's relay URL, or the configured one when that is empty; the error and the timeout are cleared |
| AgentModel.PendingRequestApproved | ClaudeHub/Utilities/RemoteAgentService.swift:503-521 | pending-approval auto-sends pairing-approve for that client and challenge, signed over the challenge id, remembers the client and clears the QR state |
| AgentModel.OutputReachesEachActiveClientOnce | ClaudeHub/Utilities/RemoteAgentService.swift:178-192 | captured output is remembered; unauthenticated nothing is sent, otherwise exactly one terminal-output goes to each active client |
| AgentModel.SnapshotIsNewestScrollback | ClaudeHub/Utilities/RemoteAgentService.swift:343-344 | the snapshot is the last min(n, 128000) bytes of the scrollback, the whole of it when it fits |
| AgentModel.OpenSessionSendsSnapshot | ClaudeHub/Utilities/RemoteAgentService.swift:331-355 | open-session records the size, resizes the terminal, remembers the client and sends the snapshot only when scrollback exists |
| AgentModel.FirstSeen | ClaudeHub/Utilities/RemoteAgentService.swift:375-381 | each non-empty path once, and only those |
| AgentModel.FirstSeenExtends | ClaudeHub/Utilities/RemoteAgentService.swift:378-394 | paths seen in a prefix keep their place: the result for a prefix is a prefix of the whole result |
| AgentModel.FirstSeenOfDistinct | ClaudeHub/Utilities/RemoteAgentService.swift:378-394 | distinct non-empty paths are listed as given |
| AgentModel.RecentPaths | ClaudeHub/Utilities/RemoteAgentService.swift:371-394 | one recent path per first-seen path, in first-occurrence order |
| AgentModel.RecentPathsCoverSessions | ClaudeHub/Utilities/RemoteAgentService.swift:371-394 | the listed paths are distinct and are exactly the non-empty project paths, each named by its last component and flagged by the git check |
| AgentModel.WorktreeBranch | ClaudeHub/Utilities/RemoteAgentService.swift:418 | the branch is "worktree/" followed by the name, one character for each, with no space left |
| AgentModel.DashesForSpaces | ClaudeHub/Utilities/RemoteAgentService.swift:418 | replacing spaces by dashes keeps the length, leaves no space and keeps every other character |
| AgentModel.CreateSessionAnnounced | ClaudeHub/Utilities/RemoteAgentService.swift:407-457 | create-session sends session-created to the requester and one session list to each active client, so the requester gets both and every other client one list |
| AgentModel.CreateSessionMessagesReach | ClaudeHub/Utilities/RemoteAgentService.swift:442-456 | over distinct clients, the requester receives session-created then the list, every other active client just the list |
| AgentModel.CreateSessionCalls | ClaudeHub/Utilities/RemoteAgentService.swift:411-430 | the session is created with the payload's fields, a worktree only when asked, then selected; the prompt plus a newline is scheduled only when it is non-empty |
| AgentModel.DecodeRequest | ClaudeHub/Utilities/RemoteAgentService.swift:249-282 | a type the host does not handle decodes to nothing to do |
| AgentModel.UnhandledInboundOnlyRemembered | ClaudeHub/Utilities/RemoteAgentService.swift:242-282 | text that is not an envelope, or of an unhandled type, is only remembered as the last received message |
| AgentModel.InboundKeepsValid | ClaudeHub/Utilities/RemoteAgentService.swift:242-282 | any inbound text keeps the client-id list duplicate-free, never forgets a client and is remembered |
| AgentModel.ApplyKeepsValid | ClaudeHub/Utilities/RemoteAgentService.swift:249-282 | each decoded request keeps the client-id list duplicate-free and never forgets a client |
| HostAgent.CollectRecentPaths | ClaudeHub/Utilities/RemoteAgentService.swift:375-394 | the loop over sessions with a seen set computes RecentPaths |
| HostAgent.RemoteAgentService.constructor | ClaudeHub/Utilities/RemoteAgentService.swift:1-58 | starts in the model's initial state |
| HostAgent.RemoteAgentService.InsertClient | ClaudeHub/Utilities/RemoteAgentService.swift:323 | the client-id list becomes Insert of the old one |
| HostAgent.RemoteAgentService.Connect | ClaudeHub/Utilities/RemoteAgentService.swift:64-67 | the state moves as the model's Connect says |
| HostAgent.RemoteAgentService.ConnectIfConfigured | ClaudeHub/Utilities/RemoteAgentService.swift:59-62 | the state moves as the model's ConnectIfConfigured says |
| HostAgent.RemoteAgentService.Disconnect | ClaudeHub/Utilities/RemoteAgentService.swift:69-75 | the state moves as the model's Disconnect says |
| HostAgent.RemoteAgentService.RequestPairing | ClaudeHub/Utilities/RemoteAgentService.swift:78-102 | the state moves as the model's RequestPairing says |
| HostAgent.RemoteAgentService.CancelPairing | ClaudeHub/Utilities/RemoteAgentService.swift:104-111 | the state moves as the model's CancelPairing says |
| HostAgent.RemoteAgentService.PairingTimeoutFires | ClaudeHub/Utilities/RemoteAgentService.swift:113-123 | the state moves as the model's PairingTimeoutFires says |
| HostAgent.RemoteAgentService.HandleTransportStateChange | ClaudeHub/Utilities/RemoteAgentService.swift:229-240 | the state moves as TransportStateChanged says |
| HostAgent.RemoteAgentService.CaptureTerminalOutput | ClaudeHub/Utilities/RemoteAgentService.swift:178-192 | the state moves as the model's CaptureTerminalOutput says |
| HostAgent.RemoteAgentService.BroadcastToActiveClients | ClaudeHub/Utilities/RemoteAgentService.swift:186-190 | the loop over active clients appends exactly Broadcast of them (also lines 450-456) |
| HostAgent.RemoteAgentService.HandleInboundText | ClaudeHub/Utilities/RemoteAgentService.swift:242-283 | the state moves as the model's HandleInboundText says |
| HostAgent.RemoteAgentService.Apply | ClaudeHub/Utilities/RemoteAgentService.swift:249-282 | the state moves as the model's Apply says |
| HostAgent.RemoteAgentService.HandleChallenge | ClaudeHub/Utilities/RemoteAgentService.swift:285-304 | the state moves as the model's HandleChallenge says |
| HostAgent.RemoteAgentService.HandleListSessionsRequest | ClaudeHub/Utilities/RemoteAgentService.swift:322-329 | the state moves as ListSessionsRequest says |
| HostAgent.RemoteAgentService.HandleOpenSessionRequest | ClaudeHub/Utilities/RemoteAgentService.swift:331-355 | the state moves as OpenSessionRequest says |
| HostAgent.RemoteAgentService.HandleTerminalInputRequest | ClaudeHub/Utilities/RemoteAgentService.swift:357-360 | the state moves as TerminalInputRequest says |
| HostAgent.RemoteAgentService.HandleTerminalResizeRequest | ClaudeHub/Utilities/RemoteAgentService.swift:362-369 | the state moves as TerminalResizeRequest says |
| HostAgent.RemoteAgentService.HandleListProjectPathsRequest | ClaudeHub/Utilities/RemoteAgentService.swift:371-405 | the state moves as ListProjectPathsRequest says |
| HostAgent.RemoteAgentService.HandleCreateSessionRequest | ClaudeHub/Utilities/RemoteAgentService.swift:407-457 | the state moves as CreateSessionRequest says |
| HostAgent.RemoteAgentService.CreateAndSelect | ClaudeHub/Utilities/RemoteAgentService.swift:411-430 | records the create, select and optional prompt calls in order |
| HostAgent.RemoteAgentService.AnnounceCreatedSession | ClaudeHub/Utilities/RemoteAgentService.swift:442-456 | appends session-created to the requester and the list to every active client |
| HostAgent.RemoteAgentService.HandlePairingCreated | ClaudeHub/Utilities/RemoteAgentService.swift:459-482 | the state moves as PairingCreatedReceived says |
| HostAgent.RemoteAgentService.HandlePairingPendingApproval | ClaudeHub/Utilities/RemoteAgentService.swift:503-521 | the state moves as PendingApprovalReceived says |
| MobileModel.ParentOf | Clients/ClaudeHubMobile/Services/MobileRelayClient.swift:232 | the parent of a path is a prefix of it, and shorter unless the path is empty |
| MobileModel.DeletingLastPathComponent | Clients/ClaudeHubMobile/Services/MobileRelayClient.swift:232 | deleting the last path component leaves a prefix of the URL |
| MobileModel.ParentAndLastComponent | Clients/ClaudeHubMobile/Services/MobileRelayClient.swift:232 | a path with a slash is its parent, a slash and its last component |
| MobileModel.SocketURL | Clients/ClaudeHubMobile/Services/MobileRelayClient.swift:231-235 | the socket URL starts with the base minus its last component and ends with /ws/client/ and the client id |
| MobileModel.SocketReplacesLastComponent | Clients/ClaudeHubMobile/Services/MobileRelayClient.swift:231-235 | for a relay URL with a path after its host, the socket URL is exactly the base with its last component replaced by ws/client/<clientID> |
| MobileModel.SocketKeepsHost | Clients/ClaudeHubMobile/Services/MobileRelayClient.swift:231-235 | everything before a slash of the relay URL, in particular the scheme and host before the path, is kept in the socket URL |
| MobileModel.Disconnect | Clients/ClaudeHubMobile/Services/MobileRelayClient.swift:99-102 | the socket, if any, is cancelled and forgotten; nothing else changes |
| MobileModel.ConnectRequestsPairing | Clients/ClaudeHubMobile/Services/MobileRelayClient.swift:33-51 | connect disconnects first, adopts the QR's host id and relay URL, and over a parseable URL opens the socket and sends one pairing-request echoing host id, challenge id and nonce; an unparseable URL opens nothing, sends nothing and reports "Invalid relay URL" (also lines 225-242) |
| MobileModel.ReconnectSendsHello | Clients/ClaudeHubMobile/Services/MobileRelayClient.swift:53-61 | without a stored paired host nothing happens; otherwise it reconnects to the stored relay and sends client-hello for the stored host id (also lines 244-251) |
| MobileModel.RequestSessions | Clients/ClaudeHubMobile/Services/MobileRelayClient.swift:63-70 | list-sessions goes to host:hostID, or nothing is sent without a host id or socket; nothing else changes (also line 203) |
| MobileModel.SendInput | Clients/ClaudeHubMobile/Services/MobileRelayClient.swift:72-79 | terminal-input with the text goes to host:hostID under the same guard; nothing else changes (also line 203) |
| MobileModel.SendResize | Clients/ClaudeHubMobile/Services/MobileRelayClient.swift:81-88 | terminal-resize with the size goes to host:hostID under the same guard (also line 203) |
| MobileModel.OpenSession | Clients/ClaudeHubMobile/Services/MobileRelayClient.swift:90-97 | open-session with the size, 100 by 28 by default, goes to host:hostID under the same guard (also line 203) |
| MobileModel.DecodeIncoming | Clients/ClaudeHubMobile/Services/MobileRelayClient.swift:140-172 | a type outside the handled ones is reported as unhandled, and only those are |
| MobileModel.UnhandledTextReported | Clients/ClaudeHubMobile/Services/MobileRelayClient.swift:130-171 | text that is not an envelope is reported verbatim; an unhandled type reports just the type; nothing else changes |
| MobileModel.ChallengeAnsweredWithSameNonce | Clients/ClaudeHubMobile/Services/MobileRelayClient.swift:150-185 | a challenge is answered with client-auth over the same nonce and "Authenticating device…" is reported |
| MobileModel.PairingSuccessStoresRecord | Clients/ClaudeHubMobile/Services/MobileRelayClient.swift:141-148 | pairing-success saves the paired host only when a relay URL is active, reports success and "Paired to" the host name, then sends client-hello |
| MobileModel.AuthenticatedRequestsSessionsOnce | Clients/ClaudeHubMobile/Services/MobileRelayClient.swift:154-196 | client-authenticated reports the stored host (or just "Connected") and sends exactly one list-sessions |
| MobileModel.UndecodableAuthenticatedDropped | Clients/ClaudeHubMobile/Services/MobileRelayClient.swift:155 | a client-authenticated frame whose payload does not decode changes nothing |
| MobileModel.RuntimeFramesHandedOn | Clients/ClaudeHubMobile/Services/MobileRelayClient.swift:158-168 | session lists, snapshots and output are handed to their callback and nothing is sent |
| MobileClient.MobileRelayClient.constructor | Clients/ClaudeHubMobile/Services/MobileRelayClient.swift:23-31 | starts in the model's initial state for the stored identity |
| MobileClient.MobileRelayClient.Report | Clients/ClaudeHubMobile/Services/MobileRelayClient.swift:13 | appends exactly one callback |
| MobileClient.MobileRelayClient.Send | Clients/ClaudeHubMobile/Services/MobileRelayClient.swift:198-215 | moves as the model's Send: nothing without a socket |
| MobileModel.SendFailed | Clients/ClaudeHubMobile/Services/MobileRelayClient.swift:216-221 | a send error is reported as "Send failed: " and its description, and nothing else changes |
| MobileClient.MobileRelayClient.SendFailed | Clients/ClaudeHubMobile/Services/MobileRelayClient.swift:216-221 | moves as the model's SendFailed |
| MobileClient.MobileRelayClient.ConnectSocket | Clients/ClaudeHubMobile/Services/MobileRelayClient.swift:225-242 | moves as the model's ConnectSocket |
| MobileClient.MobileRelayClient.Disconnect | Clients/ClaudeHubMobile/Services/MobileRelayClient.swift:99-102 | moves as the model's Disconnect |
| MobileClient.MobileRelayClient.AuthenticatePairedClient | Clients/ClaudeHubMobile/Services/MobileRelayClient.swift:244-251 | moves as the model's AuthenticatePairedClient |
| MobileClient.MobileRelayClient.Connect | Clients/ClaudeHubMobile/Services/MobileRelayClient.swift:33-51 | moves as the model's Connect |
| MobileClient.MobileRelayClient.ReconnectIfPossible | Clients/ClaudeHubMobile/Services/MobileRelayClient.swift:53-61 | moves as the model's ReconnectIfPossible |
| MobileClient.MobileRelayClient.RequestSessions | Clients/ClaudeHubMobile/Services/MobileRelayClient.swift:63-70 | moves as the model's RequestSessions |
| MobileClient.MobileRelayClient.SendInput | Clients/ClaudeHubMobile/Services/MobileRelayClient.swift:72-79 | moves as the model's SendInput |
| MobileClient.MobileRelayClient.SendResize | Clients/ClaudeHubMobile/Services/MobileRelayClient.swift:81-88 | moves as the model's SendResize |
| MobileClient.MobileRelayClient.OpenSession | Clients/ClaudeHubMobile/Services/MobileRelayClient.swift:90-97 | moves as the model's OpenSession |
| MobileClient.MobileRelayClient.HandleIncomingText | Clients/ClaudeHubMobile/Services/MobileRelayClient.swift:129-173 | moves as the model's HandleIncomingText |
| MobileClient.MobileRelayClient.Apply | Clients/ClaudeHubMobile/Services/MobileRelayClient.swift:140-172 | moves as the model's Apply |
| MobileClient.MobileRelayClient.HandlePairingSuccess | Clients/ClaudeHubMobile/Services/MobileRelayClient.swift:141-148 | moves as PairingSuccessReceived |
| MobileClient.MobileRelayClient.HandleChallenge | Clients/ClaudeHubMobile/Services/MobileRelayClient.swift:175-185 | moves as the model's HandleChallenge |
| MobileClient.MobileRelayClient.HandleAuthenticated | Clients/ClaudeHubMobile/Services/MobileRelayClient.swift:187-196 | moves as the model's HandleAuthenticated |
| MobileClient.MobileRelayClient.ReceiveFailed | Clients/ClaudeHubMobile/Services/MobileRelayClient.swift:122-123 | moves as the model's ReceiveFailed: only the status text is reported |
| StoreModel.Initial | Clients/ClaudeHubMobile/Services/MobileAppStore.swift:6-16 | a fresh store has no sessions or selection; without a stored host it is disconnected with the welcome text; with one it shows the host, is connecting and asks to reconnect once (also lines 90-95) |
| StoreModel.FirstIndex | Clients/ClaudeHubMobile/Services/MobileAppStore.swift:47-83 | the index of the first session with the id, or none exactly when no session has it |
| StoreModel.SelectedSession | Clients/ClaudeHubMobile/Services/MobileAppStore.swift:98-101 | the selected session is a listed session with the selected id, or none when nothing is selected or no listed session matches |
| StoreModel.Preview | Clients/ClaudeHubMobile/Services/MobileAppStore.swift:78-87 | the preview is at most 80 characters, starts with no blank, and is empty exactly when the chunk is all whitespace |
| StoreModel.OnSessionList | Clients/ClaudeHubMobile/Services/MobileAppStore.swift:33-43 | a session list replaces the sessions wholesale, one entry per summary with the same fields and an empty transcript; nothing else changes |
| StoreModel.SessionUpdateTouchesOnlyMatch | Clients/ClaudeHubMobile/Services/MobileAppStore.swift:45-56 | an update changes only status, name and hasUnread of the matching session, lastPreview only when the new one is non-empty; an unknown id changes nothing |
| StoreModel.OutputAppendsToTranscript | Clients/ClaudeHubMobile/Services/MobileAppStore.swift:81-88 | output appends the chunk to the first matching session's transcript and sets its preview from the chunk; no other session changes; an unknown id changes nothing |
| StoreModel.SnapshotReplacesTranscript | Clients/ClaudeHubMobile/Services/MobileAppStore.swift:72-79 | a snapshot replaces the matching session's transcript rather than appending, and sets its preview |
| StoreModel.PairOutcomes | Clients/ClaudeHubMobile/Services/MobileAppStore.swift:103-113 | pairing sets state pairing and connects with the parsed payload, showing "Pairing in progress…"; a parse failure shows the error text and sets disconnected |
| StoreModel.ReconnectIfNeededStep | Clients/ClaudeHubMobile/Services/MobileAppStore.swift:122-126 | does nothing exactly when already authenticated; otherwise sets connecting and asks the client to reconnect |
| StoreModel.OpenOnceThenResize | Clients/ClaudeHubMobile/Services/MobileAppStore.swift:140-152 | after prepareToOpenSession, the first open sends open-session and clears the pending id; the next call only resizes |
| StoreModel.OtherSessionOnlyResized | Clients/ClaudeHubMobile/Services/MobileAppStore.swift:145-151 | for a session that is not pending, openSessionIfNeeded only resizes |
| StoreModel.CreationEndsWithNewSessionPending | Clients/ClaudeHubMobile/Services/MobileAppStore.swift:67-70 | createSession sets isCreatingSession; session-created clears it and selects the new session as pending-open (also lines 158-177) |
| AppStore.FindSession | Clients/ClaudeHubMobile/Services/MobileAppStore.swift:47 | the search loop finds the first index with the id, as FirstIndex says |
| AppStore.MobileAppStore.constructor | Clients/ClaudeHubMobile/Services/MobileAppStore.swift:18-96 | starts in the model's initial state |
| AppStore.MobileAppStore.OnSessionList | Clients/ClaudeHubMobile/Services/MobileAppStore.swift:33-43 | moves as the model's OnSessionList |
| AppStore.MobileAppStore.OnSessionUpdated | Clients/ClaudeHubMobile/Services/MobileAppStore.swift:45-56 | moves as the model's OnSessionUpdated |
| AppStore.MobileAppStore.OnTerminalSnapshot | Clients/ClaudeHubMobile/Services/MobileAppStore.swift:72-79 | moves as the model's OnTerminalSnapshot |
| AppStore.MobileAppStore.OnTerminalOutput | Clients/ClaudeHubMobile/Services/MobileAppStore.swift:81-88 | moves as the model's OnTerminalOutput |
| AppStore.MobileAppStore.OnStatusText | Clients/ClaudeHubMobile/Services/MobileAppStore.swift:19-21 | moves as the model's OnStatusText |
| AppStore.MobileAppStore.OnPairingSuccess | Clients/ClaudeHubMobile/Services/MobileAppStore.swift:23-26 | moves as the model's OnPairingSuccess |
| AppStore.MobileAppStore.OnClientAuthenticated | Clients/ClaudeHubMobile/Services/MobileAppStore.swift:28-31 | moves as the model's OnClientAuthenticated |
| AppStore.MobileAppStore.OnDisconnected | Clients/ClaudeHubMobile/Services/MobileAppStore.swift:58-60 | moves as the model's OnDisconnected |
| AppStore.MobileAppStore.OnProjectPathsList | Clients/ClaudeHubMobile/Services/MobileAppStore.swift:62-65 | moves as the model's OnProjectPathsList |
| AppStore.MobileAppStore.OnSessionCreated | Clients/ClaudeHubMobile/Services/MobileAppStore.swift:67-70 | moves as the model's OnSessionCreated |
| AppStore.MobileAppStore.Deliver | Clients/ClaudeHubMobile/Services/MobileAppStore.swift:18-88 | routes one client callback as the model's Deliver |
| AppStore.MobileAppStore.Pair | Clients/ClaudeHubMobile/Services/MobileAppStore.swift:103-113 | moves as the model's Pair |
| AppStore.MobileAppStore.Reconnect | Clients/ClaudeHubMobile/Services/MobileAppStore.swift:115-119 | moves as the model's Reconnect |
| AppStore.MobileAppStore.ReconnectIfNeeded | Clients/ClaudeHubMobile/Services/MobileAppStore.swift:122-126 | moves as ReconnectIfNeededStep |
| AppStore.MobileAppStore.PrepareToOpenSession | Clients/ClaudeHubMobile/Services/MobileAppStore.swift:140-143 | moves as the model's PrepareToOpenSession |
| AppStore.MobileAppStore.OpenSessionIfNeeded | Clients/ClaudeHubMobile/Services/MobileAppStore.swift:145-152 | moves as the model's OpenSessionIfNeeded |
| StoreModel.Forward | Clients/ClaudeHubMobile/Services/MobileAppStore.swift:128-138 | refreshing, sending input and resizing each hand exactly one request to the relay client and change nothing else (also lines 154-156) |
| AppStore.MobileAppStore.RefreshSessions | Clients/ClaudeHubMobile/Services/MobileAppStore.swift:128-130 | asks the client for the session list once and changes nothing else |
| AppStore.MobileAppStore.SendInput | Clients/ClaudeHubMobile/Services/MobileAppStore.swift:132-134 | hands the text for the session to the client once and changes nothing else |
| AppStore.MobileAppStore.SendResize | Clients/ClaudeHubMobile/Services/MobileAppStore.swift:136-138 | hands the size for the session to the client once and changes nothing else |
| AppStore.MobileAppStore.RequestProjectPaths | Clients/ClaudeHubMobile/Services/MobileAppStore.swift:154-156 | asks the client for the project paths once and changes nothing else |
| AppStore.MobileAppStore.CreateSession | Clients/ClaudeHubMobile/Services/MobileAppStore.swift:158-177 | moves as CreateSessionStep |
| Protocol.AsWrittenAuthenticationIgnoredByPhone | Clients/ClaudeHubMobile/Services/MobileRelayClient.swift:154-156 | the phone ignores the relay's client-authenticated frame as written, so it never asks for sessions |
| Protocol.CorrectedAuthenticationListsSessions | Clients/ClaudeHubMobile/Services/MobileRelayClient.swift:154-196 | with the corrected payload the phone sends one list-sessions and the store becomes authenticated, showing the paired host |
| Protocol.ScannedPairingRequestAccepted | ClaudeHub/Utilities/RemoteAgentService.swift:459-482 | the QR the host shows for a relay pairing-created parses on the phone, and the pairing request it sends is one the relay accepts |
| TerminalCoordinator.ShownAppend | Clients/ClaudeHubMobile/Views/Terminal/RemoteTerminalView.swift:59-61 | feeding characters after earlier feeds shows the earlier text followed by them |
| TerminalCoordinator.RenderShowsTranscript | Clients/ClaudeHubMobile/Views/Terminal/RemoteTerminalView.swift:55-69 | after render the terminal shows exactly the transcript; an unchanged transcript feeds nothing; an extension by whole code points feeds only the new suffix |
| TerminalCoordinator.FreshIsValid | Clients/ClaudeHubMobile/Views/Terminal/RemoteTerminalView.swift:41-42 | a new coordinator satisfies the invariant: nothing shown, nothing reported |
| TerminalCoordinator.RenderAndSendKeepValid | Clients/ClaudeHubMobile/Views/Terminal/RemoteTerminalView.swift:55-75 | render and typed input keep the invariant (terminal shows the last transcript, sizes reported as before) |
| TerminalCoordinator.ResizeKeepsValid | Clients/ClaudeHubMobile/Views/Terminal/RemoteTerminalView.swift:77-89 | a size change keeps the invariant: one initial size at most and before any resize, no size reported twice in a row, lastSize the last reported |
| TerminalCoordinator.SizeReportedOncePerChange | Clients/ClaudeHubMobile/Views/Terminal/RemoteTerminalView.swift:77-89 | a repeated size reports nothing; a new one is reported once, as the initial size if it is the first and as a resize otherwise |
| TerminalCoordinator.Coordinator.constructor | Clients/ClaudeHubMobile/Views/Terminal/RemoteTerminalView.swift:40-53 | starts with nothing shown and nothing reported |
| TerminalCoordinator.Coordinator.Render | Clients/ClaudeHubMobile/Views/Terminal/RemoteTerminalView.swift:55-69 | moves as Rendered |
| TerminalCoordinator.Coordinator.Send | Clients/ClaudeHubMobile/Views/Terminal/RemoteTerminalView.swift:71-75 | moves as Sent: non-empty decoded input is forwarded, empty input dropped |
| TerminalCoordinator.Coordinator.SizeChanged | Clients/ClaudeHubMobile/Views/Terminal/RemoteTerminalView.swift:77-89 | moves as Resized |
| SessionStatuses.FromRaw | Packages/ClaudeHubCore/Sources/Models/SessionStatus.swift:5-10 | the case whose raw value is the string, and none exactly when no case has that raw value |
| SessionStatuses.AllCasesListedOnce | Packages/ClaudeHubCore/Sources/Models/SessionStatus.swift:5-10 | allCases lists every case, with pairwise distinct raw values |
| SessionStatuses.RawValueRoundTrip | Packages/ClaudeHubCore/Sources/Models/SessionStatus.swift:5-10 | decoding a case's raw value gives the case back |
| SessionStatuses.DisplayName | Packages/ClaudeHubCore/Sources/Models/SessionStatus.swift:12-20 | the display name is the raw value capitalised, except toolUse which reads "Tool Use" |
| SessionStatuses.TablesDistinguishCases | Packages/ClaudeHubCore/Sources/Models/SessionStatus.swift:12-40 | distinct cases have distinct display names, symbol names and colour names |
| SessionModels.StatusOf | Packages/ClaudeHubCore/Sources/Models/Session.swift:33-34 | the status read from statusRaw: the case it names, or disconnected when it names none |
| SessionModels.StatusSetThenGet | Packages/ClaudeHubCore/Sources/Models/Session.swift:33-36 | setting a status and reading it back gives the same status |
| SessionModels.NewSession | Packages/ClaudeHubCore/Sources/Models/Session.swift:48-72 | a new session is disconnected, not archived, sort order 0, empty preview, created and active now, and works in the given directory or else the project path |
| SessionModels.Session.constructor | Packages/ClaudeHubCore/Sources/Models/Session.swift:48-72 | the new object holds NewSession's record |
| SessionModels.Session.SetStatus | Packages/ClaudeHubCore/Sources/Models/Session.swift:35 | stores the raw value, so the status reads back as set |
| SessionModels.SessionGroup.constructor | Packages/ClaudeHubCore/Sources/Models/SessionGroup.swift:10-14 | a group holds the given id, name and sort order |
| StatusDetection.LinesOf | Packages/ClaudeHubCore/Sources/Services/StatusDetector.swift:64 | the lines of a chunk are its newline-separated pieces, none of them empty and none holding a line break |
| StatusDetection.Processed | Packages/ClaudeHubCore/Sources/Services/StatusDetector.swift:57-103 | a blank chunk changes nothing and reports no status; otherwise the chunk's lines are appended, the buffer keeps only the newest 50, and the status is classified from the last 5 |
| StatusDetection.ProcessingKeepsBufferValid | Packages/ClaudeHubCore/Sources/Services/StatusDetector.swift:64-68 | processing keeps the buffer at no more than 50 lines and free of empty lines |
| StatusDetection.ErrorInWindowWins | Packages/ClaudeHubCore/Sources/Services/StatusDetector.swift:74-79 | any error pattern in the last five lines makes the status error, whatever else they hold |
| StatusDetection.ToolUseInWindowWins | Packages/ClaudeHubCore/Sources/Services/StatusDetector.swift:81-85 | without error patterns, a tool-use pattern makes the status toolUse |
| StatusDetection.ThinkingInWindowWins | Packages/ClaudeHubCore/Sources/Services/StatusDetector.swift:87-91 | without error or tool-use patterns, a thinking pattern makes the status thinking |
| StatusDetection.TrimmedPrompt | Packages/ClaudeHubCore/Sources/Services/StatusDetector.swift:94-96 | trimming a prompt line such as "> " removes its trailing blank, so hasSuffix on the prompt pattern never fires on the trimmed line |
| StatusDetection.IdleOnlyOnBarePrompt | Packages/ClaudeHubCore/Sources/Services/StatusDetector.swift:94-100 | the trimmed last line counts as idle exactly when it is a bare prompt ">", "❯" or "$" |
| StatusDetection.IdleIsBarePrompt | Packages/ClaudeHubCore/Sources/Services/StatusDetector.swift:94-100 | a trimmed line that looks idle is one of the bare prompts |
| StatusDetection.BarePromptIsIdle | Packages/ClaudeHubCore/Sources/Services/StatusDetector.swift:96 | each bare prompt looks idle |
| StatusDetection.NoSpaceSuffix | Packages/ClaudeHubCore/Sources/Services/StatusDetector.swift:94-96 | a line that ends in no blank does not end in a pattern ending with one |
| StatusDetection.FindPattern | Packages/ClaudeHubCore/Sources/Services/StatusDetector.swift:75-91 | the pattern loop answers whether any of the patterns occurs in the text |
| StatusDetection.MatchesIdlePattern | Packages/ClaudeHubCore/Sources/Services/StatusDetector.swift:94-98 | the prompt loop answers whether the last line ends with some prompt pattern or equals one once trimmed |
| StatusDetection.DetectStatus | Packages/ClaudeHubCore/Sources/Services/StatusDetector.swift:72-102 | the priority checks compute Classify: error, then toolUse, then thinking, then idle, else none |
| StatusDetection.StatusDetector.constructor | Packages/ClaudeHubCore/Sources/Services/StatusDetector.swift:50-54 | starts with an empty, valid buffer |
| StatusDetection.StatusDetector.ProcessOutput | Packages/ClaudeHubCore/Sources/Services/StatusDetector.swift:57-103 | updates the buffer and returns the status as Processed says, keeping the buffer valid |
| StatusDetection.StatusDetector.Reset | Packages/ClaudeHubCore/Sources/Services/StatusDetector.swift:117-121 | empties the buffer |
| StatusDetection.StatusDetector.ExtractPreview | Packages/ClaudeHubCore/Sources/Services/StatusDetector.swift:124-135 | returns the last line that trims to more than two characters and holds no thinking pattern, and none exactly when there is no such line |
| ToolCalls.FirstToolFrom | Packages/ClaudeHubCore/Sources/Services/MCPMonitor.swift:49-50 | finds the first table entry from a given position whose marker text occurs in the line, or none exactly when no later entry occurs |
| ToolCalls.ToolPreview | Packages/ClaudeHubCore/Sources/Services/MCPMonitor.swift:86-95 | without the marker the preview is the whole line; otherwise it has no ")" and at most 100 characters |
| ToolCalls.LineProcessed | Packages/ClaudeHubCore/Sources/Services/MCPMonitor.swift:41-70 | a line without the bullet or without a known tool reports nothing and leaves the history; a call is appended, dropping the oldest beyond 100 |
| ToolCalls.FirstMatchReported | Packages/ClaudeHubCore/Sources/Services/MCPMonitor.swift:45-65 | a bulleted line is reported under the first matching entry's name, with its preview and the given time |
| ToolCalls.ReportedOnlyOnMatch | Packages/ClaudeHubCore/Sources/Services/MCPMonitor.swift:45-50 | a call is reported only for a line with the bullet and a matching table entry |
| ToolCalls.HistoryBounded | Packages/ClaudeHubCore/Sources/Services/MCPMonitor.swift:59-62 | the history never exceeds 100 calls, and a reported call is its newest entry |
| ToolCalls.MatchTool | Packages/ClaudeHubCore/Sources/Services/MCPMonitor.swift:49-50 | the table loop finds the first matching entry |
| ToolCalls.MCPMonitor.constructor | Packages/ClaudeHubCore/Sources/Services/MCPMonitor.swift:19-38 | starts with no history |
| ToolCalls.MCPMonitor.ProcessLine | Packages/ClaudeHubCore/Sources/Services/MCPMonitor.swift:41-70 | updates the history and returns the call as LineProcessed says |
| ToolCalls.MCPMonitor.GetRecentCalls | Packages/ClaudeHubCore/Sources/Services/MCPMonitor.swift:73-77 | returns the newest min(limit, count) calls, oldest first |
| ToolCalls.MCPMonitor.Reset | Packages/ClaudeHubCore/Sources/Services/MCPMonitor.swift:80-84 | empties the history |
| OutputParsing.FanoutStep | Packages/ClaudeHubTerminal/Sources/TerminalOutputParser.swift:63-71 | sending the lines one more line further is one more monitor step |
| OutputParsing.FanoutKeepsBound | Packages/ClaudeHubTerminal/Sources/TerminalOutputParser.swift:63-71 | feeding lines to the monitor keeps its history within 100, only adds tool-call events, and adds at most one per line |
| OutputParsing.ChunkAlwaysPersisted | Packages/ClaudeHubTerminal/Sources/TerminalOutputParser.swift:36-41 | every chunk is appended to the scrollback; a chunk that is not UTF-8 changes nothing else |
| OutputParsing.StatusReportedOnlyOnChange | Packages/ClaudeHubTerminal/Sources/TerminalOutputParser.swift:44-52 | a status is reported exactly when the detector returns one that differs from the last reported; otherwise the last status and the reports stay |
| OutputParsing.EveryLineMonitored | Packages/ClaudeHubTerminal/Sources/TerminalOutputParser.swift:62-71 | every line of the chunk, empty ones included, goes to the monitor in order; the history stays within 100 and events only grow |
| OutputParsing.ResetReportsNextStatus | Packages/ClaudeHubTerminal/Sources/TerminalOutputParser.swift:44-86 | after reset, whatever status the detector reports next is reported |
| OutputParsing.TerminalOutputParser.constructor | Packages/ClaudeHubTerminal/Sources/TerminalOutputParser.swift:23-33 | starts from the detector's and monitor's state, with no last status and no reports |
| OutputParsing.TerminalOutputParser.ProcessData | Packages/ClaudeHubTerminal/Sources/TerminalOutputParser.swift:36-72 | moves as DataProcessed and keeps the detector valid |
| OutputParsing.TerminalOutputParser.CheckStatus | Packages/ClaudeHubTerminal/Sources/TerminalOutputParser.swift:44-52 | moves as StatusChecked |
| OutputParsing.TerminalOutputParser.PublishPreview | Packages/ClaudeHubTerminal/Sources/TerminalOutputParser.swift:55-60 | moves as Previewed: the detector's preview, when there is one, is published |
| OutputParsing.TerminalOutputParser.MonitorLine | Packages/ClaudeHubTerminal/Sources/TerminalOutputParser.swift:65-70 | one monitor step: the monitor's history and the reported tool calls move as MonitorStep |
| OutputParsing.TerminalOutputParser.MonitorLines | Packages/ClaudeHubTerminal/Sources/TerminalOutputParser.swift:63-71 | the loop over the lines moves as Fanout |
| OutputParsing.TerminalOutputParser.ProcessString | Packages/ClaudeHubTerminal/Sources/TerminalOutputParser.swift:75-79 | processes the text's UTF-8 bytes as ProcessData does |
| OutputParsing.TerminalOutputParser.Reset | Packages/ClaudeHubTerminal/Sources/TerminalOutputParser.swift:82-86 | clears the detector's lines, the monitor's history and the last status |
| ProcessManagement.WithNewline | Packages/ClaudeHubCore/Sources/Services/ProcessManager.swift:53 | the broadcast text ends in a line feed; a prompt whose last Character is a lone line feed is kept, any other (including one ending in CR LF, a single Character) gets one added |
| ProcessManagement.CrLfPromptGetsLineFeed | Packages/ClaudeHubCore/Sources/Services/ProcessManager.swift:53 | a prompt ending in CR LF is sent with a further line feed, since Swift's hasSuffix("\n") is false for it |
| ProcessManagement.WithNewlineIdempotent | Packages/ClaudeHubCore/Sources/Services/ProcessManager.swift:53 | adding the newline twice is the same as once, except for a prompt ending in a carriage return, which gets two line feeds |
| ProcessManagement.Registered | Packages/ClaudeHubCore/Sources/Services/ProcessManager.swift:54-56 | the ids a broadcast reaches are registered ones |
| ProcessManagement.RegisteredCounts | Packages/ClaudeHubCore/Sources/Services/ProcessManager.swift:54-56 | a broadcast reaches a registered id as often as it is listed and an unregistered one never |
| ProcessManagement.BroadcastReachesRegistered | Packages/ClaudeHubCore/Sources/Services/ProcessManager.swift:54-56 | the broadcast sends the text once per registered listed id, in list order, to that id's process |
| ProcessManagement.BroadcastToAllReachesEach | Packages/ClaudeHubCore/Sources/Services/ProcessManager.swift:60-62 | broadcasting over the table's own keys reaches each registered session exactly once |
| ProcessManagement.Pids | Packages/ClaudeHubCore/Sources/Services/ProcessManager.swift:77-79 | the pids of the listed sessions, one per id, in order |
| ProcessManagement.ProcessManager.constructor | Packages/ClaudeHubCore/Sources/Services/ProcessManager.swift:26-28 | starts with no processes and nothing delivered or terminated |
| ProcessManagement.ProcessManager.Register | Packages/ClaudeHubCore/Sources/Services/ProcessManager.swift:31-33 | stores the process under its session id, replacing any earlier one |
| ProcessManagement.ProcessManager.Unregister | Packages/ClaudeHubCore/Sources/Services/ProcessManager.swift:36-38 | removes the session's entry |
| ProcessManagement.ProcessManager.SendInput | Packages/ClaudeHubCore/Sources/Services/ProcessManager.swift:41-43 | the text reaches the session's process when it is registered; nothing happens otherwise |
| ProcessManagement.ProcessManager.ResizeTerminal | Packages/ClaudeHubCore/Sources/Services/ProcessManager.swift:46-49 | a positive size reaches the registered session's process; a non-positive one or an unknown session does nothing |
| ProcessManagement.ProcessManager.Broadcast | Packages/ClaudeHubCore/Sources/Services/ProcessManager.swift:52-57 | delivers WithNewline(prompt) to each registered listed session in order |
| ProcessManagement.ProcessManager.Keys | Packages/ClaudeHubCore/Sources/Services/ProcessManager.swift:61 | the table's keys, each once |
| ProcessManagement.ProcessManager.BroadcastToAll | Packages/ClaudeHubCore/Sources/Services/ProcessManager.swift:60-62 | broadcasts to every registered session, in some order, each once |
| ProcessManagement.ProcessManager.KillProcess | Packages/ClaudeHubCore/Sources/Services/ProcessManager.swift:65-73 | a registered session's pid is signalled and its entry removed; an unknown session changes nothing |
| ProcessManagement.ProcessManager.KillAll | Packages/ClaudeHubCore/Sources/Services/ProcessManager.swift:76-86 | every registered pid is signalled once and the table is emptied |
| ProcessManagement.ProcessManager.IsActive | Packages/ClaudeHubCore/Sources/Services/ProcessManager.swift:89-91 | true exactly when the session is registered |
| ProcessManagement.ProcessManager.Pid | Packages/ClaudeHubCore/Sources/Services/ProcessManager.swift:94-96 | the registered session's pid, and none exactly when it is not registered |
| SessionManagement.InsertByKey | Packages/ClaudeHubCore/Sources/Services/SessionManager.swift:83 | inserting one pair into a list sorted by key keeps it sorted and adds exactly that pair |
| SessionManagement.SortByKey | Packages/ClaudeHubCore/Sources/Services/SessionManager.swift:83 | the sort by sortOrder returns a permutation of its input, in ascending key order (also line 131) |
| SessionManagement.SecondsPermutation | Packages/ClaudeHubCore/Sources/Services/SessionManager.swift:81-89 | permuted (order, record) pairs give permuted records |
| SessionManagement.Visible | Packages/ClaudeHubCore/Sources/Services/SessionManager.swift:85-87 | the fetched sessions are exactly the unarchived ones, or all when archived ones are included, each no more often than stored |
| SessionManagement.MaxSessionOrder | Packages/ClaudeHubCore/Sources/Services/SessionManager.swift:35-38 | the largest sortOrder among the sessions, or -1 when there are none |
| SessionManagement.MaxGroupOrder | Packages/ClaudeHubCore/Sources/Services/SessionManager.swift:103-106 | the largest sortOrder among the groups, or -1 when there are none |
| SessionManagement.Without | Packages/ClaudeHubCore/Sources/Services/SessionManager.swift:47 | deleting removes exactly the given object and keeps the others, without creating duplicates (also line 125) |
| SessionManagement.SessionManager.constructor | Packages/ClaudeHubCore/Sources/Services/SessionManager.swift:9-13 | starts with no sessions, no groups and no selection |
| SessionManagement.SessionManager.CreateSession | Packages/ClaudeHubCore/Sources/Services/SessionManager.swift:17-44 | inserts a new session built as NewSession, with sortOrder one above the largest stored, so after every existing session |
| SessionManagement.SessionManager.DeleteSession | Packages/ClaudeHubCore/Sources/Services/SessionManager.swift:46-49 | removes the session from the store |
| SessionManagement.SessionManager.ArchiveSession | Packages/ClaudeHubCore/Sources/Services/SessionManager.swift:51-55 | marks the session archived and active now; nothing else about it changes |
| SessionManagement.SessionManager.RenameSession | Packages/ClaudeHubCore/Sources/Services/SessionManager.swift:57-60 | changes only the name |
| SessionManagement.SessionManager.UpdateSessionStatus | Packages/ClaudeHubCore/Sources/Services/SessionManager.swift:62-66 | stores the status's raw value, so it reads back as set, and marks the session active now |
| SessionManagement.SessionManager.UpdateLastPreview | Packages/ClaudeHubCore/Sources/Services/SessionManager.swift:68-72 | stores the first 200 characters of the preview, the whole preview when it is shorter, and marks the session active now |
| SessionManagement.SessionManager.ReorderSessions | Packages/ClaudeHubCore/Sources/Services/SessionManager.swift:74-79 | each listed session gets the index of its last listing as sortOrder; nothing else about the sessions changes |
| SessionManagement.SessionManager.FetchSessions | Packages/ClaudeHubCore/Sources/Services/SessionManager.swift:81-89 | returns a permutation of the visible sessions in ascending sortOrder |
| SessionManagement.SessionManager.FetchSession | Packages/ClaudeHubCore/Sources/Services/SessionManager.swift:91-97 | returns a stored session with the id, or none exactly when no stored session has it |
| SessionManagement.SessionManager.CreateGroup | Packages/ClaudeHubCore/Sources/Services/SessionManager.swift:101-112 | inserts a new group named as given, with sortOrder one above the largest stored |
| SessionManagement.SessionManager.DeleteGroup | Packages/ClaudeHubCore/Sources/Services/SessionManager.swift:114-127 | unassigns every session of the group, leaves all other sessions as they were, and removes the group |
| SessionManagement.SessionManager.FetchGroups | Packages/ClaudeHubCore/Sources/Services/SessionManager.swift:129-134 | returns a permutation of the groups in ascending sortOrder |
| SessionManagement.SessionManager.AssignSession | Packages/ClaudeHubCore/Sources/Services/SessionManager.swift:136-139 | sets the session's group id to the group's, or clears it when no group is given |
| ShellQuoting.Quoted | Packages/ClaudeHubCore/Sources/Services/GitWorktreeService.swift:146-148 | the quoted word starts and ends with a single quote |
| ShellQuoting.IndexOf | Packages/ClaudeHubCore/Sources/Services/GitWorktreeService.swift:147 | the first position of the character, or none exactly when it does not occur |
| ShellQuoting.QuotedPlain | Packages/ClaudeHubCore/Sources/Services/GitWorktreeService.swift:146-148 | a path without single quotes, quoted, reads back as itself |
| ShellQuoting.QuotedAtFirstQuote | Packages/ClaudeHubCore/Sources/Services/GitWorktreeService.swift:147 | each embedded quote closes the quoting, is escaped and reopens it, and the word still reads back as the path |
| ShellQuoting.QuotedRoundTrip | Packages/ClaudeHubCore/Sources/Services/GitWorktreeService.swift:146-148 | every path, quoted, is read by the shell as one word equal to the path |
| GitWorktrees.PaddedTrueIsRepo | Packages/ClaudeHubCore/Sources/Services/GitWorktreeService.swift:18-21 | output "true" with any whitespace and newlines around it means a repository |
| GitWorktrees.RepoIsPaddedTrue | Packages/ClaudeHubCore/Sources/Services/GitWorktreeService.swift:18-21 | output means a repository only when it is "true" with nothing but whitespace and newlines around it |
| GitWorktrees.ShortID | Packages/ClaudeHubCore/Sources/Services/GitWorktreeService.swift:29 | the short id is the first eight characters of the UUID text, lower-cased |
| GitWorktrees.BranchName | Packages/ClaudeHubCore/Sources/Services/GitWorktreeService.swift:30 | the branch name lies under "claudehub/" |
| GitWorktrees.AppendingPathComponent | Packages/ClaudeHubCore/Sources/Services/GitWorktreeService.swift:31-34 | appending to an empty base gives the component; otherwise the result starts with the base and ends with the component, joined by one "/" when the base has no trailing slash |
| GitWorktrees.LastComponentAfterSlash | Packages/ClaudeHubCore/Sources/Services/GitWorktreeService.swift:31-34 | a slash-free component after a slash is the last path component |
| GitWorktrees.AppendedIsLast | Packages/ClaudeHubCore/Sources/Services/GitWorktreeService.swift:31-34 | a non-empty slash-free component appended to any base is the last path component |
| GitWorktrees.WorktreeNaming | Packages/ClaudeHubCore/Sources/Services/GitWorktreeService.swift:29-34 | for a UUID, the short id is eight lower-case hex digits; it is the last component of both the worktree path and the branch, and the worktree lies in ".claudehub-worktrees" under the project |
| GitWorktrees.ShortIDIsHex | Packages/ClaudeHubCore/Sources/Services/GitWorktreeService.swift:29 | the short id of a UUID is eight lower-case hex digits with no slash |
| GitWorktrees.BranchLastComponent | Packages/ClaudeHubCore/Sources/Services/GitWorktreeService.swift:30 | the branch's last component is the short id |
| GitWorktrees.CreateWorktree | Packages/ClaudeHubCore/Sources/Services/GitWorktreeService.swift:25-62 | runs worktree add -b with quoted operands, and only when the path is then missing retries on the existing branch; succeeds with (path, branch) exactly when one of the checks found the path |
| GitWorktrees.RemoveWorktree | Packages/ClaudeHubCore/Sources/Services/GitWorktreeService.swift:104-123 | removes the worktree by force first and prunes last, deleting the quoted branch in between only when asked to and a branch is named |
| GitWorktrees.RemoveOperandsReadBack | Packages/ClaudeHubCore/Sources/Services/GitWorktreeService.swift:111-148 | the project path, worktree path and branch each reach git as one shell word that reads back as itself |
| GitWorktrees.Flushed | Packages/ClaudeHubCore/Sources/Services/GitWorktreeService.swift:74-98 | a pending path becomes a record, with branch "detached" and head "" when those lines were missing; with no pending path nothing is added |
| GitWorktrees.ScanConcat | Packages/ClaudeHubCore/Sources/Services/GitWorktreeService.swift:72-90 | scanning two runs of lines is scanning the first and then the second |
| GitWorktrees.ScanBlock | Packages/ClaudeHubCore/Sources/Services/GitWorktreeService.swift:84-89 | lines without "worktree " keep the records and the path; the last HEAD and branch lines win |
| GitWorktrees.Record | Packages/ClaudeHubCore/Sources/Services/GitWorktreeService.swift:74-81 | a block's record has the path after "worktree ", "detached" without a branch line and "" without a HEAD line |
| GitWorktrees.NoWorktreeLineNoRecord | Packages/ClaudeHubCore/Sources/Services/GitWorktreeService.swift:72-98 | output without any "worktree " line lists no worktrees |
| GitWorktrees.BlockAddsRecord | Packages/ClaudeHubCore/Sources/Services/GitWorktreeService.swift:72-98 | a "worktree " line and the lines up to the next one add exactly that block's record at the end |
| GitWorktrees.Paths | Packages/ClaudeHubCore/Sources/Services/GitWorktreeService.swift:65-101 | the paths of the records, in order |
| GitWorktrees.ScanPaths | Packages/ClaudeHubCore/Sources/Services/GitWorktreeService.swift:72-98 | the records so far plus the pending path are the paths of the "worktree " lines seen |
| GitWorktrees.OneRecordPerWorktreeLine | Packages/ClaudeHubCore/Sources/Services/GitWorktreeService.swift:65-101 | the listing has one record per "worktree " line, in order, with that line's path |
| GitWorktrees.ListWorktrees | Packages/ClaudeHubCore/Sources/Services/GitWorktreeService.swift:65-101 | the loop over the lines computes the parse of the output |
| ChildProcesses.ParseInt32 | ClaudeHub/Utilities/ChildProcessMonitor.swift:91 | a parsed pid lies in the Int32 range; the empty string parses to nothing |
| ChildProcesses.Decimal | ClaudeHub/Utilities/ChildProcessMonitor.swift:77 | the decimal text of a pid is non-empty digits |
| ChildProcesses.DecimalValueOfDecimal | ClaudeHub/Utilities/ChildProcessMonitor.swift:77-91 | decimal text reads back as the number |
| ChildProcesses.ParsePrintedPid | ClaudeHub/Utilities/ChildProcessMonitor.swift:91 | a printed pid within Int32 parses back to itself |
| ChildProcesses.ParsedPids | ClaudeHub/Utilities/ChildProcessMonitor.swift:91 | at most one pid per line, each within Int32 |
| ChildProcesses.SplitOfJoin | ClaudeHub/Utilities/ChildProcessMonitor.swift:91 | splitting lines joined by a separator they lack gives the lines back |
| ChildProcesses.PrintedPids | ClaudeHub/Utilities/ChildProcessMonitor.swift:73-92 | the lines pgrep prints, one decimal pid each |
| ChildProcesses.PgrepOutputRead | ClaudeHub/Utilities/ChildProcessMonitor.swift:73-92 | pgrep output listing pids one per line reads back as exactly those pids, in order |
| ChildProcesses.PrintedPidsParse | ClaudeHub/Utilities/ChildProcessMonitor.swift:91 | each printed pid parses back, in order |
| ChildProcesses.MonitorListing | ClaudeHub/Utilities/ChildProcessMonitor.swift:50-70 | every listed process has the last path component of ps's trimmed name as name, a name neither empty nor a shell's, and lies below the parent (also lines 95-112) |
| ChildProcesses.DescendantsListed | ClaudeHub/Utilities/ChildProcessMonitor.swift:50-70 | every listed process is shown under its name and lies below the pid |
| ChildProcesses.VisitListed | ClaudeHub/Utilities/ChildProcessMonitor.swift:55-66 | visiting a child lists only displayable processes at or below it |
| ChildProcesses.ChildInPlace | ClaudeHub/Utilities/ChildProcessMonitor.swift:55-67 | the listing is the children's visits concatenated in pgrep order |
| ChildProcesses.DisplayableChildListed | ClaudeHub/Utilities/ChildProcessMonitor.swift:62-65 | a child with a displayable name is listed, followed by its own descendants |
| ChildProcesses.VisitCases | ClaudeHub/Utilities/ChildProcessMonitor.swift:58-66 | a shell is descended into but not shown; an empty name is skipped with its subtree; any other is shown before its descendants |
| ChildProcesses.FindDescendants | ClaudeHub/Utilities/ChildProcessMonitor.swift:50-70 | the loop over the children computes Descendants |
| ChildProcesses.ChildProcessMonitor.constructor | ClaudeHub/Utilities/ChildProcessMonitor.swift:13-16 | starts with no children, no parent and no polling |
| ChildProcesses.ChildProcessMonitor.Refresh | ClaudeHub/Utilities/ChildProcessMonitor.swift:39-47 | without a parent nothing changes; otherwise the children become the parent's descendants |
| ChildProcesses.ChildProcessMonitor.Start | ClaudeHub/Utilities/ChildProcessMonitor.swift:19-29 | records the parent, starts polling and scans once |
| ChildProcesses.ChildProcessMonitor.Stop | ClaudeHub/Utilities/ChildProcessMonitor.swift:32-36 | stops polling and clears the children |
| TerminalLaunch.ClaudeCommand | Packages/ClaudeHubTerminal/Sources/ClaudeTerminalView.swift:93-98 | the command is "claude" exactly when there are no flags, and otherwise "claude", a space and the flags |
| TerminalLaunch.ShellArgs | Packages/ClaudeHubTerminal/Sources/ClaudeTerminalView.swift:101 | the arguments are "-l", "-c" and a script that starts with a quoted cd and ends by running the command |
| TerminalLaunch.ScriptChangesToDirectory | Packages/ClaudeHubTerminal/Sources/ClaudeTerminalView.swift:101 | the cd operand is one shell word that reads back as the working directory, whatever it holds (also lines 149-151) |
| TerminalLaunch.EnvironmentOverrides | Packages/ClaudeHubTerminal/Sources/ClaudeTerminalView.swift:84-91 | the environment holds the inherited and custom keys plus TERM and COLORTERM; custom values win over inherited ones; TERM and COLORTERM are forced |
| TerminalLaunch.MergeEnvironment | Packages/ClaudeHubTerminal/Sources/ClaudeTerminalView.swift:84-91 | the merge loop computes LaunchEnvironment |
| TerminalLaunch.CommandIsOneLine | Packages/ClaudeHubTerminal/Sources/ClaudeTerminalView.swift:159-161 | a command without line breaks arrives as exactly one complete line |
| TerminalLaunch.ClaudeTerminal.constructor | Packages/ClaudeHubTerminal/Sources/ClaudeTerminalView.swift:79-114 | starts with nothing launched and nothing written |
| TerminalLaunch.ClaudeTerminal.StartClaudeSession | Packages/ClaudeHubTerminal/Sources/ClaudeTerminalView.swift:79-114 | launches /bin/zsh with ShellArgs and the merged environment, and installs the input handler |
| TerminalLaunch.ClaudeTerminal.SendText | Packages/ClaudeHubTerminal/Sources/ClaudeTerminalView.swift:154-156 | writes the text as it is |
| TerminalLaunch.ClaudeTerminal.SendCommand | Packages/ClaudeHubTerminal/Sources/ClaudeTerminalView.swift:159-161 | writes the command and one newline |

## Left out

- Socket I/O. WebSocket setup, sending and closing become effects or ghost outbox entries. Frame order on the wire is the order of the effect list.
- Cryptography. ECDSA P-256 keys, DER signatures and base64 decoding are one parameter `valid(key, message, signature)`. Malformed keys and signatures are cases where it answers false.
- JSON text. Encoding and decoding are modelled on a `Value` datatype with objects as maps, not on characters. Key order and whitespace are not modelled.
- Dates. Dates are integer milliseconds. The relay's ISO-8601 dates keep milliseconds (main.swift:294-298). Peers encode with whole seconds, which drops the rest. The model assumes that the peers' `.iso8601` decoders (main.swift:300-304, MobileRelayClient.swift:268-272, RemoteAgentService.swift:541-546) accept the relay's fractional-second dates: `Json.GetDate` decodes every date. Whether they do depends on the platform. If they do not, every relay frame with a date fails its typed decode at the peer. These results rest on the assumption: `RelayServer.RelayFrameDecodes`, `RelayServer.CorrectedClientAuthRepliesIffVerified`, `Protocol.CorrectedAuthenticationListsSessions`, `Protocol.ScannedPairingRequestAccepted`, `AgentModel.ChallengeAnswered` and `MobileModel.ChallengeAnsweredWithSameNonce`.
- Clock, nonces and UUIDs. `Date()`, `makeNonce()` and `UUID()` are parameters. The model does not check that nonces are random or unique.
- Locking. NIOLock and NSLock sections are not modelled. Every call is one atomic step, so the race between two concurrent verifications of one challenge is not captured.
- Threads and timers. `@MainActor`, `DispatchQueue` hops and `async` are not modelled. Neither are the 15-second pairing timeout, the 1.5-second wait of the host agent before it types a new session's initial prompt (`ClaudeHub/Utilities/RemoteAgentService.swift:425-429`), nor the two-second poll of `ChildProcessMonitor`. Timer expiry is an explicit step.
- Set order. `activeClientIDs` is a Swift `Set` and is modelled as a sequence without duplicates, in first-contact order. Broadcasts follow that order; Swift's own order is unspecified.
- Dictionary order. `ProcessManager.broadcastToAll` and `killAll` iterate a dictionary. The model proves each registered session is reached exactly once, in some order it does not fix.
- Environment strings. The `key=value` strings handed to `startProcess` are not modelled; the model stops at the merged map.
- StatusDetection.Processed: `stripANSI` is the parameter `strip`. Its regular expression is not modelled.
- Characters. Swift `Character`s, meaning grapheme clusters, are modelled as Dafny `char`s. Counts such as the 80-, 100- and 200-character previews are therefore counted in code points. Prefix, suffix and containment tests also compare code points, while Swift compares Characters; the two differ when the tested boundary falls inside a cluster, such as CR LF or a letter followed by a combining mark. `ProcessManagement.WithNewline` is the exception: it models Swift's `hasSuffix("\n")` exactly, CR LF included.
- TerminalCoordinator.Rendered: the test whether the new transcript extends the last one is a code-point prefix test. Swift's `hasPrefix` compares Characters, so when the old transcript ends inside a cluster the new one completes (output "abc\r" and then "abc\r\n", a CR LF split across two chunks), Swift resets the terminal and feeds the whole transcript, while the model feeds only "\n". What the terminal shows afterwards is the transcript either way.
- TerminalCoordinator.RenderShowsTranscript: "an extension feeds only the new suffix" holds for code-point extensions; for an extension that completes a split cluster such as CR LF, the source resets and feeds the whole transcript instead (see `TerminalCoordinator.Rendered`).
- TerminalCoordinator.Coordinator.Render: moves as `Rendered`, so it carries the same code-point prefix test and the same difference from Swift on a split CR LF.
- Runtime.EncodeEmpty / Runtime.DecodeEmpty: the definition of `EmptyPayload` is not in the source files; it is only used (MobileRelayClient.swift:68, RemoteAgentService.swift:257 and 275). The model assumes it has no fields and decodes from any JSON object.
- Persistence. The scrollback store, SwiftData saves and the Keychain are left out. Scrollback appends are kept as a list of the chunks written.
- Signals. `kill` with SIGTERM is recorded as the pid signalled. The delayed SIGKILL is not modelled.
- `ProcessManager.cleanupStaleProcesses` is left out. It depends only on whether the operating system still has the pids.
- Directory side effects in worktrees. `createDirectory` and `removeItem` in `GitWorktreeService` are file-system effects and are not modelled. The `shell` helper is a parameter giving the command's output.
- GitWorktrees.AppendingPathComponent: `NSString.appendingPathComponent` also collapses repeated slashes and strips a trailing one from the result. The model joins with one slash and proves only what the worktree naming needs.
- ChildProcesses.FindDescendants: the process tree is walked to at most `fuel` levels. A tree deeper than the fuel is cut off there; the source recurses without a bound.
- ChildProcesses.ParseInt32: pids are mathematical integers checked against the Int32 range. The source's whitespace trimming before parsing follows `Trim`.
- The user interface. This covers SwiftUI views, themes, fonts, the QR image, `restoreScrollback`, `applyTheme`, `setFontSize` and the `processTerminated` callback.
- Message type names. `RemoteMessageType` is not part of this model. Its raw values are taken to be the kebab-case names used on the wire, and the proofs rely only on the names being distinct.
- SessionManagement.SessionManager.FetchSessions: sessions with equal `sortOrder` may come back in any order. The model proves a permutation sorted by `sortOrder` and does not fix ties.
- MobileModel.DeletingLastPathComponent: the URL is modelled as its text, and the last component is what follows the last `/` after trailing slashes are dropped. Foundation's URL parsing (percent-encoding, query and fragment, and a URL whose path is empty, where the cut would otherwise fall inside `://`) is not modelled; the model promises only that the result is a prefix of the URL and that text before any `/` is kept.
- MobileModel.SocketURL: `appending(path:)` is modelled as adding `/` and the component; Foundation's handling of slashes and percent-encoding is not modelled. For a relay URL without a path after its host the model's result is not claimed to be Foundation's.
- MobileModel.SocketReplacesLastComponent: proved only for a relay URL with a path after its host (`HasPathAfterHost`); for `wss://host` alone Foundation's behaviour is not modelled.
- AgentModel.WorktreeBranch: case mapping is ASCII-only (`Lowercased` maps A–Z); Swift's `lowercased()` maps every Unicode letter and may change the length of the name.
- Session fields. `fontSizeOverride`, `environmentVariablesData` and the JSON-backed `environmentVariables` accessor of `Session` are not modelled.

## Findings

| source | as written | input that shows it | evidently intended | confidence | as-written member | corrected member |
|---|---|---|---|---|---|---|
| Backend/ClaudeHubRelay/Sources/ClaudeHubRelay/main.swift:236-242 | after a valid `client-auth` the relay sends `client-authenticated` with an empty payload, but the phone decodes it as `ClientAuthenticatedPayload`, which requires `authenticated_at` | any client whose `client-auth` signature verifies: the reply does not decode, so the phone never becomes authenticated and never asks for sessions | the payload carries `authenticated_at`, the time of authentication | not executed | RelayServer.AsWrittenClientAuthenticatedUndecodable | RelayServer.CorrectedClientAuthRepliesIffVerified |
| ClaudeHub/Utilities/RemoteRelayTransport.swift:95-97 | a failed receive sets the state to disconnected and drops `webSocketTask`, whichever task the receive belonged to | `connect()` while connected: `disconnect()` cancels the old task, whose pending receive then fails after the new task is installed, tearing the new connection down | only a failure of the current task's receive disconnects; a stale task's failure is ignored | not executed | TransportModel.StaleReceiveFailureDropsNewConnection | TransportModel.ReceiveFailed |
