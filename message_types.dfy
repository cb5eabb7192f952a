/**
  `RemoteMessageType`: the `type` strings of the envelopes. The declaring file
  is not part of this model; the constants below take the wire names in the
  kebab-case the protocol describes. Every proof relies only on their being
  pairwise distinct.
 */
module MessageTypes {

  const HostHello := "host-hello"
  const HostRegister := "host-register"
  const HostAuth := "host-auth"
  const HostAuthenticated := "host-authenticated"
  const ClientHello := "client-hello"
  const ClientAuth := "client-auth"
  const ClientAuthenticated := "client-authenticated"
  const Challenge := "challenge"

  const PairingCreate := "pairing-create"
  const PairingCreated := "pairing-created"
  const PairingRequest := "pairing-request"
  const PairingPendingApproval := "pairing-pending-approval"
  const PairingApprove := "pairing-approve"
  const PairingSuccess := "pairing-success"

  const ListSessions := "list-sessions"
  const SessionList := "session-list"
  const SessionUpdated := "session-updated"
  const OpenSession := "open-session"
  const TerminalInput := "terminal-input"
  const TerminalInterrupt := "terminal-interrupt"
  const TerminalResize := "terminal-resize"
  const TerminalOutput := "terminal-output"
  const TerminalSnapshot := "terminal-snapshot"
  const ListProjectPaths := "list-project-paths"
  const ProjectPathsList := "project-paths-list"
  const CreateSession := "create-session"
  const SessionCreated := "session-created"

  /** Host-to-client traffic the relay forwards without reading it. */
  const HostPassThrough: set<string> := {SessionList, TerminalOutput, TerminalSnapshot, SessionUpdated}

  /** Client-to-host traffic the relay forwards without reading it. */
  const ClientPassThrough: set<string> := {ListSessions, OpenSession, TerminalInput, TerminalInterrupt, TerminalResize}
}
