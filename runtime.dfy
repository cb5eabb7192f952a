/**
  The runtime payloads exchanged between a host and its mobile clients once
  they are connected: session summaries and lists, terminal traffic and the
  session-creation request. Session and group ids are UUID texts; a
  round trip holds for the canonical (upper-case) ones, which is all that
  Swift's `UUID` can hold.
 */
module Runtime {

  import opened Wrappers
  import opened Json
  import opened Envelope

  /** `EmptyPayload`: no fields; any JSON object decodes to it. */
  datatype Empty = Empty

  function EncodeEmpty(p: Empty): (j: Value)
    ensures DecodeEmpty(j) == Some(Empty)
  {
    JObject(map[])
  }

  function DecodeEmpty(j: Value): (r: Option<Empty>)
    ensures r.Some? <==> j.JObject?
  {
    if j.JObject? then Some(Empty) else None
  }

  /** `decodeIfPresent(UUID.self, forKey:)`: the outer `None` is a decode failure. */
  function GetOptionalUuid(m: Object, k: string): (r: Option<Option<string>>)
    ensures k !in m ==> r == Some(None)
    ensures r.Some? && r.value.Some? ==> k in m && DecodeUuid(m[k]) == r.value
  {
    if k !in m || m[k] == JNull then Some(None)
    else
      match DecodeUuid(m[k])
      case Some(u) => Some(Some(u))
      case None => None
  }

  /** `decodeIfPresent(String.self, forKey:)`. */
  function GetOptionalString(m: Object, k: string): (r: Option<Option<string>>)
    ensures k !in m ==> r == Some(None)
    ensures r.Some? && r.value.Some? ==> k in m && m[k] == JString(r.value.value)
  {
    if k !in m || m[k] == JNull then Some(None)
    else if m[k].JString? then Some(Some(m[k].s))
    else None
  }

  predicate CanonicalOrAbsent(u: Option<string>) {
    u.None? || IsCanonicalUuid(u.value)
  }

  // ---------------------------------------------------------------- session summary

  datatype SessionSummary = SessionSummary(id: string, name: string, status: string,
                                           groupID: Option<string>, lastPreview: string, hasUnread: bool)

  predicate SummaryIdsCanonical(s: SessionSummary) {
    IsCanonicalUuid(s.id) && CanonicalOrAbsent(s.groupID)
  }

  /** `encodeIfPresent` leaves `group_id` out when there is no group. */
  function EncodeSummary(s: SessionSummary): (j: Value)
    ensures j.JObject?
    ensures j.fields.Keys == {"id", "name", "status", "last_preview", "has_unread"}
                            + (if s.groupID.Some? then {"group_id"} else {})
    ensures SummaryIdsCanonical(s) ==> DecodeSummary(j) == Some(s)
  {
    var base := map[
      "id" := JString(s.id),
      "name" := JString(s.name),
      "status" := JString(s.status),
      "last_preview" := JString(s.lastPreview),
      "has_unread" := JBool(s.hasUnread)];
    if s.groupID.Some? then JObject(base["group_id" := JString(s.groupID.value)]) else JObject(base)
  }

  function DecodeSummary(j: Value): (r: Option<SessionSummary>)
    ensures r.Some? ==> SummaryIdsCanonical(r.value)
  {
    var m :- AsObject(j);
    var id :- GetUuid(m, "id");
    var name :- GetString(m, "name");
    var status :- GetString(m, "status");
    var groupID :- GetOptionalUuid(m, "group_id");
    var preview :- GetString(m, "last_preview");
    var unread :- GetBool(m, "has_unread");
    Some(SessionSummary(id, name, status, groupID, preview, unread))
  }

  /** `SessionListPayload`: `{"sessions": [...]}`. */
  function EncodeSessionList(ss: seq<SessionSummary>): (j: Value)
    ensures j.JObject? && j.fields.Keys == {"sessions"}
    ensures (forall i :: 0 <= i < |ss| ==> SummaryIdsCanonical(ss[i])) ==> DecodeSessionList(j) == Some(ss)
  {
    JObject(map["sessions" := JArray(EncodeSummaries(ss))])
  }

  function EncodeSummaries(ss: seq<SessionSummary>): (items: seq<Value>)
    ensures |items| == |ss|
    ensures (forall i :: 0 <= i < |ss| ==> SummaryIdsCanonical(ss[i])) ==> DecodeSummaries(items) == Some(ss)
  {
    if ss == [] then []
    else
      var rest := EncodeSummaries(ss[1..]);
      var items := [EncodeSummary(ss[0])] + rest;
      assert items[1..] == rest;
      if forall i :: 0 <= i < |ss| ==> SummaryIdsCanonical(ss[i]) then
        assert SummaryIdsCanonical(ss[0]);
        assert forall i :: 0 <= i < |ss[1..]| ==> SummaryIdsCanonical(ss[1..][i]);
        assert [ss[0]] + ss[1..] == ss;
        items
      else
        items
  }

  /** Every element must decode, or the whole array fails. */
  function DecodeSummaries(items: seq<Value>): (r: Option<seq<SessionSummary>>)
    ensures r.Some? ==> |r.value| == |items|
    ensures r.Some? ==> forall i :: 0 <= i < |items| ==> DecodeSummary(items[i]) == Some(r.value[i])
  {
    if items == [] then Some([])
    else
      var head :- DecodeSummary(items[0]);
      var tail :- DecodeSummaries(items[1..]);
      Some([head] + tail)
  }

  function DecodeSessionList(j: Value): (r: Option<seq<SessionSummary>>)
  {
    var m :- AsObject(j);
    if "sessions" in m && m["sessions"].JArray? then DecodeSummaries(m["sessions"].items) else None
  }

  // ---------------------------------------------------------------- terminal traffic

  /** `OpenSessionPayload` and `TerminalResizePayload` share keys session_id, cols, rows. */
  datatype SessionSize = SessionSize(sessionID: string, cols: int, rows: int)

  function EncodeSessionSize(p: SessionSize): (j: Value)
    ensures j.JObject? && j.fields.Keys == {"session_id", "cols", "rows"}
    ensures IsCanonicalUuid(p.sessionID) ==> DecodeSessionSize(j) == Some(p)
  {
    JObject(map["session_id" := JString(p.sessionID), "cols" := JInt(p.cols), "rows" := JInt(p.rows)])
  }

  function DecodeSessionSize(j: Value): (r: Option<SessionSize>)
    ensures r.Some? ==> IsCanonicalUuid(r.value.sessionID)
  {
    var m :- AsObject(j);
    var id :- GetUuid(m, "session_id");
    var cols :- GetInt(m, "cols");
    var rows :- GetInt(m, "rows");
    Some(SessionSize(id, cols, rows))
  }

  /** `TerminalOutputPayload` and `TerminalSnapshotPayload`: keys session_id, data. */
  datatype TerminalData = TerminalData(sessionID: string, data: string)

  function EncodeTerminalData(p: TerminalData): (j: Value)
    ensures j.JObject? && j.fields.Keys == {"session_id", "data"}
    ensures IsCanonicalUuid(p.sessionID) ==> DecodeTerminalData(j) == Some(p)
  {
    JObject(map["session_id" := JString(p.sessionID), "data" := JString(p.data)])
  }

  function DecodeTerminalData(j: Value): (r: Option<TerminalData>)
    ensures r.Some? ==> IsCanonicalUuid(r.value.sessionID)
  {
    var m :- AsObject(j);
    var id :- GetUuid(m, "session_id");
    var data :- GetString(m, "data");
    Some(TerminalData(id, data))
  }

  /** `TerminalInputPayload`: keys session_id, text. */
  datatype TerminalInput = TerminalInput(sessionID: string, text: string)

  function EncodeTerminalInput(p: TerminalInput): (j: Value)
    ensures j.JObject? && j.fields.Keys == {"session_id", "text"}
    ensures IsCanonicalUuid(p.sessionID) ==> DecodeTerminalInput(j) == Some(p)
  {
    JObject(map["session_id" := JString(p.sessionID), "text" := JString(p.text)])
  }

  function DecodeTerminalInput(j: Value): (r: Option<TerminalInput>)
    ensures r.Some? ==> IsCanonicalUuid(r.value.sessionID)
  {
    var m :- AsObject(j);
    var id :- GetUuid(m, "session_id");
    var text :- GetString(m, "text");
    Some(TerminalInput(id, text))
  }

  // ---------------------------------------------------------------- session creation

  datatype CreateSession = CreateSession(name: string, projectPath: string, command: string, flags: string,
                                         groupID: Option<string>, useWorktree: bool, initialPrompt: Option<string>)

  /** The initialiser's defaults: command "claude", no flags, no group, no worktree, no prompt. */
  function NewCreateSession(name: string, projectPath: string, command: string := "claude", flags: string := "",
                            groupID: Option<string> := None, useWorktree: bool := false,
                            initialPrompt: Option<string> := None): (p: CreateSession)
    ensures p.name == name && p.projectPath == projectPath && p.command == command && p.flags == flags
    ensures p.groupID == groupID && p.useWorktree == useWorktree && p.initialPrompt == initialPrompt
  {
    CreateSession(name, projectPath, command, flags, groupID, useWorktree, initialPrompt)
  }

  function EncodeCreateSession(p: CreateSession): (j: Value)
    ensures j.JObject?
    ensures j.fields.Keys == {"name", "project_path", "command", "flags", "use_worktree"}
                            + (if p.groupID.Some? then {"group_id"} else {})
                            + (if p.initialPrompt.Some? then {"initial_prompt"} else {})
    ensures CanonicalOrAbsent(p.groupID) ==> DecodeCreateSession(j) == Some(p)
  {
    var base := map[
      "name" := JString(p.name),
      "project_path" := JString(p.projectPath),
      "command" := JString(p.command),
      "flags" := JString(p.flags),
      "use_worktree" := JBool(p.useWorktree)];
    var withGroup := if p.groupID.Some? then base["group_id" := JString(p.groupID.value)] else base;
    var m := if p.initialPrompt.Some? then withGroup["initial_prompt" := JString(p.initialPrompt.value)] else withGroup;
    JObject(m)
  }

  function DecodeCreateSession(j: Value): (r: Option<CreateSession>)
    ensures r.Some? ==> CanonicalOrAbsent(r.value.groupID)
  {
    var m :- AsObject(j);
    var name :- GetString(m, "name");
    var path :- GetString(m, "project_path");
    var command :- GetString(m, "command");
    var flags :- GetString(m, "flags");
    var groupID :- GetOptionalUuid(m, "group_id");
    var useWorktree :- GetBool(m, "use_worktree");
    var prompt :- GetOptionalString(m, "initial_prompt");
    Some(CreateSession(name, path, command, flags, groupID, useWorktree, prompt))
  }

  // ---------------------------------------------------------------- project paths

  /** `RecentProjectPath` (its `id` is a fresh UUID and is left out). */
  datatype RecentProjectPath = RecentProjectPath(path: string, name: string, isGitRepo: bool)

  datatype GroupSummary = GroupSummary(id: string, name: string)
}
