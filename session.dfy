/**
  The persistent `Session` and `SessionGroup` records of the Mac app, as
  objects whose fields the session manager updates in place. `UUID()` and
  `Date()` are the parameters `id` and `now`; dates are integer ticks.
 */
module SessionModels {

  import opened Wrappers
  import opened SessionStatuses

  /** A snapshot of all the modelled fields of a `Session`. */
  datatype SessionRecord = SessionRecord(
    id: string,
    name: string,
    projectPath: string,
    worktreePath: Option<string>,
    worktreeBranch: Option<string>,
    groupID: Option<string>,
    statusRaw: string,
    lastMessagePreview: string,
    lastActivityDate: int,
    createdDate: int,
    isArchived: bool,
    sortOrder: int,
    scrollbackFilePath: Option<string>,
    command: string,
    claudeFlags: string,
    workingDirectory: string,
    lastPID: Option<int>)

  /** The `status` getter: the case with the stored raw value, or `disconnected` if there is none. */
  function StatusOf(statusRaw: string): (r: SessionStatus)
    ensures FromRaw(statusRaw).Some? ==> r == FromRaw(statusRaw).value
    ensures FromRaw(statusRaw).None? ==> r == Disconnected
  {
    match FromRaw(statusRaw)
    case Some(s) => s
    case None => Disconnected
  }

  /** Setting a status stores its raw value, from which the getter reads it back. */
  lemma StatusSetThenGet(s: SessionStatus)
    ensures StatusOf(RawValue(s)) == s
  {
    RawValueRoundTrip(s);
  }

  /** `Session.init`: a new session is disconnected, unarchived, first in order and without a preview. */
  function NewSession(id: string, name: string, projectPath: string, command: string,
                      worktreePath: Option<string>, worktreeBranch: Option<string>, groupID: Option<string>,
                      claudeFlags: string, workingDirectory: Option<string>, now: int): (r: SessionRecord)
    ensures StatusOf(r.statusRaw) == Disconnected
    ensures !r.isArchived && r.sortOrder == 0 && r.lastMessagePreview == []
    ensures r.workingDirectory == if workingDirectory.Some? then workingDirectory.value else projectPath
    ensures r.lastActivityDate == r.createdDate == now
    ensures r.scrollbackFilePath.None? && r.lastPID.None?
  {
    SessionRecord(id, name, projectPath, worktreePath, worktreeBranch, groupID, RawValue(Disconnected), [],
                  now, now, false, 0, None, command, claudeFlags,
                  if workingDirectory.Some? then workingDirectory.value else projectPath, None)
  }

  /** `command` defaults to "claude". */
  const DefaultCommand := "claude"

  class Session {
    var id: string
    var name: string
    var projectPath: string
    var worktreePath: Option<string>
    var worktreeBranch: Option<string>
    var groupID: Option<string>
    var statusRaw: string
    var lastMessagePreview: string
    var lastActivityDate: int
    var createdDate: int
    var isArchived: bool
    var sortOrder: int
    var scrollbackFilePath: Option<string>
    var command: string
    var claudeFlags: string
    var workingDirectory: string
    var lastPID: Option<int>

    ghost function Model(): SessionRecord
      reads this
    {
      SessionRecord(id, name, projectPath, worktreePath, worktreeBranch, groupID, statusRaw,
                    lastMessagePreview, lastActivityDate, createdDate, isArchived, sortOrder,
                    scrollbackFilePath, command, claudeFlags, workingDirectory, lastPID)
    }

    constructor (id: string, name: string, projectPath: string, command: string,
                 worktreePath: Option<string>, worktreeBranch: Option<string>, groupID: Option<string>,
                 claudeFlags: string, workingDirectory: Option<string>, now: int)
      ensures Model() == NewSession(id, name, projectPath, command, worktreePath, worktreeBranch, groupID,
                                    claudeFlags, workingDirectory, now)
    {
      this.id := id;
      this.name := name;
      this.projectPath := projectPath;
      this.command := command;
      this.worktreePath := worktreePath;
      this.worktreeBranch := worktreeBranch;
      this.groupID := groupID;
      statusRaw := RawValue(Disconnected);
      lastMessagePreview := [];
      lastActivityDate := now;
      createdDate := now;
      isArchived := false;
      sortOrder := 0;
      scrollbackFilePath := None;
      this.claudeFlags := claudeFlags;
      this.workingDirectory := if workingDirectory.Some? then workingDirectory.value else projectPath;
      lastPID := None;
    }

    function Status(): SessionStatus
      reads this
    {
      StatusOf(statusRaw)
    }

    /** The `status` setter: the getter then returns the status just set. */
    method SetStatus(status: SessionStatus)
      modifies this`statusRaw
      ensures statusRaw == RawValue(status) && Status() == status
    {
      statusRaw := RawValue(status);
      StatusSetThenGet(status);
    }
  }

  class SessionGroup {
    var id: string
    var name: string
    var sortOrder: int

    constructor (id: string, name: string, sortOrder: int := 0)
      ensures this.id == id && this.name == name && this.sortOrder == sortOrder
    {
      this.id := id;
      this.name := name;
      this.sortOrder := sortOrder;
    }
  }
}
