/**
  `GitWorktreeService`: the test on the output of
  `git rev-parse --is-inside-work-tree`, the naming of a session's worktree
  and branch, the commands `createWorktree` and `removeWorktree` issue, and
  the parser of `git worktree list --porcelain` output. Running `/bin/zsh -c` and asking the
  file system whether the worktree exists are I/O: their results are
  parameters.
 */
module GitWorktrees {

  import opened Wrappers
  import opened Text
  import opened ShellQuoting
  import Envelope

  datatype WorktreeInfo = WorktreeInfo(path: string, branch: string, head: string)

  // ---------------------------------------------------------------- isGitRepo

  /** `isGitRepo`, given what the command printed. */
  predicate IsGitRepoOutput(output: string) {
    Trim(output, IsSpaceOrNewline) == "true"
  }

  predicate AllBlank(s: string) {
    forall i :: 0 <= i < |s| ==> IsSpaceOrNewline(s[i])
  }

  /** "true" with any whitespace and newlines around it is a repository. */
  lemma PaddedTrueIsRepo(pre: string, post: string)
    requires AllBlank(pre) && AllBlank(post)
    ensures IsGitRepoOutput(pre + "true" + post)
  {
    assert pre + "true" + post == pre + ("true" + post);
    TrimStartAfterRun(pre, "true" + post, IsSpaceOrNewline);
    TrimEndBeforeRun("true", post, IsSpaceOrNewline);
  }

  /** A repository's output is "true" with nothing but whitespace and newlines around it. */
  lemma RepoIsPaddedTrue(output: string)
    requires IsGitRepoOutput(output)
    ensures exists i :: (0 <= i <= |output| - 4 && output[i..i + 4] == "true"
                         && AllBlank(output[..i]) && AllBlank(output[i + 4..]))
  {
    var t := TrimStart(output, IsSpaceOrNewline);
    var r := TrimEnd(t, IsSpaceOrNewline);
    var i := |output| - |t|;
    assert t == output[i..];
    assert r == t[..4];
    assert output[i..i + 4] == r;
    assert AllBlank(output[..i]) by {
      assert forall k :: 0 <= k < i ==> output[..i][k] == output[k];
    }
    var rest := output[i + 4..];
    assert AllBlank(rest) by {
      assert forall k :: 0 <= k < |rest| ==> rest[k] == t[4 + k];
    }
  }

  // ---------------------------------------------------------------- naming

  /** The directory under the project that holds the session worktrees. */
  const WorktreesDirName := ".claudehub-worktrees"

  const BranchPrefix := "claudehub/"

  /** `String(uuidString.prefix(8)).lowercased()`. */
  function ShortID(uuidString: string): (r: string)
    ensures |r| == if |uuidString| < 8 then |uuidString| else 8
    ensures forall i :: 0 <= i < |r| ==> r[i] == LowerAscii(uuidString[i])
  {
    Lowercased(Prefix(uuidString, 8))
  }

  function BranchName(uuidString: string): (r: string)
    ensures HasPrefix(r, BranchPrefix)
  {
    BranchPrefix + ShortID(uuidString)
  }

  /**
    `appendingPathComponent` on a base path and a single component: the
    component alone after an empty base, joined with one `/` otherwise.
   */
  function AppendingPathComponent(base: string, component: string): (r: string)
    ensures base == [] ==> r == component
    ensures base != [] ==> HasPrefix(r, base) && HasSuffix(r, component)
    ensures base != [] && base[|base| - 1] != '/' ==> r == base + "/" + component
  {
    if base == [] then component
    else if base[|base| - 1] == '/' then base + component
    else base + "/" + component
  }

  function WorktreesDir(projectPath: string): string {
    AppendingPathComponent(projectPath, WorktreesDirName)
  }

  function WorktreePath(projectPath: string, uuidString: string): string {
    AppendingPathComponent(WorktreesDir(projectPath), ShortID(uuidString))
  }

  /** The last component of a path that ends in a slash-free component after a slash, or of that component alone. */
  lemma {:induction false} LastComponentAfterSlash(x: string, c: string)
    requires x == [] || x[|x| - 1] == '/'
    requires '/' !in c
    ensures LastComponentOf(x + c) == c
    decreases |c|
  {
    if c != [] {
      var init, last := c[..|c| - 1], c[|c| - 1];
      var s := x + c;
      assert s[|s| - 1] == last != '/';
      assert s[..|s| - 1] == x + init;
      assert '/' !in init by {
        assert forall ch :: ch in init ==> ch in c;
      }
      LastComponentAfterSlash(x, init);
      assert LastComponentOf(s) == LastComponentOf(x + init) + [last];
      assert init + [last] == c;
    } else {
      assert x + c == x;
    }
  }

  /** A component joined to a base path is that path's last component. */
  lemma AppendedIsLast(base: string, c: string)
    requires c != [] && '/' !in c
    ensures LastPathComponent(AppendingPathComponent(base, c)) == c
  {
    var r := AppendingPathComponent(base, c);
    var x := if base == [] then [] else if base[|base| - 1] == '/' then base else base + "/";
    assert r == x + c;
    assert r[|r| - 1] == c[|c| - 1];
    assert TrimEnd(r, ch => ch == '/') == r;
    LastComponentAfterSlash(x, c);
  }

  /**
    For a session's UUID text, the short id is eight lower-case hex digits;
    it is the last component of both the worktree's path and its branch, and
    the worktree sits in the project's `.claudehub-worktrees` directory.
   */
  lemma WorktreeNaming(projectPath: string, uuidString: string)
    requires Envelope.IsUuidText(uuidString)
    ensures var id := ShortID(uuidString);
      && |id| == 8
      && (forall i :: 0 <= i < 8 ==> '0' <= id[i] <= '9' || 'a' <= id[i] <= 'f')
      && LastPathComponent(WorktreePath(projectPath, uuidString)) == id
      && LastPathComponent(BranchName(uuidString)) == id
      && LastPathComponent(WorktreesDir(projectPath)) == WorktreesDirName
      && HasPrefix(WorktreePath(projectPath, uuidString), WorktreesDir(projectPath))
  {
    var id := ShortID(uuidString);
    ShortIDIsHex(uuidString);
    assert LastPathComponent(WorktreePath(projectPath, uuidString)) == id by {
      AppendedIsLast(WorktreesDir(projectPath), id);
    }
    assert LastPathComponent(WorktreesDir(projectPath)) == WorktreesDirName by {
      AppendedIsLast(projectPath, WorktreesDirName);
    }
    BranchLastComponent(uuidString);
  }

  /** The short id of a UUID text: eight lower-case hex digits. */
  lemma ShortIDIsHex(uuidString: string)
    requires Envelope.IsUuidText(uuidString)
    ensures var id := ShortID(uuidString);
      && |id| == 8 && '/' !in id
      && forall i :: 0 <= i < 8 ==> '0' <= id[i] <= '9' || 'a' <= id[i] <= 'f'
  {
    assert forall i :: 0 <= i < 8 ==> Envelope.IsHexDigit(uuidString[i]);
  }

  lemma BranchLastComponent(uuidString: string)
    requires Envelope.IsUuidText(uuidString)
    ensures LastPathComponent(BranchName(uuidString)) == ShortID(uuidString)
  {
    var id := ShortID(uuidString);
    ShortIDIsHex(uuidString);
    var b := BranchName(uuidString);
    assert b == BranchPrefix + id;
    assert b[|b| - 1] == id[7];
    assert TrimEnd(b, ch => ch == '/') == b;
    LastComponentAfterSlash(BranchPrefix, id);
  }

  // ---------------------------------------------------------------- createWorktree

  /** What `createWorktree` asks the shell to run, and what it returns. */
  datatype Creation = Creation(commands: seq<string>, result: Option<(string, string)>)

  /**
    `createWorktree`: `git worktree add -b` with a new branch, and if the
    worktree directory does not then exist, `git worktree add` on the existing
    branch. `existsAfterAdd` and `existsAfterRetry` are the two
    `fileExists(atPath:)` answers.
   */
  function CreateWorktree(projectPath: string, uuidString: string,
                          existsAfterAdd: bool, existsAfterRetry: bool): (r: Creation)
    ensures r.result.Some? <==> existsAfterAdd || existsAfterRetry
    ensures r.result.Some? ==> r.result.value == (WorktreePath(projectPath, uuidString), BranchName(uuidString))
    ensures |r.commands| == if existsAfterAdd then 1 else 2
    ensures r.commands[0] == "git -C " + Quoted(projectPath) + " worktree add -b " + Quoted(BranchName(uuidString))
                             + " " + Quoted(WorktreePath(projectPath, uuidString)) + " 2>&1"
    ensures !existsAfterAdd ==>
      r.commands[1] == "git -C " + Quoted(projectPath) + " worktree add " + Quoted(WorktreePath(projectPath, uuidString))
                       + " " + Quoted(BranchName(uuidString)) + " 2>&1"
  {
    var branch := BranchName(uuidString);
    var path := WorktreePath(projectPath, uuidString);
    var add := "git -C " + Quoted(projectPath) + " worktree add -b " + Quoted(branch) + " " + Quoted(path) + " 2>&1";
    if existsAfterAdd then Creation([add], Some((path, branch)))
    else
      var retry := "git -C " + Quoted(projectPath) + " worktree add " + Quoted(path) + " " + Quoted(branch) + " 2>&1";
      Creation([add, retry], if existsAfterRetry then Some((path, branch)) else None)
  }

  // ---------------------------------------------------------------- removeWorktree

  /**
    `removeWorktree`: the commands it runs, in order. The worktree is removed by
    force, the branch deleted only when asked to and named, and stale
    references pruned last. Removing the directory itself is file-system I/O.
   */
  function RemoveWorktree(projectPath: string, worktreePath: string, branch: Option<string>,
                          deleteBranch: bool := true): (r: seq<string>)
    ensures |r| == if deleteBranch && branch.Some? then 3 else 2
    ensures r[0] == "git -C " + Quoted(projectPath) + " worktree remove " + Quoted(worktreePath) + " --force 2>&1"
    ensures r[|r| - 1] == "git -C " + Quoted(projectPath) + " worktree prune 2>&1"
    ensures deleteBranch && branch.Some? ==>
      r[1] == "git -C " + Quoted(projectPath) + " branch -D " + Quoted(branch.value) + " 2>&1"
  {
    var git := "git -C " + Quoted(projectPath);
    var remove := git + " worktree remove " + Quoted(worktreePath) + " --force 2>&1";
    var prune := git + " worktree prune 2>&1";
    if deleteBranch && branch.Some? then [remove, git + " branch -D " + Quoted(branch.value) + " 2>&1", prune]
    else [remove, prune]
  }

  /** Whatever the path and branch hold, each reaches git as the one shell word that reads back as itself. */
  lemma RemoveOperandsReadBack(projectPath: string, worktreePath: string, branch: string)
    ensures var r := RemoveWorktree(projectPath, worktreePath, Some(branch), true);
      && r[0] == "git -C " + Quoted(projectPath) + " worktree remove " + Quoted(worktreePath) + " --force 2>&1"
      && r[1] == "git -C " + Quoted(projectPath) + " branch -D " + Quoted(branch) + " 2>&1"
      && ShellWord(Quoted(projectPath)) == Some(projectPath)
      && ShellWord(Quoted(worktreePath)) == Some(worktreePath)
      && ShellWord(Quoted(branch)) == Some(branch)
  {
    QuotedRoundTrip(projectPath);
    QuotedRoundTrip(worktreePath);
    QuotedRoundTrip(branch);
  }

  // ---------------------------------------------------------------- listWorktrees

  const WorktreeLinePrefix := "worktree "
  const HeadLinePrefix := "HEAD "
  const BranchLinePrefix := "branch "

  predicate IsWorktreeLine(line: string) {
    HasPrefix(line, WorktreeLinePrefix)
  }

  /** A `HEAD ` line that the parser reads as one (it is not also a `worktree ` line). */
  predicate IsHeadLine(line: string) {
    !IsWorktreeLine(line) && HasPrefix(line, HeadLinePrefix)
  }

  predicate IsBranchLine(line: string) {
    !IsWorktreeLine(line) && !HasPrefix(line, HeadLinePrefix) && HasPrefix(line, BranchLinePrefix)
  }

  /** `refs/heads/` removed from the branch line's value. */
  function BranchValue(line: string): string
    requires IsBranchLine(line)
  {
    ReplaceAll(line[|BranchLinePrefix|..], "refs/heads/", "")
  }

  /** The parser's variables: the records so far and `currentPath`, `currentHead`, `currentBranch`. */
  datatype Scan = Scan(worktrees: seq<WorktreeInfo>, path: Option<string>, head: Option<string>, branch: Option<string>)

  const Start := Scan([], None, None, None)

  /** The record of the worktree being read, if there is one, appended. */
  function Flushed(s: Scan): (r: seq<WorktreeInfo>)
    ensures s.path.None? ==> r == s.worktrees
    ensures s.path.Some? ==> r == s.worktrees + [WorktreeInfo(s.path.value,
      if s.branch.Some? then s.branch.value else "detached", if s.head.Some? then s.head.value else "")]
  {
    match s.path
    case None => s.worktrees
    case Some(p) =>
      s.worktrees + [WorktreeInfo(p, if s.branch.Some? then s.branch.value else "detached",
                                  if s.head.Some? then s.head.value else "")]
  }

  /** One pass of the loop body. */
  function Step(s: Scan, line: string): Scan {
    if IsWorktreeLine(line) then Scan(Flushed(s), Some(line[|WorktreeLinePrefix|..]), None, None)
    else if IsHeadLine(line) then s.(head := Some(line[|HeadLinePrefix|..]))
    else if IsBranchLine(line) then s.(branch := Some(BranchValue(line)))
    else s
  }

  function ScanLines(s: Scan, lines: seq<string>): Scan
    decreases |lines|
  {
    if lines == [] then s else Step(ScanLines(s, lines[..|lines| - 1]), lines[|lines| - 1])
  }

  /** The records `listWorktrees` returns for the lines of the output. */
  function Parse(lines: seq<string>): seq<WorktreeInfo> {
    Flushed(ScanLines(Start, lines))
  }

  function Listed(output: string): seq<WorktreeInfo> {
    Parse(Split(output, IsNewline))
  }

  /** Reading two runs of lines one after the other. */
  lemma {:induction false} ScanConcat(s: Scan, a: seq<string>, b: seq<string>)
    ensures ScanLines(s, a + b) == ScanLines(ScanLines(s, a), b)
    decreases |b|
  {
    if b == [] {
      assert a + b == a;
    } else {
      var init := b[..|b| - 1];
      ScanConcat(s, a, init);
      assert (a + b)[..|a + b| - 1] == a + init;
    }
  }

  /**
    Within one worktree's block the records and the path stay as they are;
    HEAD and branch are those of the block's last HEAD and branch lines, if
    any.
   */
  lemma {:induction false} ScanBlock(s: Scan, body: seq<string>)
    requires forall k :: 0 <= k < |body| ==> !IsWorktreeLine(body[k])
    ensures var r := ScanLines(s, body);
      && r.worktrees == s.worktrees && r.path == s.path
      && r.head == (match LastWhere(body, IsHeadLine)
                    case None => s.head
                    case Some(i) => Some(body[i][|HeadLinePrefix|..]))
      && r.branch == (match LastWhere(body, IsBranchLine)
                      case None => s.branch
                      case Some(i) => Some(BranchValue(body[i])))
    decreases |body|
  {
    if body != [] {
      ScanBlock(s, body[..|body| - 1]);
    }
  }

  /** The record of a worktree line and the block of lines after it. */
  function Record(worktreeLine: string, body: seq<string>): (r: WorktreeInfo)
    requires IsWorktreeLine(worktreeLine)
    ensures r.path == worktreeLine[|WorktreeLinePrefix|..]
    ensures LastWhere(body, IsBranchLine).None? ==> r.branch == "detached"
    ensures LastWhere(body, IsHeadLine).None? ==> r.head == ""
  {
    WorktreeInfo(
      worktreeLine[|WorktreeLinePrefix|..],
      match LastWhere(body, IsBranchLine)
      case None => "detached"
      case Some(i) => BranchValue(body[i]),
      match LastWhere(body, IsHeadLine)
      case None => ""
      case Some(i) => body[i][|HeadLinePrefix|..])
  }

  /** Lines before the first worktree line are discarded: with none at all there are no records. */
  lemma NoWorktreeLineNoRecord(lines: seq<string>)
    requires forall k :: 0 <= k < |lines| ==> !IsWorktreeLine(lines[k])
    ensures Parse(lines) == []
  {
    ScanBlock(Start, lines);
  }

  /**
    A worktree line and the block after it, up to the next worktree line or
    the end, add one record: the path after the prefix, the block's last
    branch (or "detached") and its last HEAD (or ""), whatever came before.
   */
  lemma BlockAddsRecord(lines: seq<string>, worktreeLine: string, body: seq<string>)
    requires IsWorktreeLine(worktreeLine)
    requires forall k :: 0 <= k < |body| ==> !IsWorktreeLine(body[k])
    ensures Parse(lines + [worktreeLine] + body) == Parse(lines) + [Record(worktreeLine, body)]
  {
    ScanConcat(Start, lines + [worktreeLine], body);
    var atLine := ScanLines(Start, lines + [worktreeLine]);
    assert (lines + [worktreeLine])[..|lines|] == lines;
    assert atLine == Scan(Parse(lines), Some(worktreeLine[|WorktreeLinePrefix|..]), None, None);
    ScanBlock(atLine, body);
  }

  /** The paths of the worktree lines, in order. */
  function WorktreeLinePaths(lines: seq<string>): seq<string>
    decreases |lines|
  {
    if lines == [] then []
    else
      var last := lines[|lines| - 1];
      WorktreeLinePaths(lines[..|lines| - 1]) + if IsWorktreeLine(last) then [last[|WorktreeLinePrefix|..]] else []
  }

  function Paths(ws: seq<WorktreeInfo>): (r: seq<string>)
    ensures |r| == |ws| && forall k :: 0 <= k < |ws| ==> r[k] == ws[k].path
  {
    if ws == [] then [] else Paths(ws[..|ws| - 1]) + [ws[|ws| - 1].path]
  }

  lemma {:induction false} ScanPaths(lines: seq<string>)
    ensures var s := ScanLines(Start, lines);
      Paths(s.worktrees) + (if s.path.Some? then [s.path.value] else []) == WorktreeLinePaths(lines)
    decreases |lines|
  {
    if lines != [] {
      ScanPaths(lines[..|lines| - 1]);
    }
  }

  /** One record per worktree line, in input order, each with the path after the prefix. */
  lemma OneRecordPerWorktreeLine(lines: seq<string>)
    ensures Paths(Parse(lines)) == WorktreeLinePaths(lines)
  {
    ScanPaths(lines);
  }

  /** The loop of `listWorktrees` over the lines of the command's output. */
  method ListWorktrees(output: string) returns (worktrees: seq<WorktreeInfo>)
    ensures worktrees == Listed(output)
  {
    var lines := Split(output, IsNewline);
    worktrees := [];
    var currentPath: Option<string> := None;
    var currentHead: Option<string> := None;
    var currentBranch: Option<string> := None;
    for i := 0 to |lines|
      invariant Scan(worktrees, currentPath, currentHead, currentBranch) == ScanLines(Start, lines[..i])
    {
      var line := lines[i];
      assert lines[..i + 1][..i] == lines[..i];
      if HasPrefix(line, WorktreeLinePrefix) {
        if currentPath.Some? {
          worktrees := worktrees + [WorktreeInfo(currentPath.value,
            if currentBranch.Some? then currentBranch.value else "detached",
            if currentHead.Some? then currentHead.value else "")];
        }
        currentPath := Some(line[|WorktreeLinePrefix|..]);
        currentHead := None;
        currentBranch := None;
      } else if HasPrefix(line, HeadLinePrefix) {
        currentHead := Some(line[|HeadLinePrefix|..]);
      } else if HasPrefix(line, BranchLinePrefix) {
        currentBranch := Some(ReplaceAll(line[|BranchLinePrefix|..], "refs/heads/", ""));
      }
    }
    assert lines[..|lines|] == lines;
    if currentPath.Some? {
      worktrees := worktrees + [WorktreeInfo(currentPath.value,
        if currentBranch.Some? then currentBranch.value else "detached",
        if currentHead.Some? then currentHead.value else "")];
    }
  }
}
