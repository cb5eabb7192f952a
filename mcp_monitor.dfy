/**
  `MCPMonitor`: recognises tool calls in single lines of terminal output and
  keeps the last hundred of them. `Date()` is the parameter `now`.
 */
module ToolCalls {

  import opened Wrappers
  import opened Text

  datatype ToolCall = ToolCall(timestamp: int, toolName: string, preview: string)

  /** The marker text of each tool and the name it is reported under, in the order they are tried. */
  const ToolPatterns: seq<(string, string)> := [
    ("Read(", "Read"), ("Edit(", "Edit"), ("Write(", "Write"), ("Bash(", "Bash"),
    ("Glob(", "Glob"), ("Grep(", "Grep"), ("Task(", "Task"), ("WebFetch(", "WebFetch"),
    ("WebSearch(", "WebSearch"), ("NotebookEdit(", "NotebookEdit"), ("mcp__", "MCP")]

  const MaxToolCalls := 100

  const MaxPreview := 100

  /** The line carries Claude Code's tool-call bullet, ⏺ or ●. */
  predicate HasMarker(stripped: string) {
    Contains(stripped, "\U{23FA}") || Contains(stripped, "\U{25CF}")
  }

  /** The first entry of the table, from index `from` on, whose marker text occurs in the line. */
  function FirstToolFrom(stripped: string, from: nat): (r: Option<nat>)
    requires from <= |ToolPatterns|
    ensures r.Some? ==> from <= r.value < |ToolPatterns| && Contains(stripped, ToolPatterns[r.value].0)
    ensures r.Some? ==> forall j :: from <= j < r.value ==> !Contains(stripped, ToolPatterns[j].0)
    ensures r.None? ==> forall j :: from <= j < |ToolPatterns| ==> !Contains(stripped, ToolPatterns[j].0)
    decreases |ToolPatterns| - from
  {
    if from == |ToolPatterns| then None
    else if Contains(stripped, ToolPatterns[from].0) then Some(from)
    else FirstToolFrom(stripped, from + 1)
  }

  /** Entry `k` is the first of the table whose marker text occurs in the line. */
  predicate FirstMatchAt(stripped: string, k: nat) {
    && k < |ToolPatterns|
    && Contains(stripped, ToolPatterns[k].0)
    && forall j :: 0 <= j < k ==> !Contains(stripped, ToolPatterns[j].0)
  }

  function FirstTool(stripped: string): Option<nat> {
    FirstToolFrom(stripped, 0)
  }

  /**
    `extractPreview(from:toolPattern:)`: what follows the first occurrence of
    the marker text, with every `)` removed, trimmed, and cut to 100
    characters; the whole line if the marker text does not occur.
   */
  function ToolPreview(line: string, pattern: string): (r: string)
    ensures FindFirst(line, pattern).None? ==> r == line
    ensures FindFirst(line, pattern).Some? ==> |r| <= MaxPreview && ')' !in r
  {
    match FindFirst(line, pattern)
    case None => line
    case Some(k) =>
      var cleaned := ReplaceAll(line[k + |pattern|..], ")", "");
      RemovedCharAbsent(line[k + |pattern|..], ')');
      TrimKeepsAbsent(cleaned, IsSpaceOrNewline, ')');
      Prefix(Trim(cleaned, IsSpaceOrNewline), MaxPreview)
  }

  /**
    `processLine`: the new history and the call found, if any. A line without
    the bullet, or with no known tool, leaves the history as it was.
   */
  function LineProcessed(history: seq<ToolCall>, line: string, now: int): (r: (seq<ToolCall>, Option<ToolCall>))
    ensures r.1.None? ==> r.0 == history
    ensures !HasMarker(Trim(line, IsSpaceOrNewline)) ==> r.1.None?
    ensures r.1.Some? ==>
      var appended := history + [r.1.value];
      r.0 == if |appended| > MaxToolCalls then appended[1..] else appended
  {
    var stripped := Trim(line, IsSpaceOrNewline);
    if !HasMarker(stripped) then (history, None)
    else match FirstTool(stripped)
      case None => (history, None)
      case Some(k) =>
        var call := ToolCall(now, ToolPatterns[k].1, ToolPreview(stripped, ToolPatterns[k].0));
        var appended := history + [call];
        (if |appended| > MaxToolCalls then appended[1..] else appended, Some(call))
  }

  /**
    A line with the bullet is reported under the name of the first table
    entry whose marker text occurs in it, with that entry's preview, which
    has no `)` and at most 100 characters.
   */
  lemma FirstMatchReported(history: seq<ToolCall>, line: string, now: int, k: nat)
    requires HasMarker(Trim(line, IsSpaceOrNewline)) && FirstMatchAt(Trim(line, IsSpaceOrNewline), k)
    ensures var stripped := Trim(line, IsSpaceOrNewline);
      var preview := ToolPreview(stripped, ToolPatterns[k].0);
      && LineProcessed(history, line, now).1 == Some(ToolCall(now, ToolPatterns[k].1, preview))
      && |preview| <= MaxPreview && ')' !in preview
  {
    var stripped := Trim(line, IsSpaceOrNewline);
    var found := FirstTool(stripped);
    assert found == Some(k);
    assert FindFirst(stripped, ToolPatterns[k].0).Some?;
  }

  /** A call is reported only for a line with the bullet and some table entry's marker text. */
  lemma ReportedOnlyOnMatch(history: seq<ToolCall>, line: string, now: int)
    requires LineProcessed(history, line, now).1.Some?
    ensures HasMarker(Trim(line, IsSpaceOrNewline))
    ensures exists k :: FirstMatchAt(Trim(line, IsSpaceOrNewline), k)
  {
    var stripped := Trim(line, IsSpaceOrNewline);
    assert FirstMatchAt(stripped, FirstTool(stripped).value);
  }

  /** The history never grows past 100 calls, and a reported call is its newest entry. */
  lemma HistoryBounded(history: seq<ToolCall>, line: string, now: int)
    requires |history| <= MaxToolCalls
    ensures var r := LineProcessed(history, line, now);
      && |r.0| <= MaxToolCalls
      && (r.1.Some? ==> r.0 != [] && r.0[|r.0| - 1] == r.1.value)
  {
  }

  /** The table is tried in order (`for (pattern, name) in toolPatterns`). */
  method MatchTool(stripped: string) returns (index: Option<nat>)
    ensures index == FirstTool(stripped)
  {
    var i := 0;
    while i < |ToolPatterns|
      invariant 0 <= i <= |ToolPatterns|
      invariant FirstToolFrom(stripped, i) == FirstTool(stripped)
    {
      if Contains(stripped, ToolPatterns[i].0) {
        return Some(i);
      }
      i := i + 1;
    }
    return None;
  }

  class MCPMonitor {
    var recentToolCalls: seq<ToolCall>

    constructor ()
      ensures recentToolCalls == []
    {
      recentToolCalls := [];
    }

    method ProcessLine(line: string, now: int) returns (call: Option<ToolCall>)
      modifies this
      ensures (recentToolCalls, call) == LineProcessed(old(recentToolCalls), line, now)
    {
      var stripped := Trim(line, IsSpaceOrNewline);
      if !HasMarker(stripped) {
        return None;
      }
      var index := MatchTool(stripped);
      if index.None? {
        return None;
      }
      var (pattern, name) := ToolPatterns[index.value];
      var found := ToolCall(now, name, ToolPreview(stripped, pattern));
      recentToolCalls := recentToolCalls + [found];
      if |recentToolCalls| > MaxToolCalls {
        recentToolCalls := recentToolCalls[1..];
      }
      return Some(found);
    }

    /** `getRecentCalls(limit:)`: the last `limit` calls, oldest first, or all of them if fewer. */
    method GetRecentCalls(limit: nat := 20) returns (calls: seq<ToolCall>)
      ensures |calls| == if |recentToolCalls| < limit then |recentToolCalls| else limit
      ensures calls == recentToolCalls[|recentToolCalls| - |calls|..]
    {
      calls := Suffix(recentToolCalls, limit);
    }

    method Reset()
      modifies this
      ensures recentToolCalls == []
    {
      recentToolCalls := [];
    }
  }
}
