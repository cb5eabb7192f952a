/**
  `StatusDetector`: a bounded buffer of the most recent non-empty output
  lines, and a classification of the last few of them into a session status
  by pattern, in a fixed priority order. Stripping ANSI escape sequences is a
  parameter `strip`.
 */
module StatusDetection {

  import opened Wrappers
  import opened Text
  import opened SessionStatuses

  /** The braille spinner frames, then the two words Claude Code shows while it works. */
  const ThinkingPatterns: seq<string> := [
    "\U{280B}", "\U{2819}", "\U{2839}", "\U{2838}", "\U{283C}",
    "\U{2834}", "\U{2826}", "\U{2827}", "\U{2807}", "\U{280F}",
    "Thinking", "Planning"]

  const ToolUsePatterns: seq<string> := [
    "\U{23FA}",
    "\U{25CF} Read(", "\U{25CF} Edit(", "\U{25CF} Write(", "\U{25CF} Bash(",
    "\U{25CF} Glob(", "\U{25CF} Grep(", "\U{25CF} Task(",
    "Reading", "Editing", "Writing", "Running"]

  const ErrorPatterns: seq<string> := [
    "Error:", "error:", "fatal:", "FATAL:", "\U{2717}", "\U{2718}", "panic:", "Permission denied"]

  /** Prompts: Claude's, the alternative one, and a shell's. */
  const IdlePatterns: seq<string> := ["> ", "\U{276F} ", "$ "]

  /** The prompts alone, without their trailing space. */
  const BarePromptList: seq<string> := [">", "\U{276F}", "$"]

  const MaxRecentLines := 50

  /** How many of the most recent lines the classification looks at. */
  const WindowSize := 5

  predicate AnyOccurs(text: string, patterns: seq<string>) {
    exists p :: p in patterns && Contains(text, p)
  }

  /** The idle test on the last line, already trimmed of spaces and tabs. */
  predicate LooksIdle(lastLine: string) {
    IdleAgainstAny(lastLine, IdlePatterns)
  }

  /** The test against a list of prompt patterns: some pattern passes `IdleAgainst`. */
  predicate IdleAgainstAny(lastLine: string, patterns: seq<string>) {
    exists k :: 0 <= k < |patterns| && IdleAgainst(lastLine, patterns[k])
  }

  /** The test against one prompt pattern: the line ends with it, or is it once trimmed. */
  predicate IdleAgainst(lastLine: string, pattern: string) {
    HasSuffix(lastLine, pattern) || lastLine == Trim(pattern, IsSpace)
  }

  /** The status the window of last lines shows: error, then tool use, then thinking, then idle. */
  function Classify(lastLines: seq<string>): Option<SessionStatus> {
    var combined := Join(lastLines, "\n");
    if AnyOccurs(combined, ErrorPatterns) then Some(Error)
    else if AnyOccurs(combined, ToolUsePatterns) then Some(ToolUse)
    else if AnyOccurs(combined, ThinkingPatterns) then Some(Thinking)
    else if lastLines != [] && LooksIdle(Trim(lastLines[|lastLines| - 1], IsSpace)) then Some(Idle)
    else None
  }

  /** A line as the buffer keeps it: not empty and without a line break. */
  predicate BufferLine(line: string) {
    line != [] && forall i :: 0 <= i < |line| ==> !IsNewline(line[i])
  }

  /** The non-empty lines of a chunk, in order. */
  function LinesOf(stripped: string): (r: seq<string>)
    ensures forall k :: 0 <= k < |r| ==> BufferLine(r[k])
  {
    NonEmpty(Split(stripped, IsNewline))
  }

  /** What the buffer may hold: at most 50 lines, none of them empty or holding a line break. */
  ghost predicate BufferValid(lines: seq<string>) {
    && |lines| <= MaxRecentLines
    && forall k :: 0 <= k < |lines| ==> BufferLine(lines[k])
  }

  predicate Blank(stripped: string) {
    Trim(stripped, IsSpaceOrNewline) == []
  }

  /**
    `processOutput`: the new buffer and the detected status. Blank output is
    ignored; otherwise the buffer is the 50 most recent lines of the old
    buffer followed by the chunk's non-empty lines, and the status is read
    from its last five lines.
   */
  function Processed(recent: seq<string>, text: string, strip: string -> string): (r: (seq<string>, Option<SessionStatus>))
    ensures Blank(strip(text)) ==> r == (recent, None)
    ensures !Blank(strip(text)) ==>
      var arrived := recent + LinesOf(strip(text));
      && |r.0| == (if |arrived| < MaxRecentLines then |arrived| else MaxRecentLines)
      && r.0 == arrived[|arrived| - |r.0|..]
      && r.1 == Classify(Suffix(r.0, WindowSize))
  {
    var stripped := strip(text);
    if Blank(stripped) then (recent, None)
    else
      var buffer := Suffix(recent + LinesOf(stripped), MaxRecentLines);
      (buffer, Classify(Suffix(buffer, WindowSize)))
  }

  /** Processing output keeps the buffer within its bound and free of empty lines. */
  lemma ProcessingKeepsBufferValid(recent: seq<string>, text: string, strip: string -> string)
    requires BufferValid(recent)
    ensures BufferValid(Processed(recent, text, strip).0)
  {
    if !Blank(strip(text)) {
      AppendKeepsBufferValid(recent, LinesOf(strip(text)));
    }
  }

  lemma AppendKeepsBufferValid(recent: seq<string>, lines: seq<string>)
    requires BufferValid(recent)
    requires forall k :: 0 <= k < |lines| ==> BufferLine(lines[k])
    ensures BufferValid(Suffix(recent + lines, MaxRecentLines))
  {
    var arrived := recent + lines;
    var buffer := Suffix(arrived, MaxRecentLines);
    forall k | 0 <= k < |buffer|
      ensures BufferLine(buffer[k])
    {
      var j := |arrived| - |buffer| + k;
      assert buffer[k] == arrived[j];
      ArrivedLine(recent, lines, j);
    }
  }

  lemma ArrivedLine(recent: seq<string>, lines: seq<string>, j: nat)
    requires forall k :: 0 <= k < |recent| ==> BufferLine(recent[k])
    requires forall k :: 0 <= k < |lines| ==> BufferLine(lines[k])
    requires j < |recent| + |lines|
    ensures BufferLine((recent + lines)[j])
  {
    if j >= |recent| {
      assert (recent + lines)[j] == lines[j - |recent|];
    }
  }

  /** Any error pattern in any line of the window makes the status an error, whatever else it shows. */
  lemma ErrorInWindowWins(lastLines: seq<string>, i: nat, p: string)
    requires i < |lastLines| && p in ErrorPatterns && Contains(lastLines[i], p)
    ensures Classify(lastLines) == Some(Error)
  {
    ContainsInJoin(lastLines, "\n", i, p);
  }

  /** Without an error pattern in the window, a tool-use pattern in any of its lines means tool use. */
  lemma ToolUseInWindowWins(lastLines: seq<string>, i: nat, p: string)
    requires i < |lastLines| && p in ToolUsePatterns && Contains(lastLines[i], p)
    requires !AnyOccurs(Join(lastLines, "\n"), ErrorPatterns)
    ensures Classify(lastLines) == Some(ToolUse)
  {
    ContainsInJoin(lastLines, "\n", i, p);
  }

  /** Without error or tool-use patterns, a thinking pattern in any line means thinking. */
  lemma ThinkingInWindowWins(lastLines: seq<string>, i: nat, p: string)
    requires i < |lastLines| && p in ThinkingPatterns && Contains(lastLines[i], p)
    requires !AnyOccurs(Join(lastLines, "\n"), ErrorPatterns)
    requires !AnyOccurs(Join(lastLines, "\n"), ToolUsePatterns)
    ensures Classify(lastLines) == Some(Thinking)
  {
    ContainsInJoin(lastLines, "\n", i, p);
  }

  /** A character followed by a space, trimmed of spaces, is the character alone. */
  lemma TrimmedPrompt(c: char)
    requires !IsSpace(c)
    ensures Trim([c, ' '], IsSpace) == [c]
  {
    assert TrimStart([c, ' '], IsSpace) == [c, ' '];
    assert [c, ' '][..1] == [c];
    assert TrimEnd([c, ' '], IsSpace) == TrimEnd([c], IsSpace);
  }

  /**
    Every prompt pattern ends in a space and the last line is trimmed of
    spaces first, so the suffix test never succeeds: a line is idle exactly
    when, trimmed, it is a bare prompt.
   */
  lemma IdleOnlyOnBarePrompt(line: string)
    ensures LooksIdle(Trim(line, IsSpace)) <==> Trim(line, IsSpace) in BarePromptList
  {
    var t := Trim(line, IsSpace);
    if LooksIdle(t) {
      IdleIsBarePrompt(t);
    }
    if t in BarePromptList {
      BarePromptIsIdle(t);
    }
  }

  lemma IdleIsBarePrompt(t: string)
    requires t == [] || !IsSpace(t[|t| - 1])
    requires LooksIdle(t)
    ensures t in BarePromptList
  {
    var k :| 0 <= k < |IdlePatterns| && IdleAgainst(t, IdlePatterns[k]);
    if k == 0 {
      NoSpaceSuffix(t, '>');
    } else if k == 1 {
      NoSpaceSuffix(t, '\U{276F}');
    } else {
      NoSpaceSuffix(t, '$');
    }
    BarePromptOf(k);
    assert t == BarePromptList[k];
  }

  lemma BarePromptIsIdle(t: string)
    requires t in BarePromptList
    ensures LooksIdle(t)
  {
    var k :| 0 <= k < |BarePromptList| && BarePromptList[k] == t;
    BarePromptOf(k);
    TrimmedPatternIsIdle(k);
  }

  lemma TrimmedPatternIsIdle(k: nat)
    requires k < |IdlePatterns|
    ensures LooksIdle(Trim(IdlePatterns[k], IsSpace))
  {
    assert IdleAgainst(Trim(IdlePatterns[k], IsSpace), IdlePatterns[k]);
  }

  /** Each prompt pattern, trimmed, is its bare prompt. */
  lemma BarePromptOf(k: nat)
    requires k < |IdlePatterns|
    ensures Trim(IdlePatterns[k], IsSpace) == BarePromptList[k]
  {
    if k == 0 {
      TrimmedPrompt('>');
    } else if k == 1 {
      TrimmedPrompt('\U{276F}');
    } else {
      TrimmedPrompt('$');
    }
  }

  lemma NoSpaceSuffix(t: string, c: char)
    requires t == [] || !IsSpace(t[|t| - 1])
    ensures !HasSuffix(t, [c, ' '])
  {
  }

  /** `extractPreview`'s test: trimmed, longer than two characters, and not a thinking line. */
  predicate Meaningful(line: string) {
    var trimmed := Trim(line, IsSpaceOrNewline);
    trimmed != [] && |trimmed| > 2 && !AnyOccurs(trimmed, ThinkingPatterns)
  }

  /** One pass of `for pattern in patterns { if text.contains(pattern) … }`. */
  method FindPattern(text: string, patterns: seq<string>) returns (found: bool)
    ensures found == AnyOccurs(text, patterns)
  {
    var i := 0;
    while i < |patterns|
      invariant 0 <= i <= |patterns|
      invariant forall k :: 0 <= k < i ==> !Contains(text, patterns[k])
    {
      if Contains(text, patterns[i]) {
        return true;
      }
      i := i + 1;
    }
    return false;
  }

  /** The classification half of `processOutput`, pattern table by pattern table. */
  method DetectStatus(lastLines: seq<string>) returns (status: Option<SessionStatus>)
    ensures status == Classify(lastLines)
  {
    var combined := Join(lastLines, "\n");
    var error := FindPattern(combined, ErrorPatterns);
    if error {
      return Some(Error);
    }
    var toolUse := FindPattern(combined, ToolUsePatterns);
    if toolUse {
      return Some(ToolUse);
    }
    var thinking := FindPattern(combined, ThinkingPatterns);
    if thinking {
      return Some(Thinking);
    }
    if lastLines != [] {
      var idle := MatchesIdlePattern(Trim(lastLines[|lastLines| - 1], IsSpace), IdlePatterns);
      if idle {
        return Some(Idle);
      }
    }
    return None;
  }

  /** The idle test: the first prompt pattern the last line ends with, or is once trimmed. */
  method MatchesIdlePattern(lastLine: string, patterns: seq<string>) returns (idle: bool)
    ensures idle == IdleAgainstAny(lastLine, patterns)
  {
    var i := 0;
    while i < |patterns|
      invariant 0 <= i <= |patterns|
      invariant forall k :: 0 <= k < i ==> !IdleAgainst(lastLine, patterns[k])
    {
      var pattern := patterns[i];
      if HasSuffix(lastLine, pattern) || lastLine == Trim(pattern, IsSpace) {
        return true;
      }
      i := i + 1;
    }
    return false;
  }

  class StatusDetector {
    var recentLines: seq<string>

    ghost predicate Valid()
      reads this
    {
      BufferValid(recentLines)
    }

    constructor ()
      ensures recentLines == [] && Valid()
    {
      recentLines := [];
    }

    method ProcessOutput(text: string, strip: string -> string) returns (status: Option<SessionStatus>)
      requires Valid()
      modifies this
      ensures recentLines == Processed(old(recentLines), text, strip).0
      ensures status == Processed(old(recentLines), text, strip).1
      ensures Valid()
    {
      ProcessingKeepsBufferValid(recentLines, text, strip);
      var stripped := strip(text);
      if Blank(stripped) {
        return None;
      }
      // the append, then `removeFirst` of whatever exceeds the bound
      recentLines := Suffix(recentLines + LinesOf(stripped), MaxRecentLines);
      status := DetectStatus(Suffix(recentLines, WindowSize));
    }

    method Reset()
      modifies this
      ensures recentLines == [] && Valid()
    {
      recentLines := [];
    }

    /** The last meaningful buffered line, if any; the buffer is left as it is. */
    method ExtractPreview() returns (preview: Option<string>)
      ensures preview.Some? <==> LastWhere(recentLines, Meaningful).Some?
      ensures preview.Some? ==> preview.value == recentLines[LastWhere(recentLines, Meaningful).value]
    {
      var index := LastWhere(recentLines, Meaningful);
      if index.None? {
        return None;
      }
      return Some(recentLines[index.value]);
    }
  }
}
