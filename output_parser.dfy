/**
  `TerminalOutputParser`: every chunk a local session's terminal produces is
  persisted, then, if it is UTF-8, fed to the status detector and, line by
  line, to the MCP monitor. A status is reported only when it differs from
  the last one reported.

  The callbacks the parser dispatches to the main queue are recorded, in
  order, in the ghost fields `statusEvents`, `previewEvents` and
  `toolCallEvents`; the scrollback store's appends in `scrollback`. UTF-8
  decoding and ANSI stripping are the parameters `decode` and `strip`.
 */
module OutputParsing {

  import opened Wrappers
  import opened Text
  import opened SessionStatuses
  import opened StatusDetection
  import opened ToolCalls

  type Byte = bv8

  datatype Parser = Parser(
    recentLines: seq<string>,
    history: seq<ToolCall>,
    lastStatus: Option<SessionStatus>,
    scrollback: seq<seq<Byte>>,
    statusEvents: seq<SessionStatus>,
    previewEvents: seq<string>,
    toolCallEvents: seq<ToolCall>)

  /** One line through the monitor: its new history, and the calls reported so far. */
  function MonitorStep(acc: (seq<ToolCall>, seq<ToolCall>), line: string, now: int): (seq<ToolCall>, seq<ToolCall>) {
    var step := LineProcessed(acc.0, line, now);
    (step.0, acc.1 + if step.1.Some? then [step.1.value] else [])
  }

  /**
    The monitor's history and the calls reported, starting from `acc`, after
    the lines went through the monitor one at a time, in order.
   */
  function Fanout(acc: (seq<ToolCall>, seq<ToolCall>), lines: seq<string>, now: int): (seq<ToolCall>, seq<ToolCall>)
    decreases |lines|
  {
    if lines == [] then acc
    else MonitorStep(Fanout(acc, lines[..|lines| - 1], now), lines[|lines| - 1], now)
  }

  lemma FanoutStep(acc: (seq<ToolCall>, seq<ToolCall>), lines: seq<string>, i: nat, now: int)
    requires i < |lines|
    ensures Fanout(acc, lines[..i + 1], now) == MonitorStep(Fanout(acc, lines[..i], now), lines[i], now)
  {
    assert lines[..i + 1][..i] == lines[..i];
  }

  /**
    Fanning lines out keeps the monitor's history within its bound, and only
    adds calls after those already reported, at most one per line.
   */
  lemma {:induction false} FanoutKeepsBound(acc: (seq<ToolCall>, seq<ToolCall>), lines: seq<string>, now: int)
    requires |acc.0| <= MaxToolCalls
    ensures |Fanout(acc, lines, now).0| <= MaxToolCalls
    ensures acc.1 <= Fanout(acc, lines, now).1
    ensures |Fanout(acc, lines, now).1| <= |acc.1| + |lines|
    decreases |lines|
  {
    if lines != [] {
      var before := Fanout(acc, lines[..|lines| - 1], now);
      FanoutKeepsBound(acc, lines[..|lines| - 1], now);
      HistoryBounded(before.0, lines[|lines| - 1], now);
      assert Fanout(acc, lines, now) == MonitorStep(before, lines[|lines| - 1], now);
    }
  }

  /** The status is reported and remembered only when it is some status other than the last one. */
  function Detected(p: Parser, status: Option<SessionStatus>): Parser {
    if status.Some? && status != p.lastStatus then
      p.(lastStatus := status, statusEvents := p.statusEvents + [status.value])
    else p
  }

  /** The detector's half of `processData`: the new buffer, and the status it reports. */
  function StatusChecked(p: Parser, text: string, strip: string -> string): Parser {
    var detected := Processed(p.recentLines, text, strip);
    Detected(p.(recentLines := detected.0), detected.1)
  }

  /** The preview of the new buffer, when it has a meaningful line. */
  function Previewed(p: Parser): Parser {
    match LastWhere(p.recentLines, Meaningful)
    case None => p
    case Some(k) => p.(previewEvents := p.previewEvents + [p.recentLines[k]])
  }

  /** The monitor's half: every line of the text, in order. */
  function Monitored(p: Parser, lines: seq<string>, now: int): Parser {
    var fanned := Fanout((p.history, p.toolCallEvents), lines, now);
    p.(history := fanned.0, toolCallEvents := fanned.1)
  }

  /** `processData`. */
  function DataProcessed(p: Parser, data: seq<Byte>, decode: seq<Byte> -> Option<string>,
                         strip: string -> string, now: int): Parser
  {
    var persisted := p.(scrollback := p.scrollback + [data]);
    match decode(data)
    case None => persisted
    case Some(text) => Monitored(Previewed(StatusChecked(persisted, text, strip)), Split(text, IsNewline), now)
  }

  /**
    Every chunk is persisted; one that is not UTF-8 is persisted and nothing
    else happens.
   */
  lemma ChunkAlwaysPersisted(p: Parser, data: seq<Byte>, decode: seq<Byte> -> Option<string>,
                             strip: string -> string, now: int)
    ensures DataProcessed(p, data, decode, strip, now).scrollback == p.scrollback + [data]
    ensures decode(data).None? ==> DataProcessed(p, data, decode, strip, now) == p.(scrollback := p.scrollback + [data])
  {
  }

  /**
    A status event goes out exactly when the detector reports a status other
    than the last one reported, which it then becomes; otherwise the last
    status is kept and no event goes out.
   */
  lemma StatusReportedOnlyOnChange(p: Parser, data: seq<Byte>, decode: seq<Byte> -> Option<string>,
                                   strip: string -> string, now: int)
    requires decode(data).Some?
    ensures var status := Processed(p.recentLines, decode(data).value, strip).1;
      var r := DataProcessed(p, data, decode, strip, now);
      if status.Some? && status != p.lastStatus then
        r.lastStatus == status && r.statusEvents == p.statusEvents + [status.value]
      else
        r.lastStatus == p.lastStatus && r.statusEvents == p.statusEvents
  {
    var text := decode(data).value;
    var checked := StatusChecked(p.(scrollback := p.scrollback + [data]), text, strip);
    var previewed := Previewed(checked);
    assert previewed.lastStatus == checked.lastStatus && previewed.statusEvents == checked.statusEvents;
    var r := Monitored(previewed, Split(text, IsNewline), now);
    assert r.lastStatus == checked.lastStatus && r.statusEvents == checked.statusEvents;
    assert DataProcessed(p, data, decode, strip, now) == r;
  }

  /** Each line of the chunk, the empty ones included, goes to the monitor in order. */
  lemma EveryLineMonitored(p: Parser, data: seq<Byte>, decode: seq<Byte> -> Option<string>,
                           strip: string -> string, now: int)
    requires decode(data).Some?
    requires |p.history| <= MaxToolCalls
    ensures var fanned := Fanout((p.history, p.toolCallEvents), Split(decode(data).value, IsNewline), now);
      var r := DataProcessed(p, data, decode, strip, now);
      && r.history == fanned.0 && |r.history| <= MaxToolCalls
      && r.toolCallEvents == fanned.1 && p.toolCallEvents <= r.toolCallEvents
  {
    var text := decode(data).value;
    FanoutKeepsBound((p.history, p.toolCallEvents), Split(text, IsNewline), now);
    var checked := StatusChecked(p.(scrollback := p.scrollback + [data]), text, strip);
    var previewed := Previewed(checked);
    assert previewed.history == p.history && previewed.toolCallEvents == p.toolCallEvents;
    assert DataProcessed(p, data, decode, strip, now) == Monitored(previewed, Split(text, IsNewline), now);
  }

  /** `reset`. */
  function Cleared(p: Parser): Parser {
    p.(recentLines := [], history := [], lastStatus := None)
  }

  /** After a reset, the next status the detector reports is reported whatever it is. */
  lemma ResetReportsNextStatus(p: Parser, data: seq<Byte>, decode: seq<Byte> -> Option<string>,
                               strip: string -> string, now: int)
    requires decode(data).Some?
    requires Processed([], decode(data).value, strip).1.Some?
    ensures var status := Processed([], decode(data).value, strip).1.value;
      DataProcessed(Cleared(p), data, decode, strip, now).statusEvents == p.statusEvents + [status]
  {
    StatusReportedOnlyOnChange(Cleared(p), data, decode, strip, now);
  }

  class TerminalOutputParser {
    const statusDetector: StatusDetector
    const mcpMonitor: MCPMonitor
    var lastStatus: Option<SessionStatus>
    ghost var scrollback: seq<seq<Byte>>
    ghost var statusEvents: seq<SessionStatus>
    ghost var previewEvents: seq<string>
    ghost var toolCallEvents: seq<ToolCall>

    ghost function Model(): Parser
      reads this, statusDetector, mcpMonitor
    {
      Parser(statusDetector.recentLines, mcpMonitor.recentToolCalls, lastStatus, scrollback,
             statusEvents, previewEvents, toolCallEvents)
    }

    ghost predicate Valid()
      reads this, statusDetector
    {
      statusDetector.Valid()
    }

    constructor (statusDetector: StatusDetector, mcpMonitor: MCPMonitor)
      requires statusDetector.Valid()
      ensures this.statusDetector == statusDetector && this.mcpMonitor == mcpMonitor
      ensures Model() == Parser(statusDetector.recentLines, mcpMonitor.recentToolCalls, None, [], [], [], [])
      ensures Valid()
    {
      this.statusDetector := statusDetector;
      this.mcpMonitor := mcpMonitor;
      lastStatus := None;
      scrollback := [];
      statusEvents := [];
      previewEvents := [];
      toolCallEvents := [];
    }

    method ProcessData(data: seq<Byte>, decode: seq<Byte> -> Option<string>, strip: string -> string, now: int)
      requires Valid()
      modifies this, statusDetector, mcpMonitor
      ensures Model() == DataProcessed(old(Model()), data, decode, strip, now)
      ensures Valid()
    {
      scrollback := scrollback + [data];
      var decoded := decode(data);
      if decoded.None? {
        return;
      }
      var text := decoded.value;
      CheckStatus(text, strip);
      PublishPreview();
      ghost var previewed := Model();
      MonitorLines(Split(text, IsNewline), now);
      assert Model() == Monitored(previewed, Split(text, IsNewline), now);
    }

    /** Detection, and the status event when the status changed. */
    method CheckStatus(text: string, strip: string -> string)
      requires Valid()
      modifies statusDetector, this`lastStatus, this`statusEvents
      ensures Model() == StatusChecked(old(Model()), text, strip)
      ensures Valid()
    {
      var newStatus := statusDetector.ProcessOutput(text, strip);
      if newStatus.Some? && newStatus != lastStatus {
        lastStatus := newStatus;
        statusEvents := statusEvents + [newStatus.value];
      }
    }

    method PublishPreview()
      modifies this`previewEvents
      ensures Model() == Previewed(old(Model()))
    {
      var preview := statusDetector.ExtractPreview();
      if preview.Some? {
        previewEvents := previewEvents + [preview.value];
      }
    }

    /** One line through the MCP monitor, and its tool-call event if it is one. */
    method MonitorLine(line: string, now: int)
      modifies mcpMonitor, this`toolCallEvents
      ensures (mcpMonitor.recentToolCalls, toolCallEvents)
        == MonitorStep((old(mcpMonitor.recentToolCalls), old(toolCallEvents)), line, now)
    {
      ghost var before := (mcpMonitor.recentToolCalls, toolCallEvents);
      var call := mcpMonitor.ProcessLine(line, now);
      ghost var step := LineProcessed(before.0, line, now);
      assert mcpMonitor.recentToolCalls == step.0 && call == step.1;
      if call.Some? {
        toolCallEvents := toolCallEvents + [call.value];
      } else {
        assert toolCallEvents == before.1 + [];
      }
      assert (mcpMonitor.recentToolCalls, toolCallEvents) == MonitorStep(before, line, now);
    }

    /** Every line of the chunk, in order, through the MCP monitor. */
    method MonitorLines(lines: seq<string>, now: int)
      modifies mcpMonitor, this`toolCallEvents
      ensures (mcpMonitor.recentToolCalls, toolCallEvents)
        == Fanout((old(mcpMonitor.recentToolCalls), old(toolCallEvents)), lines, now)
    {
      ghost var start := (mcpMonitor.recentToolCalls, toolCallEvents);
      var i := 0;
      while i < |lines|
        invariant 0 <= i <= |lines|
        invariant (mcpMonitor.recentToolCalls, toolCallEvents) == Fanout(start, lines[..i], now)
      {
        FanoutStep(start, lines, i, now);
        MonitorLine(lines[i], now);
        i := i + 1;
      }
      assert lines[..i] == lines;
    }

    /** `processString`: the text's UTF-8 bytes, `encode`, go through `processData`. */
    method ProcessString(text: string, encode: string -> seq<Byte>, decode: seq<Byte> -> Option<string>,
                         strip: string -> string, now: int)
      requires Valid()
      modifies this, statusDetector, mcpMonitor
      ensures Model() == DataProcessed(old(Model()), encode(text), decode, strip, now)
      ensures Valid()
    {
      ProcessData(encode(text), decode, strip, now);
    }

    method Reset()
      modifies this, statusDetector, mcpMonitor
      ensures Model() == Cleared(old(Model()))
      ensures Valid()
    {
      statusDetector.Reset();
      mcpMonitor.Reset();
      lastStatus := None;
    }
  }
}
