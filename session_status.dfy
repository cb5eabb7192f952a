/**
  `SessionStatus`, the state of a Claude Code session as detected from its
  terminal output, with its raw values and the fixed lookup tables the
  views use.
 */
module SessionStatuses {

  import opened Wrappers

  datatype SessionStatus = Idle | Thinking | ToolUse | Error | Disconnected

  /** `allCases`, in declaration order. */
  const AllCases: seq<SessionStatus> := [Idle, Thinking, ToolUse, Error, Disconnected]

  function RawValue(s: SessionStatus): string {
    match s
    case Idle => "idle"
    case Thinking => "thinking"
    case ToolUse => "toolUse"
    case Error => "error"
    case Disconnected => "disconnected"
  }

  /** `SessionStatus(rawValue:)`: the case with that raw value, if any. */
  function FromRaw(raw: string): (r: Option<SessionStatus>)
    ensures r.Some? ==> RawValue(r.value) == raw
    ensures r.None? <==> forall s :: RawValue(s) != raw
  {
    if raw == "idle" then Some(Idle)
    else if raw == "thinking" then Some(Thinking)
    else if raw == "toolUse" then Some(ToolUse)
    else if raw == "error" then Some(Error)
    else if raw == "disconnected" then Some(Disconnected)
    else None
  }

  /** Every case is listed once, and distinct cases have distinct raw values. */
  lemma AllCasesListedOnce()
    ensures forall s :: s in AllCases
    ensures forall i, j :: 0 <= i < j < |AllCases| ==> RawValue(AllCases[i]) != RawValue(AllCases[j])
  {
    forall s ensures s in AllCases {
      match s {
        case Idle => assert AllCases[0] == s;
        case Thinking => assert AllCases[1] == s;
        case ToolUse => assert AllCases[2] == s;
        case Error => assert AllCases[3] == s;
        case Disconnected => assert AllCases[4] == s;
      }
    }
  }

  /** A case read back from its raw value is the same case. */
  lemma RawValueRoundTrip(s: SessionStatus)
    ensures FromRaw(RawValue(s)) == Some(s)
  {
  }

  function DisplayName(s: SessionStatus): (r: string)
    ensures s != ToolUse ==> r == [RawValue(s)[0] - 'a' + 'A'] + RawValue(s)[1..]
    ensures s == ToolUse ==> r == "Tool Use"
  {
    match s
    case Idle => "Idle"
    case Thinking => "Thinking"
    case ToolUse => "Tool Use"
    case Error => "Error"
    case Disconnected => "Disconnected"
  }

  function SystemImageName(s: SessionStatus): string {
    match s
    case Idle => "circle.fill"
    case Thinking => "brain"
    case ToolUse => "hammer.fill"
    case Error => "exclamationmark.triangle.fill"
    case Disconnected => "xmark.circle.fill"
  }

  function ColorName(s: SessionStatus): string {
    match s
    case Idle => "green"
    case Thinking => "blue"
    case ToolUse => "orange"
    case Error => "red"
    case Disconnected => "gray"
  }

  /** The three tables tell the cases apart: no two cases share a name, an image or a colour. */
  lemma TablesDistinguishCases(s: SessionStatus, t: SessionStatus)
    requires s != t
    ensures DisplayName(s) != DisplayName(t)
    ensures SystemImageName(s) != SystemImageName(t)
    ensures ColorName(s) != ColorName(t)
  {
  }
}
