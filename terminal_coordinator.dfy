/**
  The coordinator of the phone's `RemoteTerminalView`: it feeds the terminal
  only what is new in the transcript, forwards typed input, and reports each
  new terminal size once, the first one as the initial size.

  What the coordinator feeds the terminal is kept as a list of `Feed`s; the
  reset escape `ESC c` is a `Reset`. `Shown` is what the terminal then holds
  since its last reset, which is how the delta rendering is specified.
 */
module TerminalCoordinator {

  import opened Wrappers
  import opened Text

  type Byte = bv8

  datatype Feed = Reset | Chars(text: string)

  /** The text the terminal holds after the feeds: everything since the last reset. */
  function Shown(feeds: seq<Feed>): string {
    if feeds == [] then []
    else match feeds[|feeds| - 1]
      case Reset => []
      case Chars(t) => Shown(feeds[..|feeds| - 1]) + t
  }

  lemma ShownAppend(feeds: seq<Feed>, more: seq<Feed>, t: string)
    requires more == [Chars(t)]
    ensures Shown(feeds + more) == Shown(feeds) + t
  {
    assert (feeds + more)[..|feeds + more| - 1] == feeds;
  }

  datatype View = View(
    lastTranscript: string,
    lastSize: Option<(int, int)>,
    hasSentInitialSize: bool,
    fed: seq<Feed>,
    inputs: seq<string>,
    initialSizes: seq<(int, int)>,
    resizes: seq<(int, int)>)

  const Fresh := View([], None, false, [], [], [], [])

  /** `render`: nothing for an unchanged transcript, the delta for an extension, else reset and redraw. */
  function Rendered(v: View, transcript: string): View {
    if transcript == v.lastTranscript then v
    else if HasPrefix(transcript, v.lastTranscript) then
      var delta := transcript[|v.lastTranscript|..];
      v.(fed := v.fed + (if delta != [] then [Chars(delta)] else []), lastTranscript := transcript)
    else
      v.(fed := v.fed + [Reset, Chars(transcript)], lastTranscript := transcript)
  }

  /**
    Rendering keeps the terminal showing the transcript: if it showed the last
    transcript, it shows the new one. An unchanged transcript feeds nothing,
    and an extension of the last one feeds exactly the new characters, with
    no reset.
   */
  lemma {:induction false} RenderShowsTranscript(v: View, transcript: string)
    requires Shown(v.fed) == v.lastTranscript
    ensures var r := Rendered(v, transcript);
      && r.lastTranscript == transcript
      && Shown(r.fed) == transcript
      && (transcript == v.lastTranscript ==> r == v)
      && (transcript != v.lastTranscript && HasPrefix(transcript, v.lastTranscript) ==>
            r.fed == v.fed + [Chars(transcript[|v.lastTranscript|..])])
  {
    var r := Rendered(v, transcript);
    if transcript == v.lastTranscript {
    } else if HasPrefix(transcript, v.lastTranscript) {
      var delta := transcript[|v.lastTranscript|..];
      assert transcript == v.lastTranscript + delta;
      assert delta != [];
      ShownAppend(v.fed, [Chars(delta)], delta);
    } else {
      var reset := v.fed + [Reset];
      assert reset[..|reset| - 1] == v.fed;
      assert Shown(reset) == [];
      assert v.fed + [Reset, Chars(transcript)] == reset + [Chars(transcript)];
      ShownAppend(reset, [Chars(transcript)], transcript);
    }
  }

  /** `send(source:data:)`: decoded input goes on unless it is empty. */
  function Sent(v: View, data: seq<Byte>, decodeUtf8: seq<Byte> -> string): View {
    var text := decodeUtf8(data);
    if text == [] then v else v.(inputs := v.inputs + [text])
  }

  /** The sizes reported so far, in order: the initial one, then the resizes. */
  function Reported(v: View): seq<(int, int)> {
    v.initialSizes + v.resizes
  }

  /** `sizeChanged`: a repeat of the last size is ignored; the first size is the initial one. */
  function Resized(v: View, cols: int, rows: int): View {
    if v.lastSize == Some((cols, rows)) then v
    else if !v.hasSentInitialSize then
      v.(lastSize := Some((cols, rows)), hasSentInitialSize := true, initialSizes := v.initialSizes + [(cols, rows)])
    else
      v.(lastSize := Some((cols, rows)), resizes := v.resizes + [(cols, rows)])
  }

  /**
    The coordinator's invariant: the terminal shows the last transcript; at
    most one initial size was reported, and before any resize; no size was
    reported twice in a row; and the last size is the last one reported.
   */
  ghost predicate Valid(v: View) {
    && Shown(v.fed) == v.lastTranscript
    && |v.initialSizes| <= 1
    && (v.hasSentInitialSize <==> |v.initialSizes| == 1)
    && (v.resizes != [] ==> v.hasSentInitialSize)
    && (forall i :: 0 < i < |Reported(v)| ==> Reported(v)[i] != Reported(v)[i - 1])
    && (if Reported(v) == [] then v.lastSize.None? else v.lastSize == Some(Reported(v)[|Reported(v)| - 1]))
  }

  lemma FreshIsValid()
    ensures Valid(Fresh)
  {
  }

  /** Rendering and typed input keep the invariant. */
  lemma RenderAndSendKeepValid(v: View, transcript: string, data: seq<Byte>, decodeUtf8: seq<Byte> -> string)
    requires Valid(v)
    ensures Valid(Rendered(v, transcript))
    ensures Valid(Sent(v, data, decodeUtf8))
  {
    RenderShowsTranscript(v, transcript);
    var r := Rendered(v, transcript);
    assert Reported(r) == Reported(v);
  }

  /** A size change keeps the invariant. */
  lemma ResizeKeepsValid(v: View, cols: int, rows: int)
    requires Valid(v)
    ensures Valid(Resized(v, cols, rows))
  {
    var r := Resized(v, cols, rows);
    var size := (cols, rows);
    if v.lastSize == Some(size) {
    } else if !v.hasSentInitialSize {
      assert Reported(v) == [];
      assert Reported(r) == [size];
    } else {
      assert Reported(r) == Reported(v) + [size];
      assert Reported(v) != [];
      forall i | 0 < i < |Reported(r)|
        ensures Reported(r)[i] != Reported(r)[i - 1]
      {
        if i < |Reported(v)| {
          assert Reported(r)[i] == Reported(v)[i] && Reported(r)[i - 1] == Reported(v)[i - 1];
        }
      }
    }
  }

  /**
    A size is reported exactly when it differs from the last one; the first
    reported size goes to `onInitialSize` and every later one to `onResize`.
   */
  lemma SizeReportedOncePerChange(v: View, cols: int, rows: int)
    requires Valid(v)
    ensures var r := Resized(v, cols, rows);
      && (v.lastSize == Some((cols, rows)) ==> r == v)
      && (v.lastSize != Some((cols, rows)) ==>
            && Reported(r) == Reported(v) + [(cols, rows)]
            && (if Reported(v) == [] then r.initialSizes == [(cols, rows)] && r.resizes == []
                else r.initialSizes == v.initialSizes && r.resizes == v.resizes + [(cols, rows)]))
  {
  }

  class Coordinator {
    var lastTranscript: string
    var lastSize: Option<(int, int)>
    var hasSentInitialSize: bool
    ghost var fed: seq<Feed>
    ghost var inputs: seq<string>
    ghost var initialSizes: seq<(int, int)>
    ghost var resizes: seq<(int, int)>

    ghost function Model(): View
      reads this
    {
      View(lastTranscript, lastSize, hasSentInitialSize, fed, inputs, initialSizes, resizes)
    }

    constructor ()
      ensures Model() == Fresh
    {
      lastTranscript := [];
      lastSize := None;
      hasSentInitialSize := false;
      fed := [];
      inputs := [];
      initialSizes := [];
      resizes := [];
    }

    method Render(transcript: string)
      modifies this
      ensures Model() == Rendered(old(Model()), transcript)
    {
      if transcript == lastTranscript {
        return;
      }
      if HasPrefix(transcript, lastTranscript) {
        var delta := transcript[|lastTranscript|..];
        if delta != [] {
          fed := fed + [Chars(delta)];
        }
      } else {
        fed := fed + [Reset];
        fed := fed + [Chars(transcript)];
      }
      lastTranscript := transcript;
    }

    method Send(data: seq<Byte>, decodeUtf8: seq<Byte> -> string)
      modifies this
      ensures Model() == Sent(old(Model()), data, decodeUtf8)
    {
      var text := decodeUtf8(data);
      if text == [] {
        return;
      }
      inputs := inputs + [text];
    }

    method SizeChanged(cols: int, rows: int)
      modifies this
      ensures Model() == Resized(old(Model()), cols, rows)
    {
      if lastSize == Some((cols, rows)) {
        return;
      }
      lastSize := Some((cols, rows));
      if !hasSentInitialSize {
        hasSentInitialSize := true;
        initialSizes := initialSizes + [(cols, rows)];
        return;
      }
      resizes := resizes + [(cols, rows)];
    }
  }
}
