/**
  `ProcessManager`: the table of the terminal processes of the running
  sessions, keyed by session id, with input, resize and broadcast delivery.

  A process's `sendInput` and `resize` closures are not modelled as code:
  what they are handed is recorded, in order, in the ghost log `delivered`,
  and the SIGTERMs sent in the ghost log `terminated`. Session ids are UUID
  texts.
 */
module ProcessManagement {

  import opened Wrappers
  import opened Text

  datatype TerminalProcess = TerminalProcess(sessionID: string, pid: int)

  /** What a process's closures were handed. */
  datatype Delivery =
    | Input(process: TerminalProcess, text: string)
    | Resize(process: TerminalProcess, cols: int, rows: int)

  /**
    Swift's `hasSuffix("\n")`, which compares Characters: the text ends in a
    line feed that is a Character of its own. A carriage return right before
    it joins it into the one Character CR LF, which is not "\n".
   */
  predicate EndsInLoneLineFeed(s: string) {
    HasSuffix(s, "\n") && !HasSuffix(s, "\r\n")
  }

  /** `broadcast`'s text: the prompt with a newline appended unless its last Character is a line feed. */
  function WithNewline(prompt: string): (r: string)
    ensures HasSuffix(r, "\n")
    ensures EndsInLoneLineFeed(prompt) ==> r == prompt
    ensures !EndsInLoneLineFeed(prompt) ==> r == prompt + "\n"
  {
    if EndsInLoneLineFeed(prompt) then prompt else prompt + "\n"
  }

  /** A prompt ending in CR LF gets a second line feed, since its last Character is CR LF. */
  lemma CrLfPromptGetsLineFeed(prompt: string)
    requires HasSuffix(prompt, "\r\n")
    ensures WithNewline(prompt) == prompt + "\n"
  {
  }

  /**
    A prompt that went through `WithNewline` is left as it is, unless it ended
    in a carriage return: the line feed added then joins it into CR LF, and
    the second pass adds another line feed.
   */
  lemma WithNewlineIdempotent(prompt: string)
    ensures !HasSuffix(prompt, "\r") ==> WithNewline(WithNewline(prompt)) == WithNewline(prompt)
    ensures HasSuffix(prompt, "\r") ==> WithNewline(WithNewline(prompt)) == prompt + "\n\n"
  {
    if !EndsInLoneLineFeed(prompt) {
      var r := prompt + "\n";
      assert r[|r| - 1] == '\n';
      if |prompt| > 0 {
        assert r[|r| - 2] == prompt[|prompt| - 1];
      }
    }
  }

  /** The listed ids that have a process in the table, in list order. */
  function Registered(table: map<string, TerminalProcess>, ids: seq<string>): (r: seq<string>)
    ensures forall k :: 0 <= k < |r| ==> r[k] in table
  {
    if ids == [] then []
    else Registered(table, ids[..|ids| - 1]) + if ids[|ids| - 1] in table then [ids[|ids| - 1]] else []
  }

  /** An id is kept as often as it is listed if it has a process, and dropped otherwise. */
  lemma {:induction false} RegisteredCounts(table: map<string, TerminalProcess>, ids: seq<string>, id: string)
    ensures multiset(Registered(table, ids))[id] == if id in table then multiset(ids)[id] else 0
    decreases |ids|
  {
    if ids != [] {
      var init := ids[..|ids| - 1];
      RegisteredCounts(table, init, id);
      assert ids == init + [ids[|ids| - 1]];
    }
  }

  /** What `broadcast` hands out: the text, once per listed id that has a process, in list order. */
  function Broadcasted(table: map<string, TerminalProcess>, text: string, ids: seq<string>): (r: seq<Delivery>)
    decreases |ids|
  {
    if ids == [] then []
    else
      var last := ids[|ids| - 1];
      Broadcasted(table, text, ids[..|ids| - 1]) + if last in table then [Input(table[last], text)] else []
  }

  /**
    The broadcast goes to the registered listed sessions in list order, one
    input each per listing, all of the same text.
   */
  lemma {:induction false} BroadcastReachesRegistered(table: map<string, TerminalProcess>, text: string, ids: seq<string>)
    ensures var sent := Broadcasted(table, text, ids);
      var reached := Registered(table, ids);
      && |sent| == |reached|
      && forall k :: 0 <= k < |sent| ==> sent[k] == Input(table[reached[k]], text)
    decreases |ids|
  {
    if ids != [] {
      BroadcastReachesRegistered(table, text, ids[..|ids| - 1]);
    }
  }

  /**
    A broadcast over the table's own keys, each listed once, reaches every
    registered session exactly once.
   */
  lemma BroadcastToAllReachesEach(table: map<string, TerminalProcess>, text: string, ids: seq<string>, id: string)
    requires NoDuplicates(ids) && (forall i :: i in ids <==> i in table)
    requires id in table
    ensures multiset(Registered(table, ids))[id] == 1
    ensures Input(table[id], text) in Broadcasted(table, text, ids)
  {
    RegisteredCounts(table, ids, id);
    ListedOnce(ids, id);
    var reached := Registered(table, ids);
    assert id in multiset(reached);
    var j :| 0 <= j < |reached| && reached[j] == id;
    BroadcastReachesRegistered(table, text, ids);
    assert Broadcasted(table, text, ids)[j] == Input(table[id], text);
  }

  /** The pids of the listed processes, in list order. */
  function Pids(table: map<string, TerminalProcess>, ids: seq<string>): (r: seq<int>)
    requires forall i :: i in ids ==> i in table
    ensures |r| == |ids|
    ensures forall k :: 0 <= k < |ids| ==> r[k] == table[ids[k]].pid
  {
    if ids == [] then [] else Pids(table, ids[..|ids| - 1]) + [table[ids[|ids| - 1]].pid]
  }

  class ProcessManager {
    var activeProcesses: map<string, TerminalProcess>
    ghost var delivered: seq<Delivery>
    ghost var terminated: seq<int>

    /** Every process is filed under its own session id. */
    ghost predicate Valid()
      reads this
    {
      forall id :: id in activeProcesses ==> activeProcesses[id].sessionID == id
    }

    constructor ()
      ensures activeProcesses == map[] && delivered == [] && terminated == []
      ensures Valid()
    {
      activeProcesses := map[];
      delivered := [];
      terminated := [];
    }

    /** The process replaces any earlier one of its session. */
    method Register(process: TerminalProcess)
      requires Valid()
      modifies this`activeProcesses
      ensures activeProcesses == old(activeProcesses)[process.sessionID := process]
      ensures Valid()
    {
      activeProcesses := activeProcesses[process.sessionID := process];
    }

    /** Removes that session's entry, if any, and no other. */
    method Unregister(sessionID: string)
      requires Valid()
      modifies this`activeProcesses
      ensures activeProcesses == old(activeProcesses) - {sessionID}
      ensures Valid()
    {
      activeProcesses := activeProcesses - {sessionID};
    }

    method SendInput(text: string, sessionID: string)
      modifies this`delivered
      ensures sessionID in activeProcesses ==> delivered == old(delivered) + [Input(activeProcesses[sessionID], text)]
      ensures sessionID !in activeProcesses ==> delivered == old(delivered)
    {
      if sessionID in activeProcesses {
        delivered := delivered + [Input(activeProcesses[sessionID], text)];
      }
    }

    /** A size with a zero or negative dimension is dropped. */
    method ResizeTerminal(sessionID: string, cols: int, rows: int)
      modifies this`delivered
      ensures cols > 0 && rows > 0 && sessionID in activeProcesses ==>
        delivered == old(delivered) + [Resize(activeProcesses[sessionID], cols, rows)]
      ensures !(cols > 0 && rows > 0 && sessionID in activeProcesses) ==> delivered == old(delivered)
    {
      if !(cols > 0 && rows > 0) {
        return;
      }
      if sessionID in activeProcesses {
        delivered := delivered + [Resize(activeProcesses[sessionID], cols, rows)];
      }
    }

    method Broadcast(prompt: string, sessionIDs: seq<string>)
      modifies this`delivered
      ensures delivered == old(delivered) + Broadcasted(activeProcesses, WithNewline(prompt), sessionIDs)
    {
      var textWithNewline := if EndsInLoneLineFeed(prompt) then prompt else prompt + "\n";
      var i := 0;
      while i < |sessionIDs|
        invariant 0 <= i <= |sessionIDs|
        invariant delivered == old(delivered) + Broadcasted(activeProcesses, textWithNewline, sessionIDs[..i])
      {
        var id := sessionIDs[i];
        assert sessionIDs[..i + 1][..i] == sessionIDs[..i];
        if id in activeProcesses {
          delivered := delivered + [Input(activeProcesses[id], textWithNewline)];
        }
        i := i + 1;
      }
      assert sessionIDs[..i] == sessionIDs;
    }

    /** `Array(activeProcesses.keys)`: every key once, in the dictionary's own order, which is not modelled. */
    method Keys() returns (ids: seq<string>)
      ensures NoDuplicates(ids)
      ensures forall id :: id in ids <==> id in activeProcesses
    {
      var remaining := activeProcesses.Keys;
      ids := [];
      while remaining != {}
        invariant remaining <= activeProcesses.Keys
        invariant NoDuplicates(ids)
        invariant forall id :: id in ids <==> id in activeProcesses && id !in remaining
        decreases remaining
      {
        var id :| id in remaining;
        ids := ids + [id];
        remaining := remaining - {id};
      }
    }

    /** Every registered session gets the prompt exactly once (`BroadcastToAllReachesEach`). */
    method BroadcastToAll(prompt: string) returns (ghost order: seq<string>)
      modifies this`delivered
      ensures NoDuplicates(order) && forall id :: id in order <==> id in activeProcesses
      ensures delivered == old(delivered) + Broadcasted(activeProcesses, WithNewline(prompt), order)
    {
      var ids := Keys();
      Broadcast(prompt, ids);
      order := ids;
    }

    /** A known session's process gets SIGTERM and leaves the table; an unknown id changes nothing. */
    method KillProcess(sessionID: string)
      requires Valid()
      modifies this`activeProcesses, this`terminated
      ensures sessionID in old(activeProcesses) ==>
        && terminated == old(terminated) + [old(activeProcesses)[sessionID].pid]
        && activeProcesses == old(activeProcesses) - {sessionID}
      ensures sessionID !in old(activeProcesses) ==>
        terminated == old(terminated) && activeProcesses == old(activeProcesses)
      ensures Valid()
    {
      if sessionID !in activeProcesses {
        return;
      }
      var process := activeProcesses[sessionID];
      terminated := terminated + [process.pid];
      Unregister(sessionID);
    }

    /** Every process gets SIGTERM once, in the dictionary's order, and the table is left empty. */
    method KillAll() returns (ghost order: seq<string>)
      requires Valid()
      modifies this`activeProcesses, this`terminated
      ensures NoDuplicates(order) && forall id :: id in order <==> id in old(activeProcesses)
      ensures terminated == old(terminated) + Pids(old(activeProcesses), order)
      ensures activeProcesses == map[]
      ensures Valid()
    {
      var remaining := activeProcesses.Keys;
      order := [];
      while remaining != {}
        invariant activeProcesses == old(activeProcesses)
        invariant remaining <= activeProcesses.Keys
        invariant NoDuplicates(order)
        invariant forall id :: id in order <==> id in activeProcesses && id !in remaining
        invariant terminated == old(terminated) + Pids(activeProcesses, order)
        decreases remaining
      {
        var id :| id in remaining;
        terminated := terminated + [activeProcesses[id].pid];
        assert (order + [id])[..|order|] == order;
        order := order + [id];
        remaining := remaining - {id};
      }
      activeProcesses := map[];
    }

    method IsActive(sessionID: string) returns (active: bool)
      ensures active <==> sessionID in activeProcesses
    {
      active := sessionID in activeProcesses;
    }

    method Pid(sessionID: string) returns (pid: Option<int>)
      ensures pid.Some? <==> sessionID in activeProcesses
      ensures pid.Some? ==> pid.value == activeProcesses[sessionID].pid
    {
      pid := if sessionID in activeProcesses then Some(activeProcesses[sessionID].pid) else None;
    }
  }
}
