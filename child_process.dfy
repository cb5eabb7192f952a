/**
  `ChildProcessMonitor`: the processes started under a session's shell, found
  by walking the process tree from the shell's pid.

  `pgrep -P <pid>` and `ps -p <pid> -o comm=` are I/O: their outputs are the
  functions `pgrep` and `ps` from pid to text (empty when the tool could not
  be run). The tree is walked to at most `fuel` levels; the two-second timer
  and the hop to a background queue and back are not modelled: a refresh
  sets `children` at once.
 */
module ChildProcesses {

  import opened Wrappers
  import opened Text

  datatype ChildProcess = ChildProcess(pid: int, name: string)

  const Int32Min := -0x8000_0000
  const Int32Max := 0x7FFF_FFFF

  // ---------------------------------------------------------------- getChildPIDs

  predicate IsDigit(c: char) {
    '0' <= c <= '9'
  }

  predicate AllDigits(s: string) {
    forall i :: 0 <= i < |s| ==> IsDigit(s[i])
  }

  /** The value of a run of decimal digits. */
  function DecimalValue(ds: string): nat
    requires AllDigits(ds)
  {
    if ds == [] then 0 else DecimalValue(ds[..|ds| - 1]) * 10 + (ds[|ds| - 1] as int - '0' as int)
  }

  /**
    `Int32(text)`: an optional `+` or `-`, then one or more decimal digits,
    whose value fits in 32 bits; `None` for anything else.
   */
  function ParseInt32(s: string): (r: Option<int>)
    ensures r.Some? ==> Int32Min <= r.value <= Int32Max
    ensures s == [] ==> r.None?
  {
    var negative := |s| > 0 && s[0] == '-';
    var digits := if |s| > 0 && (s[0] == '-' || s[0] == '+') then s[1..] else s;
    if digits == [] || !AllDigits(digits) then None
    else
      var v: int := if negative then -(DecimalValue(digits) as int) else DecimalValue(digits);
      if Int32Min <= v <= Int32Max then Some(v) else None
  }

  /** The decimal text of a natural number, as `pgrep` prints a pid. */
  function Decimal(n: nat): (r: string)
    ensures r != [] && AllDigits(r)
  {
    if n < 10 then [('0' as int + n) as char] else Decimal(n / 10) + [('0' as int + n % 10) as char]
  }

  /** Reading a printed number gives the number back. */
  lemma {:induction false} DecimalValueOfDecimal(n: nat)
    ensures DecimalValue(Decimal(n)) == n
  {
    if n >= 10 {
      DecimalValueOfDecimal(n / 10);
      var d := Decimal(n);
      assert d[..|d| - 1] == Decimal(n / 10);
    }
  }

  /** A pid printed by `pgrep` parses back to itself. */
  lemma ParsePrintedPid(n: nat)
    requires n <= Int32Max
    ensures ParseInt32(Decimal(n)) == Some(n)
  {
    DecimalValueOfDecimal(n);
  }

  /** The pids of the lines that parse after trimming, in line order (`compactMap`). */
  function ParsedPids(lines: seq<string>): (r: seq<int>)
    ensures |r| <= |lines|
    ensures forall k :: 0 <= k < |r| ==> Int32Min <= r[k] <= Int32Max
  {
    if lines == [] then []
    else
      var p := ParseInt32(Trim(lines[0], IsSpace));
      (if p.Some? then [p.value] else []) + ParsedPids(lines[1..])
  }

  /** `getChildPIDs`: the non-empty lines of `pgrep`'s output that parse as `Int32`. */
  function ChildPIDs(output: string): seq<int> {
    ParsedPids(SplitNonEmpty(output, '\n'))
  }

  /** `Split` of a text that contains no separator is that text alone. */
  lemma {:induction false} SplitWithoutSeparator(a: string, c: char)
    requires c !in a
    ensures Split(a, x => x == c) == [a]
    decreases |a|
  {
    if a != [] {
      SplitWithoutSeparator(a[1..], c);
      assert a[0] != c;
      assert [a[0]] + a[1..] == a;
    }
  }

  /** Splitting at the first separator. */
  lemma {:induction false} SplitAtSeparator(a: string, c: char, t: string)
    requires c !in a
    ensures Split(a + [c] + t, x => x == c) == [a] + Split(t, x => x == c)
    decreases |a|
  {
    if a == [] {
      assert [c] + t == a + [c] + t;
      assert ([c] + t)[1..] == t;
    } else {
      var s := a + [c] + t;
      SplitAtSeparator(a[1..], c, t);
      assert s[0] == a[0] != c;
      assert s[1..] == a[1..] + [c] + t;
      var rest := Split(s[1..], x => x == c);
      assert rest[0] == a[1..] && rest[1..] == Split(t, x => x == c);
      assert [a[0]] + a[1..] == a;
    }
  }

  /** Joining parts that do not contain the separator and splitting again gives the parts back. */
  lemma {:induction false} SplitOfJoin(parts: seq<string>, c: char)
    requires parts != []
    requires forall k :: 0 <= k < |parts| ==> c !in parts[k]
    ensures Split(Join(parts, [c]), x => x == c) == parts
    decreases |parts|
  {
    if |parts| == 1 {
      SplitWithoutSeparator(parts[0], c);
    } else {
      SplitOfJoin(parts[1..], c);
      SplitAtSeparator(parts[0], c, Join(parts[1..], [c]));
      assert [parts[0]] + parts[1..] == parts;
    }
  }

  lemma {:induction false} NonEmptyKeepsAll(parts: seq<string>)
    requires forall k :: 0 <= k < |parts| ==> parts[k] != []
    ensures NonEmpty(parts) == parts
    decreases |parts|
  {
    if parts != [] {
      NonEmptyKeepsAll(parts[1..]);
    }
  }

  function PrintedPids(pids: seq<nat>): (r: seq<string>)
    ensures |r| == |pids|
    ensures forall k :: 0 <= k < |pids| ==> r[k] == Decimal(pids[k])
  {
    if pids == [] then [] else [Decimal(pids[0])] + PrintedPids(pids[1..])
  }

  /** `pgrep`'s output, one pid per line, is read back as those pids in order. */
  lemma PgrepOutputRead(pids: seq<nat>)
    requires pids != []
    requires forall k :: 0 <= k < |pids| ==> pids[k] <= Int32Max
    ensures ChildPIDs(Join(PrintedPids(pids), "\n")) == pids
  {
    var lines := PrintedPids(pids);
    forall k | 0 <= k < |lines|
      ensures '\n' !in lines[k]
    {
      assert AllDigits(lines[k]);
    }
    SplitOfJoin(lines, '\n');
    NonEmptyKeepsAll(lines);
    PrintedPidsParse(pids);
  }

  lemma {:induction false} PrintedPidsParse(pids: seq<nat>)
    requires forall k :: 0 <= k < |pids| ==> pids[k] <= Int32Max
    ensures ParsedPids(PrintedPids(pids)) == pids
    decreases |pids|
  {
    if pids != [] {
      var d := Decimal(pids[0]);
      assert Trim(d, IsSpace) == d by {
        assert !IsSpace(d[0]) && !IsSpace(d[|d| - 1]);
      }
      ParsePrintedPid(pids[0]);
      PrintedPidsParse(pids[1..]);
      assert PrintedPids(pids)[1..] == PrintedPids(pids[1..]);
    }
  }

  // ---------------------------------------------------------------- findDescendants

  /** The direct children of each pid, as `getChildPIDs` reads them from `pgrep`. */
  function ChildrenOf(pgrep: int -> string): int -> seq<int> {
    p => ChildPIDs(pgrep(p))
  }

  /** Shell wrappers: walked through but never listed. */
  const Shells: set<string> := {"zsh", "bash", "sh", "login"}

  /**
    The name each pid is shown under: what `ps` printed (`getProcessName`),
    trimmed and reduced to its last path component.
   */
  function ShortNames(ps: int -> string): (int -> string) {
    p => LastPathComponent(Trim(ps(p), IsSpaceOrNewline))
  }

  /** The lists `f` gives for the elements of `xs`, one after the other (`append(contentsOf:)` in a loop). */
  function Flatten<T, U>(f: T -> seq<U>, xs: seq<T>): seq<U> {
    if xs == [] then [] else Flatten(f, xs[..|xs| - 1]) + f(xs[|xs| - 1])
  }

  lemma {:induction false} FlattenConcat<T, U>(f: T -> seq<U>, a: seq<T>, b: seq<T>)
    ensures Flatten(f, a + b) == Flatten(f, a) + Flatten(f, b)
    decreases |b|
  {
    if b == [] {
      assert a + b == a;
    } else {
      assert (a + b)[..|a + b| - 1] == a + b[..|b| - 1];
      FlattenConcat(f, a, b[..|b| - 1]);
    }
  }

  lemma {:induction false} FlattenMember<T, U>(f: T -> seq<U>, xs: seq<T>, u: U)
    requires u in Flatten(f, xs)
    ensures exists x :: x in xs && u in f(x)
    decreases |xs|
  {
    var init := xs[..|xs| - 1];
    if u !in f(xs[|xs| - 1]) {
      FlattenMember(f, init, u);
      var x :| x in init && u in f(x);
      assert x in xs;
    }
  }

  /** `findDescendants(of:)`, walking at most `fuel` levels below `pid`. */
  function Descendants(kids: int -> seq<int>, names: int -> string, pid: int, fuel: nat): seq<ChildProcess>
    decreases fuel, 0
  {
    if fuel == 0 then [] else Listing(kids, names, kids(pid), fuel - 1)
  }

  /** The results for the children `pids`, one after the other in list order. */
  function Listing(kids: int -> seq<int>, names: int -> string, pids: seq<int>, fuel: nat): seq<ChildProcess>
    decreases fuel, 3
  {
    Flatten(VisitEach(kids, names, fuel), pids)
  }

  /** `Visit` as the function of the child's pid. */
  function VisitEach(kids: int -> seq<int>, names: int -> string, fuel: nat): (int -> seq<ChildProcess>)
    decreases fuel, 2
  {
    q => Visit(kids, names, q, fuel)
  }

  /** One child: a shell is walked through, a process with no name is skipped, any other is listed before its descendants. */
  function Visit(kids: int -> seq<int>, names: int -> string, pid: int, fuel: nat): seq<ChildProcess>
    decreases fuel, 1
  {
    var name := names(pid);
    if name in Shells then Descendants(kids, names, pid, fuel)
    else if name != [] then [ChildProcess(pid, name)] + Descendants(kids, names, pid, fuel)
    else []
  }

  /** `q` is below `root` in the process tree, at most `fuel` levels down. */
  ghost predicate Below(kids: int -> seq<int>, root: int, p: int, fuel: nat)
    decreases fuel
  {
    fuel > 0 && exists q :: q in kids(root) && (q == p || Below(kids, q, p, fuel - 1))
  }

  /** What a listed process looks like: under its short name, which is neither empty nor a shell's. */
  ghost predicate Shown(names: int -> string, c: ChildProcess) {
    c.name == names(c.pid) && c.name != [] && c.name !in Shells
  }

  /**
    What the monitor lists: processes below the parent, each named by the
    last path component of what `ps` printed for it, never an empty name or
    a shell's.
   */
  lemma MonitorListing(pgrep: int -> string, ps: int -> string, pid: int, fuel: nat)
    ensures forall c :: c in Descendants(ChildrenOf(pgrep), ShortNames(ps), pid, fuel) ==>
      && c.name == LastPathComponent(Trim(ps(c.pid), IsSpaceOrNewline))
      && c.name != [] && c.name !in Shells
      && Below(ChildrenOf(pgrep), pid, c.pid, fuel)
  {
    DescendantsListed(ChildrenOf(pgrep), ShortNames(ps), pid, fuel);
  }

  /** A child of `parent` and whatever lies below it lie below `parent`. */
  lemma BelowStep(kids: int -> seq<int>, parent: int, q: int, p: int, fuel: nat)
    requires q in kids(parent)
    requires q == p || Below(kids, q, p, fuel)
    ensures Below(kids, parent, p, fuel + 1)
  {
  }

  /**
    Only processes below `pid` are listed, each under the last component of
    its name, which is neither empty nor a shell's.
   */
  lemma {:induction false} DescendantsListed(kids: int -> seq<int>, names: int -> string, pid: int, fuel: nat)
    ensures forall c :: c in Descendants(kids, names, pid, fuel) ==> Shown(names, c) && Below(kids, pid, c.pid, fuel)
    decreases fuel, 0
  {
    if fuel > 0 {
      var f := VisitEach(kids, names, fuel - 1);
      assert Descendants(kids, names, pid, fuel) == Flatten(f, kids(pid));
      forall c | c in Descendants(kids, names, pid, fuel)
        ensures Shown(names, c) && Below(kids, pid, c.pid, fuel)
      {
        FlattenMember(f, kids(pid), c);
        var q :| q in kids(pid) && c in f(q);
        ListedViaChild(kids, names, pid, q, c, fuel - 1);
      }
    }
  }

  lemma {:induction false} ListedViaChild(kids: int -> seq<int>, names: int -> string, pid: int, q: int,
                                          c: ChildProcess, fuel: nat)
    requires q in kids(pid) && c in VisitEach(kids, names, fuel)(q)
    ensures Shown(names, c) && Below(kids, pid, c.pid, fuel + 1)
    decreases fuel, 2
  {
    assert VisitEach(kids, names, fuel)(q) == Visit(kids, names, q, fuel);
    VisitListed(kids, names, q, fuel);
    BelowStep(kids, pid, q, c.pid, fuel);
  }

  lemma {:induction false} VisitListed(kids: int -> seq<int>, names: int -> string, pid: int, fuel: nat)
    ensures forall c :: c in Visit(kids, names, pid, fuel) ==> Shown(names, c) && (c.pid == pid || Below(kids, pid, c.pid, fuel))
    decreases fuel, 1
  {
    DescendantsListed(kids, names, pid, fuel);
  }

  /** The list for the first `i + 1` children is that for the first `i` and then the `i`-th child's part. */
  lemma ListingStep(kids: int -> seq<int>, names: int -> string, pids: seq<int>, i: nat, fuel: nat)
    requires i < |pids|
    ensures Listing(kids, names, pids[..i + 1], fuel) == Listing(kids, names, pids[..i], fuel) + Visit(kids, names, pids[i], fuel)
  {
    assert pids[..i + 1][..i] == pids[..i];
    assert VisitEach(kids, names, fuel)(pids[i]) == Visit(kids, names, pids[i], fuel);
  }

  /** Siblings are listed in the order `pgrep` gives them: a run of children lists as its parts, one after the other. */
  lemma ListingConcat(kids: int -> seq<int>, names: int -> string, a: seq<int>, b: seq<int>, fuel: nat)
    ensures Listing(kids, names, a + b, fuel) == Listing(kids, names, a, fuel) + Listing(kids, names, b, fuel)
  {
    FlattenConcat(VisitEach(kids, names, fuel), a, b);
  }

  /** The part of the list that comes from the `k`-th child sits between its elder and its younger siblings' parts. */
  lemma ChildInPlace(kids: int -> seq<int>, names: int -> string, pid: int, fuel: nat, k: nat)
    requires fuel > 0 && k < |kids(pid)|
    ensures var cs := kids(pid);
      Descendants(kids, names, pid, fuel)
      == Listing(kids, names, cs[..k], fuel - 1) + Visit(kids, names, cs[k], fuel - 1)
         + Listing(kids, names, cs[k + 1..], fuel - 1)
  {
    var cs := kids(pid);
    assert cs == cs[..k] + ([cs[k]] + cs[k + 1..]);
    ListingConcat(kids, names, cs[..k], [cs[k]] + cs[k + 1..], fuel - 1);
    ListingConcat(kids, names, [cs[k]], cs[k + 1..], fuel - 1);
    assert Listing(kids, names, [cs[k]], fuel - 1) == Visit(kids, names, cs[k], fuel - 1) by {
      var f := VisitEach(kids, names, fuel - 1);
      assert [cs[k]][..0] == [];
      assert Flatten(f, [cs[k]]) == Flatten(f, []) + f(cs[k]);
    }
  }

  /** A child whose name is neither empty nor a shell's is listed, immediately followed by its own descendants. */
  lemma DisplayableChildListed(kids: int -> seq<int>, names: int -> string, pid: int, fuel: nat, k: nat)
    requires fuel > 0 && k < |kids(pid)|
    requires names(kids(pid)[k]) != [] && names(kids(pid)[k]) !in Shells
    ensures var q := kids(pid)[k];
      var front := Listing(kids, names, kids(pid)[..k], fuel - 1);
      var all := Descendants(kids, names, pid, fuel);
      && |front| + 1 + |Descendants(kids, names, q, fuel - 1)| <= |all|
      && all[|front|] == ChildProcess(q, names(q))
      && all[|front| + 1..|front| + 1 + |Descendants(kids, names, q, fuel - 1)|] == Descendants(kids, names, q, fuel - 1)
  {
    ChildInPlace(kids, names, pid, fuel, k);
  }

  /**
    A shell adds only what lies below it, an unnamed child adds nothing, and
    any other child adds its own entry followed by what lies below it.
   */
  lemma VisitCases(kids: int -> seq<int>, names: int -> string, pid: int, fuel: nat)
    ensures names(pid) in Shells ==> Visit(kids, names, pid, fuel) == Descendants(kids, names, pid, fuel)
    ensures names(pid) == [] ==> Visit(kids, names, pid, fuel) == []
    ensures names(pid) != [] && names(pid) !in Shells ==>
      Visit(kids, names, pid, fuel) == [ChildProcess(pid, names(pid))] + Descendants(kids, names, pid, fuel)
  {
  }

  /**
    The recursive walk, looping over the children as `findDescendants` does.
    `kids` is `getChildPIDs(of:)` and `names` the short name of a pid; the
    monitor passes `ChildrenOf(pgrep)` and `ShortNames(ps)`.
   */
  method FindDescendants(kids: int -> seq<int>, names: int -> string, pid: int, fuel: nat) returns (all: seq<ChildProcess>)
    ensures all == Descendants(kids, names, pid, fuel)
    decreases fuel
  {
    all := [];
    if fuel == 0 {
      return;
    }
    var directChildren := kids(pid);
    for i := 0 to |directChildren|
      invariant all == Listing(kids, names, directChildren[..i], fuel - 1)
    {
      var childPID := directChildren[i];
      ListingStep(kids, names, directChildren, i, fuel - 1);
      VisitCases(kids, names, childPID, fuel - 1);
      var shortName := names(childPID);
      if shortName in Shells {
        var below := FindDescendants(kids, names, childPID, fuel - 1);
        all := all + below;
        assert all == Listing(kids, names, directChildren[..i + 1], fuel - 1);
      } else if shortName != [] {
        ghost var before := all;
        all := all + [ChildProcess(childPID, shortName)];
        var below := FindDescendants(kids, names, childPID, fuel - 1);
        all := all + below;
        assert all == before + ([ChildProcess(childPID, shortName)] + below);
        assert all == Listing(kids, names, directChildren[..i + 1], fuel - 1);
      } else {
        assert all + [] == all;
        assert all == Listing(kids, names, directChildren[..i + 1], fuel - 1);
      }
    }
    assert directChildren[..|directChildren|] == directChildren;
  }

  class ChildProcessMonitor {
    var children: seq<ChildProcess>
    var parentPID: Option<int>
    /** Whether the two-second polling timer is set. */
    var polling: bool

    constructor ()
      ensures children == [] && parentPID == None && !polling
    {
      children := [];
      parentPID := None;
      polling := false;
    }

    /** `refresh`: with no parent pid nothing happens; otherwise the children are the walk's result. */
    method Refresh(pgrep: int -> string, ps: int -> string, fuel: nat)
      modifies this`children
      ensures parentPID.None? ==> children == old(children)
      ensures parentPID.Some? ==> children == Descendants(ChildrenOf(pgrep), ShortNames(ps), parentPID.value, fuel)
    {
      if parentPID.None? {
        return;
      }
      children := FindDescendants(ChildrenOf(pgrep), ShortNames(ps), parentPID.value, fuel);
    }

    method Start(parentPID: int, pgrep: int -> string, ps: int -> string, fuel: nat)
      modifies this
      ensures this.parentPID == Some(parentPID) && polling
      ensures children == Descendants(ChildrenOf(pgrep), ShortNames(ps), parentPID, fuel)
    {
      this.parentPID := Some(parentPID);
      polling := true;
      Refresh(pgrep, ps, fuel);
    }

    /** `stop`: the timer is cancelled and the list cleared; the parent pid is kept. */
    method Stop()
      modifies this`polling, this`children
      ensures !polling && children == []
    {
      polling := false;
      children := [];
    }
  }
}
