/**
  `SessionManager`: creation, update, ordering and grouping of the Mac app's
  sessions. The SwiftData model context is the pair of object lists
  `sessions` and `groups`; an insert appends, a delete removes, and a fetch
  filters and sorts them. Saving is not modelled.
 */
module SessionManagement {

  import opened Wrappers
  import opened Text
  import opened SessionStatuses
  import opened SessionModels

  const MaxPreviewLength := 200

  // ---------------------------------------------------------------- sorting by key

  predicate KeysAscending<T>(ps: seq<(int, T)>) {
    forall i, j :: 0 <= i < j < |ps| ==> ps[i].0 <= ps[j].0
  }

  lemma ConsAscending<T>(h: (int, T), rest: seq<(int, T)>)
    requires KeysAscending(rest)
    requires forall k :: 0 <= k < |rest| ==> h.0 <= rest[k].0
    ensures KeysAscending([h] + rest)
  {
  }

  /** A key no greater than any key of `others` or of `p` is no greater than any key of their union. */
  lemma BoundsUnion<T>(h: (int, T), rest: seq<(int, T)>, others: seq<(int, T)>, p: (int, T))
    requires multiset(rest) == multiset(others) + multiset{p}
    requires h.0 <= p.0 && forall k :: 0 <= k < |others| ==> h.0 <= others[k].0
    ensures forall k :: 0 <= k < |rest| ==> h.0 <= rest[k].0
  {
    forall k | 0 <= k < |rest|
      ensures h.0 <= rest[k].0
    {
      assert rest[k] in multiset(rest);
    }
  }

  function InsertByKey<T>(p: (int, T), sorted: seq<(int, T)>): (r: seq<(int, T)>)
    requires KeysAscending(sorted)
    ensures multiset(r) == multiset(sorted) + multiset{p}
    ensures KeysAscending(r)
  {
    if sorted == [] || p.0 <= sorted[0].0 then [p] + sorted
    else
      var rest := InsertByKey(p, sorted[1..]);
      BoundsUnion(sorted[0], rest, sorted[1..], p);
      ConsAscending(sorted[0], rest);
      assert sorted == [sorted[0]] + sorted[1..];
      [sorted[0]] + rest
  }

  /** `SortDescriptor(\.sortOrder)`: the pairs in ascending key order. */
  function SortByKey<T>(ps: seq<(int, T)>): (r: seq<(int, T)>)
    ensures multiset(r) == multiset(ps)
    ensures KeysAscending(r)
  {
    if ps == [] then []
    else
      assert ps == ps[..|ps| - 1] + [ps[|ps| - 1]];
      InsertByKey(ps[|ps| - 1], SortByKey(ps[..|ps| - 1]))
  }

  function Seconds<T>(ps: seq<(int, T)>): (r: seq<T>)
    ensures |r| == |ps| && forall i :: 0 <= i < |ps| ==> r[i] == ps[i].1
  {
    seq(|ps|, i requires 0 <= i < |ps| => ps[i].1)
  }

  /** Taking out the element at `k`. */
  lemma RemoveAt<T>(qs: seq<(int, T)>, k: nat)
    requires k < |qs|
    ensures multiset(qs[..k] + qs[k + 1..]) == multiset(qs) - multiset{qs[k]}
    ensures multiset(Seconds(qs)) == multiset(Seconds(qs[..k] + qs[k + 1..])) + multiset{qs[k].1}
  {
    var a, b := qs[..k], qs[k + 1..];
    assert qs == a + [qs[k]] + b;
    SecondsRemoved(a, qs[k], b);
  }

  lemma SecondsRemoved<T>(a: seq<(int, T)>, x: (int, T), b: seq<(int, T)>)
    ensures multiset(Seconds(a + [x] + b)) == multiset(Seconds(a + b)) + multiset{x.1}
  {
    SecondsConcat(a + [x], b);
    SecondsConcat(a, [x]);
    SecondsConcat(a, b);
  }

  lemma SecondsConcat<T>(a: seq<(int, T)>, b: seq<(int, T)>)
    ensures Seconds(a + b) == Seconds(a) + Seconds(b)
  {
  }

  /** Two permutations of pairs carry the same second components. */
  lemma {:induction false} SecondsPermutation<T>(ps: seq<(int, T)>, qs: seq<(int, T)>)
    requires multiset(ps) == multiset(qs)
    ensures multiset(Seconds(ps)) == multiset(Seconds(qs))
    decreases |ps|
  {
    if ps != [] {
      var n := |ps| - 1;
      assert ps[n] in multiset(qs);
      var k :| 0 <= k < |qs| && qs[k] == ps[n];
      RemoveAt(ps, n);
      RemoveAt(qs, k);
      assert ps[..n] + ps[n + 1..] == ps[..n];
      SecondsPermutation(ps[..n], qs[..k] + qs[k + 1..]);
    }
  }

  // ---------------------------------------------------------------- the stored sessions

  /** The sessions a fetch with `includeArchived` selects, in store order. */
  function Visible(ss: seq<Session>, includeArchived: bool): (r: seq<Session>)
    reads ss
    ensures forall s :: s in r ==> s in ss && (includeArchived || !s.isArchived)
    ensures forall s :: s in ss && (includeArchived || !s.isArchived) ==> s in r
    ensures multiset(r) <= multiset(ss)
  {
    if ss == [] then []
    else
      var init := Visible(ss[..|ss| - 1], includeArchived);
      var last := ss[|ss| - 1];
      assert ss == ss[..|ss| - 1] + [last];
      init + if includeArchived || !last.isArchived then [last] else []
  }

  predicate SessionsAscending(ss: seq<Session>)
    reads ss
  {
    forall i, j :: 0 <= i < j < |ss| ==> ss[i].sortOrder <= ss[j].sortOrder
  }

  predicate GroupsAscending(gs: seq<SessionGroup>)
    reads gs
  {
    forall i, j :: 0 <= i < j < |gs| ==> gs[i].sortOrder <= gs[j].sortOrder
  }

  /** The highest `sortOrder` of the sessions, archived ones included, or -1 if there are none. */
  function MaxSessionOrder(ss: seq<Session>): (r: int)
    reads ss
    ensures forall s :: s in ss ==> s.sortOrder <= r
    ensures ss == [] ==> r == -1
    ensures ss != [] ==> exists s :: s in ss && s.sortOrder == r
  {
    if ss == [] then -1
    else
      var m := MaxSessionOrder(ss[..|ss| - 1]);
      var last := ss[|ss| - 1];
      assert ss == ss[..|ss| - 1] + [last];
      if ss[..|ss| - 1] == [] || last.sortOrder > m then last.sortOrder else m
  }

  /** The highest `sortOrder` of the groups, or -1 if there are none. */
  function MaxGroupOrder(gs: seq<SessionGroup>): (r: int)
    reads gs
    ensures forall g :: g in gs ==> g.sortOrder <= r
    ensures gs == [] ==> r == -1
    ensures gs != [] ==> exists g :: g in gs && g.sortOrder == r
  {
    if gs == [] then -1
    else
      var m := MaxGroupOrder(gs[..|gs| - 1]);
      var last := gs[|gs| - 1];
      assert gs == gs[..|gs| - 1] + [last];
      if gs[..|gs| - 1] == [] || last.sortOrder > m then last.sortOrder else m
  }

  /** The list without `x`: a delete from the model context. */
  function Without<T(==)>(s: seq<T>, x: T): (r: seq<T>)
    ensures forall y :: y in r ==> y in s && y != x
    ensures forall y :: y in s && y != x ==> y in r
    ensures NoDuplicates(s) ==> NoDuplicates(r)
  {
    if s == [] then []
    else
      var init := Without(s[..|s| - 1], x);
      var last := s[|s| - 1];
      assert s == s[..|s| - 1] + [last];
      assert NoDuplicates(s) ==> last !in s[..|s| - 1] && NoDuplicates(s[..|s| - 1]);
      init + if last == x then [] else [last]
  }

  /** The two snapshots differ at most in `sortOrder`. */
  predicate SameExceptOrder(a: SessionRecord, b: SessionRecord) {
    a.(sortOrder := 0) == b.(sortOrder := 0)
  }

  /** Position `j` is the last listing of its element among the first `n`. */
  predicate LastListing<T(==)>(xs: seq<T>, j: nat, n: nat)
    requires j < n <= |xs|
  {
    xs[j] !in xs[j + 1..n]
  }

  /** Position `j` is the last listing among the first `i + 1` when it is among the first `i` and `i` lists something else. */
  lemma NotListedLater<T>(xs: seq<T>, j: nat, i: nat)
    requires j < i < |xs|
    ensures LastListing(xs, j, i + 1) <==> LastListing(xs, j, i) && xs[j] != xs[i]
  {
    assert xs[j + 1..i + 1] == xs[j + 1..i] + [xs[i]];
  }

  /** Among the first `n` listed sessions, each one's order is the index of its last listing. */
  predicate OrderedAsListed(list: seq<Session>, n: nat)
    requires n <= |list|
    reads list
  {
    forall j {:trigger LastListing(list, j, n)} :: 0 <= j < n && LastListing(list, j, n) ==> list[j].sortOrder == j
  }

  class SessionManager {
    var sessions: seq<Session>
    var groups: seq<SessionGroup>
    var selectedSessionID: Option<string>

    /** The model context holds each object once. */
    ghost predicate Valid()
      reads this
    {
      NoDuplicates(sessions) && NoDuplicates(groups)
    }

    constructor ()
      ensures sessions == [] && groups == [] && selectedSessionID.None?
      ensures Valid()
    {
      sessions := [];
      groups := [];
      selectedSessionID := None;
    }

    /** A new session goes after every stored one, archived ones included: its order is their maximum plus one, or 0. */
    method CreateSession(name: string, projectPath: string, claudeFlags: string, groupID: Option<string>,
                         worktreePath: Option<string>, worktreeBranch: Option<string>, id: string, now: int)
      returns (session: Session)
      requires Valid()
      modifies this`sessions
      ensures fresh(session) && sessions == old(sessions) + [session]
      ensures session.Model() == NewSession(id, name, projectPath, DefaultCommand, worktreePath, worktreeBranch,
                                            groupID, claudeFlags, None, now).(sortOrder := old(MaxSessionOrder(sessions)) + 1)
      ensures forall s :: s in old(sessions) ==> s.sortOrder < session.sortOrder
      ensures Valid()
    {
      session := new Session(id, name, projectPath, DefaultCommand, worktreePath, worktreeBranch, groupID,
                             claudeFlags, None, now);
      var maxOrder := MaxSessionOrder(sessions);
      session.sortOrder := maxOrder + 1;
      sessions := sessions + [session];
    }

    method DeleteSession(session: Session)
      requires Valid()
      modifies this`sessions
      ensures sessions == Without(old(sessions), session)
      ensures Valid()
    {
      sessions := Without(sessions, session);
    }

    method ArchiveSession(session: Session, now: int)
      modifies session
      ensures session.Model() == old(session.Model()).(isArchived := true, lastActivityDate := now)
    {
      session.isArchived := true;
      session.lastActivityDate := now;
    }

    method RenameSession(session: Session, newName: string)
      modifies session
      ensures session.Model() == old(session.Model()).(name := newName)
    {
      session.name := newName;
    }

    method UpdateSessionStatus(session: Session, status: SessionStatus, now: int)
      modifies session
      ensures session.Model() == old(session.Model()).(statusRaw := RawValue(status), lastActivityDate := now)
      ensures session.Status() == status
    {
      session.SetStatus(status);
      session.lastActivityDate := now;
    }

    /** Only the first 200 characters of the preview are kept. */
    method UpdateLastPreview(session: Session, preview: string, now: int)
      modifies session
      ensures session.Model() == old(session.Model()).(lastMessagePreview := Prefix(preview, MaxPreviewLength),
                                                      lastActivityDate := now)
      ensures |session.lastMessagePreview| <= MaxPreviewLength && session.lastMessagePreview <= preview
      ensures |preview| <= MaxPreviewLength ==> session.lastMessagePreview == preview
    {
      session.lastMessagePreview := Prefix(preview, MaxPreviewLength);
      session.lastActivityDate := now;
    }

    /**
      Each listed session's order becomes its index in the list; a session
      listed twice keeps the index of its last listing. Nothing else changes.
     */
    method ReorderSessions(list: seq<Session>)
      modifies list`sortOrder
      ensures OrderedAsListed(list, |list|)
      ensures forall i :: 0 <= i < |list| ==> SameExceptOrder(list[i].Model(), old(list[i].Model()))
    {
      var i := 0;
      while i < |list|
        invariant 0 <= i <= |list|
        invariant OrderedAsListed(list, i)
      {
        SetOrderAt(list, i, list[i]);
        i := i + 1;
      }
    }

    /** One step of `reorderSessions`: the session at `i` gets order `i`. */
    method SetOrderAt(list: seq<Session>, i: nat, session: Session)
      requires i < |list| && list[i] == session && OrderedAsListed(list, i)
      modifies session`sortOrder
      ensures OrderedAsListed(list, i + 1)
    {
      session.sortOrder := i;
      forall j | 0 <= j < i + 1 && LastListing(list, j, i + 1)
        ensures list[j].sortOrder == j
      {
        if j < i {
          NotListedLater(list, j, i);
          assert old(list[j].sortOrder) == j;
        }
      }
    }

    /** The stored sessions, archived ones only if asked for, ascending by order. */
    method FetchSessions(includeArchived: bool := false) returns (result: seq<Session>)
      ensures multiset(result) == multiset(Visible(sessions, includeArchived))
      ensures SessionsAscending(result)
    {
      var visible := Visible(sessions, includeArchived);
      var keyed := seq(|visible|, i requires 0 <= i < |visible| reads visible => (visible[i].sortOrder, visible[i]));
      var sorted := SortByKey(keyed);
      result := Seconds(sorted);
      SecondsPermutation(sorted, keyed);
      assert Seconds(keyed) == visible;
      forall i | 0 <= i < |sorted|
        ensures sorted[i].0 == result[i].sortOrder
      {
        assert sorted[i] in multiset(keyed);
      }
    }

    /** Some stored session with that id, if there is one; which one when several share it is not specified. */
    method FetchSession(id: string) returns (session: Option<Session>)
      ensures session.Some? ==> session.value in sessions && session.value.id == id
      ensures session.None? ==> forall s :: s in sessions ==> s.id != id
    {
      if s :| s in sessions && s.id == id {
        session := Some(s);
      } else {
        session := None;
      }
    }

    /** A new group goes after every stored one: its order is their maximum plus one, or 0. */
    method CreateGroup(name: string, id: string) returns (group: SessionGroup)
      requires Valid()
      modifies this`groups
      ensures fresh(group) && groups == old(groups) + [group]
      ensures group.id == id && group.name == name && group.sortOrder == old(MaxGroupOrder(groups)) + 1
      ensures forall g :: g in old(groups) ==> g.sortOrder < group.sortOrder
      ensures Valid()
    {
      group := new SessionGroup(id, name);
      var maxOrder := MaxGroupOrder(groups);
      group.sortOrder := maxOrder + 1;
      groups := groups + [group];
    }

    /** The sessions of the group lose it, and only they; then the group is deleted. */
    method DeleteGroup(group: SessionGroup)
      requires Valid()
      modifies this`groups, sessions
      ensures forall s :: s in sessions ==>
        s.Model() == old(s.Model()).(groupID := if old(s.groupID) == Some(group.id) then None else old(s.groupID))
      ensures groups == Without(old(groups), group)
      ensures Valid()
    {
      var groupID := group.id;
      var i := 0;
      while i < |sessions|
        invariant 0 <= i <= |sessions|
        invariant groups == old(groups)
        invariant groupID == group.id
        invariant forall j :: 0 <= j < i ==>
          sessions[j].Model() == old(sessions[j].Model()).(groupID := if old(sessions[j].groupID) == Some(groupID) then None else old(sessions[j].groupID))
        invariant forall j :: i <= j < |sessions| ==> sessions[j].Model() == old(sessions[j].Model())
      {
        if sessions[i].groupID == Some(groupID) {
          sessions[i].groupID := None;
        }
        i := i + 1;
      }
      groups := Without(groups, group);
    }

    /** The stored groups, ascending by order. */
    method FetchGroups() returns (result: seq<SessionGroup>)
      ensures multiset(result) == multiset(groups)
      ensures GroupsAscending(result)
    {
      var stored := groups;
      var keyed := seq(|stored|, i requires 0 <= i < |stored| reads stored => (stored[i].sortOrder, stored[i]));
      var sorted := SortByKey(keyed);
      result := Seconds(sorted);
      SecondsPermutation(sorted, keyed);
      assert Seconds(keyed) == stored;
      forall i | 0 <= i < |sorted|
        ensures sorted[i].0 == result[i].sortOrder
      {
        assert sorted[i] in multiset(keyed);
      }
    }

    /** The session's group becomes the given group's id, or none. */
    method AssignSession(session: Session, group: Option<SessionGroup>)
      modifies session
      ensures session.Model() == old(session.Model()).(groupID := if group.Some? then Some(group.value.id) else None)
    {
      session.groupID := if group.Some? then Some(group.value.id) else None;
    }
  }
}
