/**
  String operations of Foundation that the core relies on, over `seq<char>`.
  A Swift `Character` may be a cluster of several scalars; here one `char` is one
  scalar, so counts and prefixes are taken in scalars.
 */
module Text {

  import opened Wrappers

  /** CharacterSet.newlines: U+000A through U+000D, U+0085, U+2028 and U+2029. */
  predicate IsNewline(c: char) {
    '\n' <= c <= '\r' || c == '\U{85}' || c == '\U{2028}' || c == '\U{2029}'
  }

  /** CharacterSet.whitespaces: the space separators (general category Zs) and tab. */
  predicate IsSpace(c: char) {
    c == ' ' || c == '\t' || c == '\U{A0}' || c == '\U{1680}' || '\U{2000}' <= c <= '\U{200A}'
    || c == '\U{202F}' || c == '\U{205F}' || c == '\U{3000}'
  }

  /** CharacterSet.whitespacesAndNewlines. */
  predicate IsSpaceOrNewline(c: char) {
    IsSpace(c) || IsNewline(c)
  }

  predicate HasPrefix(s: string, p: string) {
    p <= s
  }

  predicate HasSuffix(s: string, p: string) {
    |p| <= |s| && s[|s| - |p|..] == p
  }

  /** `s.contains(pat)`: `pat` occurs somewhere in `s` as a contiguous block. */
  predicate Contains(s: string, pat: string)
    decreases |s|
  {
    pat <= s || (|s| > 0 && Contains(s[1..], pat))
  }

  predicate OccursAt(s: string, pat: string, i: nat) {
    i + |pat| <= |s| && s[i..i + |pat|] == pat
  }

  /** The index where the first occurrence of `pat` in `s` starts (`s.range(of: pat)`). */
  function FindFirst(s: string, pat: string): (r: Option<nat>)
    ensures r.Some? ==> OccursAt(s, pat, r.value)
    ensures r.Some? ==> forall j :: 0 <= j < r.value ==> !OccursAt(s, pat, j)
    ensures r.None? ==> forall j :: 0 <= j <= |s| ==> !OccursAt(s, pat, j)
    ensures r.Some? <==> Contains(s, pat)
    decreases |s|
  {
    if pat <= s then
      Some(0)
    else if |s| == 0 then
      None
    else
      ShiftedOccurrences(s, pat);
      match FindFirst(s[1..], pat)
      case None => None
      case Some(k) => Some(k + 1)
  }

  /** An occurrence at 0 is a prefix; one further on is an occurrence in the tail. */
  lemma ShiftedOccurrences(s: string, pat: string)
    requires |s| > 0
    ensures OccursAt(s, pat, 0) <==> pat <= s
    ensures forall j :: 1 <= j <= |s| ==> (OccursAt(s, pat, j) <==> OccursAt(s[1..], pat, j - 1))
  {
    forall j | 1 <= j <= |s|
      ensures OccursAt(s, pat, j) <==> OccursAt(s[1..], pat, j - 1)
    {
      if j + |pat| <= |s| {
        assert s[1..][j - 1..j - 1 + |pat|] == s[j..j + |pat|];
      }
    }
  }

  /** An occurrence at any index is an occurrence. */
  lemma {:induction false} OccursAtContains(s: string, pat: string, i: nat)
    requires OccursAt(s, pat, i)
    ensures Contains(s, pat)
    decreases i
  {
    if i == 0 {
      assert pat <= s;
    } else {
      assert s[1..][i - 1..i - 1 + |pat|] == s[i..i + |pat|];
      OccursAtContains(s[1..], pat, i - 1);
    }
  }

  /** What occurs in either part occurs in their concatenation. */
  lemma ContainsInConcat(a: string, b: string, pat: string)
    requires Contains(a, pat) || Contains(b, pat)
    ensures Contains(a + b, pat)
  {
    if Contains(a, pat) {
      var k := FindFirst(a, pat).value;
      assert (a + b)[k..k + |pat|] == a[k..k + |pat|];
      OccursAtContains(a + b, pat, k);
    } else {
      var k := FindFirst(b, pat).value;
      assert (a + b)[|a| + k..|a| + k + |pat|] == b[k..k + |pat|];
      OccursAtContains(a + b, pat, |a| + k);
    }
  }

  /** What occurs in one of the parts occurs in the joined text. */
  lemma {:induction false} ContainsInJoin(parts: seq<string>, sep: string, i: nat, pat: string)
    requires i < |parts| && Contains(parts[i], pat)
    ensures Contains(Join(parts, sep), pat)
    decreases |parts|
  {
    if |parts| > 1 {
      if i == 0 {
        ContainsInConcat(parts[0], sep + Join(parts[1..], sep), pat);
        assert parts[0] + (sep + Join(parts[1..], sep)) == Join(parts, sep);
      } else {
        ContainsInJoin(parts[1..], sep, i - 1, pat);
        ContainsInConcat(parts[0] + sep, Join(parts[1..], sep), pat);
      }
    }
  }

  /** Drops the leading characters that satisfy `drop`. */
  function TrimStart(s: string, drop: char -> bool): (r: string)
    ensures |r| <= |s| && r == s[|s| - |r|..]
    ensures r == [] || !drop(r[0])
    ensures forall i :: 0 <= i < |s| - |r| ==> drop(s[i])
    decreases |s|
  {
    if s != [] && drop(s[0]) then
      var r := TrimStart(s[1..], drop);
      assert s[1..][|s| - 1 - |r|..] == s[|s| - |r|..];
      r
    else s
  }

  /** Drops the trailing characters that satisfy `drop`. */
  function TrimEnd(s: string, drop: char -> bool): (r: string)
    ensures |r| <= |s| && r == s[..|r|]
    ensures r == [] || !drop(r[|r| - 1])
    ensures forall i :: |r| <= i < |s| ==> drop(s[i])
    decreases |s|
  {
    if s != [] && drop(s[|s| - 1]) then TrimEnd(s[..|s| - 1], drop) else s
  }

  /** Trimming the start of a dropped run followed by a kept character leaves the rest. */
  lemma {:induction false} TrimStartAfterRun(run: string, rest: string, drop: char -> bool)
    requires forall i :: 0 <= i < |run| ==> drop(run[i])
    requires rest == [] || !drop(rest[0])
    ensures TrimStart(run + rest, drop) == rest
    decreases |run|
  {
    if run != [] {
      assert (run + rest)[1..] == run[1..] + rest;
      TrimStartAfterRun(run[1..], rest, drop);
    }
  }

  /** Trimming the end of a kept character followed by a dropped run leaves what precedes it. */
  lemma {:induction false} TrimEndBeforeRun(kept: string, run: string, drop: char -> bool)
    requires forall i :: 0 <= i < |run| ==> drop(run[i])
    requires kept == [] || !drop(kept[|kept| - 1])
    ensures TrimEnd(kept + run, drop) == kept
    decreases |run|
  {
    if run != [] {
      var shorter := run[..|run| - 1];
      assert (kept + run)[..|kept + run| - 1] == kept + shorter;
      TrimEndBeforeRun(kept, shorter, drop);
    } else {
      assert kept + run == kept;
    }
  }

  /** `trimmingCharacters(in:)`: drops `drop` characters at both ends. */
  function Trim(s: string, drop: char -> bool): (r: string)
    ensures r == [] || (!drop(r[0]) && !drop(r[|r| - 1]))
    ensures r == [] <==> forall i :: 0 <= i < |s| ==> drop(s[i])
    ensures |r| <= |s|
  {
    TrimEnd(TrimStart(s, drop), drop)
  }

  /** Trimming adds no character. */
  lemma TrimKeepsAbsent(s: string, drop: char -> bool, c: char)
    requires c !in s
    ensures c !in Trim(s, drop)
  {
    var t := TrimStart(s, drop);
    var r := TrimEnd(t, drop);
    assert forall i :: 0 <= i < |r| ==> r[i] == t[i] == s[|s| - |t| + i];
  }

  /** `String(s.prefix(n))`. */
  function Prefix(s: string, n: nat): (r: string)
    ensures |r| == if |s| < n then |s| else n
    ensures r <= s
  {
    if |s| <= n then s else s[..n]
  }

  /** `Array(s.suffix(n))` on any sequence. */
  function Suffix<T>(s: seq<T>, n: nat): (r: seq<T>)
    ensures |r| == if |s| < n then |s| else n
    ensures r == s[|s| - |r|..]
  {
    if |s| <= n then s else s[|s| - n..]
  }

  /** The index of the last line that satisfies `keep` (`last(where:)`). */
  function LastWhere(lines: seq<string>, keep: string -> bool): (r: Option<nat>)
    ensures r.Some? ==> r.value < |lines| && keep(lines[r.value])
    ensures r.Some? ==> forall j :: r.value < j < |lines| ==> !keep(lines[j])
    ensures r.None? ==> forall j :: 0 <= j < |lines| ==> !keep(lines[j])
  {
    if lines == [] then None
    else if keep(lines[|lines| - 1]) then Some(|lines| - 1)
    else LastWhere(lines[..|lines| - 1], keep)
  }

  /** A sequence standing for a Swift `Set` or a dictionary's keys: no element twice. */
  predicate NoDuplicates<T(==)>(s: seq<T>) {
    forall i, j :: 0 <= i < j < |s| ==> s[i] != s[j]
  }

  /** An element of a sequence without duplicates occurs in it exactly once. */
  lemma {:induction false} ListedOnce<T>(s: seq<T>, x: T)
    requires NoDuplicates(s) && x in s
    ensures multiset(s)[x] == 1
    decreases |s|
  {
    var init := s[..|s| - 1];
    assert s == init + [s[|s| - 1]];
    if x != s[|s| - 1] {
      ListedOnce(init, x);
    }
  }

  /** `s.replacingOccurrences(of: pat, with: rep)`: left to right, non-overlapping. */
  function ReplaceAll(s: string, pat: string, rep: string): (r: string)
    requires |pat| > 0
    ensures !Contains(s, pat) ==> r == s
    decreases |s|
  {
    if s == [] then []
    else if pat <= s then rep + ReplaceAll(s[|pat|..], pat, rep)
    else
      assert !Contains(s, pat) ==> !Contains(s[1..], pat);
      [s[0]] + ReplaceAll(s[1..], pat, rep)
  }

  /** A one-character pattern occurs exactly where the character does. */
  lemma {:induction false} ContainsChar(s: string, c: char)
    ensures Contains(s, [c]) <==> c in s
    decreases |s|
  {
    if s != [] {
      ContainsChar(s[1..], c);
      assert [c] <= s <==> s[0] == c;
      assert c in s <==> s[0] == c || c in s[1..];
    }
  }

  /** Replacing a character in text whose first occurrence of it follows `a`. */
  lemma {:induction false} ReplaceAllAfter(a: string, c: char, b: string, rep: string)
    requires c !in a
    ensures ReplaceAll(a + [c] + b, [c], rep) == a + rep + ReplaceAll(b, [c], rep)
    decreases |a|
  {
    if a == [] {
      assert [c] + b == [c] + b && [c] <= [c] + b;
      assert ([c] + b)[1..] == b;
    } else {
      ReplaceAllAfter(a[1..], c, b, rep);
      var s := a + [c] + b;
      assert s[0] == a[0] && s[1..] == a[1..] + [c] + b;
      assert !([c] <= s);
    }
  }

  /** Replacing every occurrence of a character by nothing leaves none of it. */
  lemma {:induction false} RemovedCharAbsent(s: string, c: char)
    ensures c !in ReplaceAll(s, [c], [])
    decreases |s|
  {
    if s != [] {
      RemovedCharAbsent(s[1..], c);
      if [c] <= s {
        assert ReplaceAll(s, [c], []) == ReplaceAll(s[1..], [c], []);
      } else {
        assert ReplaceAll(s, [c], []) == [s[0]] + ReplaceAll(s[1..], [c], []);
      }
    }
  }

  /** `components(separatedBy:)` for a character set: every separator splits, so
      `n` separators give `n + 1` components, some of them possibly empty. */
  function Split(s: string, sep: char -> bool): (r: seq<string>)
    ensures |r| >= 1
    ensures forall k, i :: 0 <= k < |r| && 0 <= i < |r[k]| ==> !sep(r[k][i])
    decreases |s|
  {
    if s == [] then [[]]
    else
      var rest := Split(s[1..], sep);
      if sep(s[0]) then [[]] + rest else [[s[0]] + rest[0]] + rest[1..]
  }

  /** The components of `s` put back together, each separator restored. */
  function Join(parts: seq<string>, sep: string): string {
    if |parts| == 0 then []
    else if |parts| == 1 then parts[0]
    else parts[0] + sep + Join(parts[1..], sep)
  }

  /** `split(separator:)`: like `Split` on one character, but empty pieces are omitted. */
  function SplitNonEmpty(s: string, sep: char): (r: seq<string>)
    ensures forall k :: 0 <= k < |r| ==> r[k] != [] && sep !in r[k]
  {
    NonEmpty(Split(s, c => c == sep))
  }

  function NonEmpty(parts: seq<string>): (r: seq<string>)
    ensures forall k :: 0 <= k < |r| ==> r[k] != [] && r[k] in parts
    ensures |r| <= |parts|
  {
    if parts == [] then []
    else if parts[0] == [] then NonEmpty(parts[1..])
    else [parts[0]] + NonEmpty(parts[1..])
  }

  /** Splitting on a single character and joining on it gives the input back. */
  lemma {:induction false} SplitJoin(s: string, c: char)
    ensures Join(Split(s, x => x == c), [c]) == s
    decreases |s|
  {
    if s != [] {
      SplitJoin(s[1..], c);
      var rest := Split(s[1..], x => x == c);
      if s[0] == c {
        assert Split(s, x => x == c) == [[]] + rest;
        assert Join([[]] + rest, [c]) == [] + [c] + Join(rest, [c]);
      } else {
        var parts := [[s[0]] + rest[0]] + rest[1..];
        assert Split(s, x => x == c) == parts;
        if |rest| == 1 {
          assert Join(parts, [c]) == [s[0]] + rest[0];
        } else {
          assert Join(rest, [c]) == rest[0] + [c] + Join(rest[1..], [c]);
          assert parts[1..] == rest[1..];
          assert Join(parts, [c]) == [s[0]] + rest[0] + [c] + Join(rest[1..], [c]);
        }
      }
    }
  }

  function LowerAscii(c: char): char {
    if 'A' <= c <= 'Z' then (c as int + 32) as char else c
  }

  /** `lowercased()` on text whose letters are ASCII. */
  function Lowercased(s: string): (r: string)
    ensures |r| == |s|
    ensures forall i :: 0 <= i < |s| ==> r[i] == LowerAscii(s[i])
  {
    seq(|s|, i requires 0 <= i < |s| => LowerAscii(s[i]))
  }

  /** The last `/`-separated component of a path (`lastPathComponent`, with trailing
      slashes ignored). */
  function LastPathComponent(path: string): (r: string)
    ensures r == "/" || '/' !in r
  {
    var t := TrimEnd(path, c => c == '/');
    if t == [] then (if path == [] then [] else "/") else LastComponentOf(t)
  }

  function LastComponentOf(t: string): (r: string)
    ensures '/' !in r
    ensures HasSuffix(t, r)
    decreases |t|
  {
    if t == [] then []
    else if t[|t| - 1] == '/' then []
    else LastComponentOf(t[..|t| - 1]) + [t[|t| - 1]]
  }
}
