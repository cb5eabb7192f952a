/**
  Single-quoting of a path for `/bin/zsh -c`, as `GitWorktreeService.quoted`
  and `ClaudeTerminalView.shellQuoted` both write it, and the way a POSIX
  shell reads such a word back.
 */
module ShellQuoting {

  import opened Wrappers
  import opened Text

  /** How a quote inside the text is written: close the quotes, an escaped quote, reopen. */
  const EscapedQuote := "'\\''"

  /** The text in single quotes, each `'` in it written as `'\''`. */
  function Quoted(path: string): (r: string)
    ensures |r| >= 2 && r[0] == '\'' && r[|r| - 1] == '\''
  {
    "'" + ReplaceAll(path, "'", EscapedQuote) + "'"
  }

  /** The first index of `c` in `s`, if any. */
  function IndexOf(s: string, c: char): (r: Option<nat>)
    ensures r.Some? ==> r.value < |s| && s[r.value] == c && c !in s[..r.value]
    ensures r.None? ==> c !in s
  {
    if s == [] then None
    else if s[0] == c then Some(0)
    else match IndexOf(s[1..], c)
      case None => None
      case Some(k) =>
        assert s[..k + 1] == [s[0]] + s[1..][..k];
        Some(k + 1)
  }

  /** Where the character first occurs is where `IndexOf` finds it. */
  lemma FirstIndex(s: string, c: char, k: nat)
    requires k < |s| && s[k] == c && c !in s[..k]
    ensures IndexOf(s, c) == Some(k)
  {
    var r := IndexOf(s, c);
    assert s[k] in s;
    assert forall i | 0 <= i < k :: s[..k][i] == s[i];
    assert forall i | 0 <= i < r.value :: s[..r.value][i] == s[i];
  }

  /**
    The word a POSIX shell reads from `s` when `s` is made of single-quoted
    segments, taken literally, and backslash-escaped characters; `None` for
    any other text (an unclosed quote, a bare character).
   */
  function ShellWord(s: string): Option<string>
    decreases |s|
  {
    if s == [] then Some([])
    else if s[0] == '\'' then
      match IndexOf(s[1..], '\'')
      case None => None
      case Some(k) =>
        match ShellWord(s[k + 2..])
        case None => None
        case Some(rest) => Some(s[1..k + 1] + rest)
    else if s[0] == '\\' && |s| >= 2 then
      match ShellWord(s[2..])
      case None => None
      case Some(rest) => Some([s[1]] + rest)
    else None
  }

  /** A single-quoted segment without a quote in it is read literally, and reading goes on after it. */
  lemma QuotedSegment(a: string, rest: string)
    requires '\'' !in a
    ensures ShellWord(rest).Some? ==> ShellWord("'" + a + "'" + rest) == Some(a + ShellWord(rest).value)
  {
    var s := "'" + a + "'" + rest;
    assert s[1..] == a + "'" + rest;
    assert (a + "'" + rest)[..|a|] == a;
    FirstIndex(s[1..], '\'', |a|);
    assert s[|a| + 2..] == rest;
    assert s[1..|a| + 1] == a;
  }

  /** A backslash-escaped character is read as itself, and reading goes on after it. */
  lemma EscapedChar(c: char, rest: string)
    ensures ShellWord(rest).Some? ==> ShellWord(['\\', c] + rest) == Some([c] + ShellWord(rest).value)
  {
    assert (['\\', c] + rest)[2..] == rest;
  }

  /** Concatenation regrouped around the quote characters. */
  lemma Regroup<T>(q: seq<T>, a: seq<T>, m: seq<T>, r: seq<T>)
    ensures q + (a + (q + m + q) + r) + q == q + a + q + (m + (q + r + q))
  {
  }

  /** A path without a quote is quoted as it stands. */
  lemma QuotedPlain(path: string)
    requires '\'' !in path
    ensures ShellWord(Quoted(path)) == Some(path)
  {
    ContainsChar(path, '\'');
    assert Quoted(path) == "'" + path + "'" + [];
    QuotedSegment(path, []);
    assert path + [] == path;
  }

  /** A path with a quote reads back as far as its first quote, given that the rest does. */
  lemma QuotedAtFirstQuote(a: string, b: string)
    requires '\'' !in a
    requires ShellWord(Quoted(b)) == Some(b)
    ensures ShellWord(Quoted(a + ['\''] + b)) == Some(a + ['\''] + b)
  {
    var tail := ['\\', '\''] + Quoted(b);
    assert Quoted(a + ['\''] + b) == "'" + a + "'" + tail by {
      ReplaceAllAfter(a, '\'', b, EscapedQuote);
      assert EscapedQuote == ['\''] + ['\\', '\''] + ['\''];
      Regroup(['\''], a, ['\\', '\''], ReplaceAll(b, "'", EscapedQuote));
    }
    assert ShellWord(tail) == Some(['\''] + b) by {
      EscapedChar('\'', Quoted(b));
    }
    QuotedSegment(a, tail);
    assert a + (['\''] + b) == a + ['\''] + b;
  }

  /** Whatever the path, the shell reads the quoted text back as exactly that path. */
  lemma {:induction false} QuotedRoundTrip(path: string)
    ensures ShellWord(Quoted(path)) == Some(path)
    decreases |path|
  {
    match IndexOf(path, '\'')
    case None =>
      QuotedPlain(path);
    case Some(k) =>
      var a, b := path[..k], path[k + 1..];
      assert path == a + ['\''] + b;
      QuotedRoundTrip(b);
      QuotedAtFirstQuote(a, b);
  }
}
