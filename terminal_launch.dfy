/**
  How `ClaudeTerminalView` starts a Claude session: the environment it hands
  to the child process, the `claude` command line and the login-shell
  arguments that run it from the working directory, and the text it writes
  to the running process.
 */
module TerminalLaunch {

  import opened Wrappers
  import opened Text
  import opened ShellQuoting

  /** The shell every session runs under. */
  const Executable := "/bin/zsh"
  const ClaudeProgram := "claude"

  const TermKey := "TERM"
  const TermValue := "xterm-256color"
  const ColorTermKey := "COLORTERM"
  const ColorTermValue := "truecolor"

  /** What `startProcess` is given. */
  datatype Launch = Launch(executable: string, args: seq<string>, environment: map<string, string>)

  // ----- The command -----

  /** `claude`, followed by a space and the flags when there are any. */
  function ClaudeCommand(flags: string): (r: string)
    ensures HasPrefix(r, ClaudeProgram)
    ensures r == ClaudeProgram <==> flags == []
    ensures flags != [] ==> r[|ClaudeProgram|] == ' ' && r[|ClaudeProgram| + 1..] == flags
  {
    if flags == [] then ClaudeProgram else ClaudeProgram + " " + flags
  }

  // ----- The shell arguments -----

  /** The script `-c` runs: change to the (quoted) directory, then run the command. */
  function Script(workingDirectory: string, command: string): string {
    "cd " + Quoted(workingDirectory) + " && " + command
  }

  /** A login shell (`-l`, so PATH and the rest of the profile are read) running `Script`. */
  function ShellArgs(workingDirectory: string, command: string): (r: seq<string>)
    ensures |r| == 3 && r[0] == "-l" && r[1] == "-c"
    ensures HasPrefix(r[2], "cd '") && HasSuffix(r[2], " && " + command)
  {
    ["-l", "-c", Script(workingDirectory, command)]
  }

  /** The script's `cd` operand is one shell word that the shell reads back as the
      working directory itself, whatever quotes or spaces it holds. */
  lemma ScriptChangesToDirectory(workingDirectory: string, flags: string)
    ensures exists word ::
      && ShellArgs(workingDirectory, ClaudeCommand(flags))[2] == "cd " + word + " && " + ClaudeCommand(flags)
      && ShellWord(word) == Some(workingDirectory)
  {
    var word := Quoted(workingDirectory);
    QuotedRoundTrip(workingDirectory);
    assert ShellArgs(workingDirectory, ClaudeCommand(flags))[2] == "cd " + word + " && " + ClaudeCommand(flags);
  }

  // ----- The environment -----

  /** The environment the process gets: the inherited one, each custom variable
      replacing an inherited one of the same name, and the terminal type forced last. */
  function LaunchEnvironment(inherited: map<string, string>, custom: map<string, string>): map<string, string> {
    (inherited + custom)[TermKey := TermValue][ColorTermKey := ColorTermValue]
  }

  /** What the merged environment holds, key by key. */
  lemma EnvironmentOverrides(inherited: map<string, string>, custom: map<string, string>)
    ensures var env := LaunchEnvironment(inherited, custom);
      && env.Keys == inherited.Keys + custom.Keys + {TermKey, ColorTermKey}
      && env[TermKey] == TermValue && env[ColorTermKey] == ColorTermValue
      && (forall k :: k in custom && k != TermKey && k != ColorTermKey ==> env[k] == custom[k])
      && (forall k :: k in inherited && k !in custom && k != TermKey && k != ColorTermKey ==> env[k] == inherited[k])
  {
  }

  /** The environment as `startClaudeSession` builds it: a copy of the inherited
      variables, each custom variable written over it in turn, then `TERM` and
      `COLORTERM` set. */
  method MergeEnvironment(inherited: map<string, string>, custom: map<string, string>)
    returns (env: map<string, string>)
    ensures env == LaunchEnvironment(inherited, custom)
  {
    env := inherited;
    var pending := custom.Keys;
    while pending != {}
      invariant pending <= custom.Keys
      invariant env.Keys == inherited.Keys + (custom.Keys - pending)
      invariant forall k :: k in env ==> env[k] == if k in custom.Keys - pending then custom[k] else inherited[k]
      decreases |pending|
    {
      var key :| key in pending;
      env := env[key := custom[key]];
      pending := pending - {key};
    }
    env := env[TermKey := TermValue];
    env := env[ColorTermKey := ColorTermValue];
  }

  // ----- Input to the process -----

  /** What `sendCommand` writes: the command and one newline. */
  function CommandLine(command: string): string {
    command + "\n"
  }

  /** A command without line breaks arrives as exactly one complete line. */
  lemma {:induction false} CommandIsOneLine(command: string)
    requires forall i :: 0 <= i < |command| ==> !IsNewline(command[i])
    ensures Split(CommandLine(command), IsNewline) == [command, []]
    decreases |command|
  {
    if command == [] {
      assert CommandLine(command) == "\n";
      assert CommandLine(command)[1..] == [];
    } else {
      CommandIsOneLine(command[1..]);
      assert CommandLine(command)[1..] == CommandLine(command[1..]);
      assert [command[0]] + command[1..] == command;
    }
  }

  /** The terminal view: the launch it asked for and the text written to its process. */
  class ClaudeTerminal {
    var launched: Option<Launch>
    var written: string
    var inputHandlerInstalled: bool

    constructor ()
      ensures launched == None && written == [] && !inputHandlerInstalled
    {
      launched := None;
      written := [];
      inputHandlerInstalled := false;
    }

    /** `startClaudeSession`: launch `claude` under a login `zsh` in the working
        directory, and route the process manager's input to this terminal. */
    method StartClaudeSession(inherited: map<string, string>, workingDirectory: string,
                              flags: string := "", custom: map<string, string> := map[])
      modifies this`launched, this`inputHandlerInstalled
      ensures launched == Some(Launch(Executable, ShellArgs(workingDirectory, ClaudeCommand(flags)),
                                      LaunchEnvironment(inherited, custom)))
      ensures inputHandlerInstalled
    {
      var env := MergeEnvironment(inherited, custom);
      var command := ClaudeCommand(flags);
      launched := Some(Launch(Executable, ShellArgs(workingDirectory, command), env));
      inputHandlerInstalled := true;
    }

    /** `sendText`: the text goes to the process as it is. */
    method SendText(text: string)
      modifies this`written
      ensures written == old(written) + text
    {
      written := written + text;
    }

    /** `sendCommand`: the command followed by exactly one newline. */
    method SendCommand(command: string)
      modifies this`written
      ensures written == old(written) + CommandLine(command)
    {
      written := written + CommandLine(command);
    }
  }
}
