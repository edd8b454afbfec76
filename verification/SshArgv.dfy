/** The argv sent over ssh: one shell on the far side, and a second one around commands that take input. */
module SshArgv {
  import opened Wrappers
  import opened Base64
  import opened ShellQuoting
  import opened ShellScript

  const BEFORE_INPUT := "p=$(mktemp) || exit; trap " + ['\''] + "rm -f \"$p\"" + ['\''] + " EXIT; printf %s "
  const BEFORE_DIRECTORY := " | base64 -d > " + ['"'] + "$p" + ['"'] + " || exit; cd "
  const AFTER_DIRECTORY := " || exit; exec \"$@\"" + (" < \"" + ("$p" + "\""))

  function ApocStartOptions(cwd: string, purpose: string, key: string): seq<string> {
    ["--cwd", cwd, "--purpose", purpose, "--idempotency-key", key, "--format", "json",
     "--verbosity", "trace", "--expect-exit-code", "0", "--"]
  }

  function InputPieces(stdin: seq<Byte>, cwd: string): seq<Piece> {
    [Piece(BEFORE_INPUT, Encode(stdin)), Piece(BEFORE_DIRECTORY, cwd)]
  }

  function InputScript(stdin: seq<Byte>, cwd: string): string {
    BEFORE_INPUT + ShellQuote(Encode(stdin)) + BEFORE_DIRECTORY + ShellQuote(cwd) + AFTER_DIRECTORY
  }

  function StdinWrapperArgs(stdin: seq<Byte>, argv: seq<string>, cwd: string): seq<string> {
    ["-lc", InputScript(stdin, cwd), "workenv-stdin"] + argv
  }

  /** Refuses an empty argv. */
  function StartArgv(argv: seq<string>, stdin: Option<seq<Byte>>, cwd: string, purpose: string, key: string)
    : Option<seq<string>>
  {
    if argv == [] then None
    else if stdin.Some? then
      Some(["apoc", "execution", "start", "/bin/bash"] + ApocStartOptions(cwd, purpose, key)
           + StdinWrapperArgs(stdin.value, argv, cwd))
    else
      Some(["apoc", "execution", "start", argv[0]] + ApocStartOptions(cwd, purpose, key) + argv[1..])
  }

  function SshArgs(address: string, remote: seq<string>): seq<string> {
    ["-o", "BatchMode=yes", "-o", "ConnectTimeout=15", "-o", "StrictHostKeyChecking=yes", address, ShellJoin(remote)]
  }

  /** What APoC reads of its options: each with its value, up to the command behind `--`. */
  function ReadOptions(words: seq<string>, read: map<string, string>): Option<(map<string, string>, seq<string>)>
    decreases |words|
  {
    if words == [] then None
    else if words[0] == "--" then Some((read, words[1..]))
    else if |words| < 2 then None
    else ReadOptions(words[2..], read[words[0] := words[1]])
  }

  lemma OptionRead(name: string, value: string, rest: seq<string>, read: map<string, string>)
    requires name != "--"
    ensures ReadOptions([name, value] + rest, read) == ReadOptions(rest, read[name := value])
  {
    assert ([name, value] + rest)[2..] == rest;
  }

  /** The directory, the purpose and the key are read as they were given, and the command behind them untouched. */
  lemma StartOptionsRead(cwd: string, purpose: string, key: string, command: seq<string>)
    ensures ReadOptions(ApocStartOptions(cwd, purpose, key) + command, map[])
         == Some((map["--cwd" := cwd]["--purpose" := purpose]["--idempotency-key" := key]["--format" := "json"]
                  ["--verbosity" := "trace"]["--expect-exit-code" := "0"], command))
  {
    var f := ["--"] + command;
    var e := ["--expect-exit-code", "0"] + f;
    var d := ["--verbosity", "trace"] + e;
    var c := ["--format", "json"] + d;
    var b := ["--idempotency-key", key] + c;
    var a := ["--purpose", purpose] + b;
    assert ApocStartOptions(cwd, purpose, key) + command == ["--cwd", cwd] + a;
    OptionRead("--cwd", cwd, a, map[]);
    OptionRead("--purpose", purpose, b, map["--cwd" := cwd]);
    var two := map["--cwd" := cwd]["--purpose" := purpose];
    OptionRead("--idempotency-key", key, c, two);
    var three := two["--idempotency-key" := key];
    OptionRead("--format", "json", d, three);
    OptionRead("--verbosity", "trace", e, three["--format" := "json"]);
    OptionRead("--expect-exit-code", "0", f, three["--format" := "json"]["--verbosity" := "trace"]);
    assert f[1..] == command;
  }

  lemma InputTextIsBalanced()
    ensures QuotingAfter(BEFORE_INPUT, Outside) == Outside
  {
    Passage("p=$(mktemp) || exit; trap ", '\'', "rm -f \"$p\"", " EXIT; printf %s ");
  }

  lemma DirectoryTextIsBalanced()
    ensures QuotingAfter(BEFORE_DIRECTORY, Outside) == Outside
  {
    Passage(" | base64 -d > ", '"', "$p", " || exit; cd ");
  }

  lemma TwoPieces(a: string, x: string, b: string, y: string, c: string)
    ensures a + ShellQuote(x) + b + ShellQuote(y) + c == Script([Piece(a, x), Piece(b, y)], c)
  {
    var pieces := [Piece(a, x), Piece(b, y)];
    assert pieces[1..] == [Piece(b, y)] && pieces[1..][1..] == [];
    assert Script([Piece(b, y)], c) == b + (ShellQuote(y) + c);
  }

  /** The script is its two values set apart by its fixed texts. */
  lemma InputScriptReadsBack(stdin: seq<Byte>, cwd: string)
    ensures ScriptReads(InputScript(stdin, cwd), InputPieces(stdin, cwd), AFTER_DIRECTORY)
  {
    InputTextIsBalanced();
    DirectoryTextIsBalanced();
    TwoPieces(BEFORE_INPUT, Encode(stdin), BEFORE_DIRECTORY, cwd, AFTER_DIRECTORY);
    ScriptReadsBack(InputPieces(stdin, cwd), AFTER_DIRECTORY);
  }

  lemma StartArgvParts(argv: seq<string>, stdin: Option<seq<Byte>>, cwd: string, purpose: string, key: string)
    requires argv != []
    ensures StartArgv(argv, stdin, cwd, purpose, key).Some?
    ensures var remote := StartArgv(argv, stdin, cwd, purpose, key).value;
            && |remote| >= 17
            && (stdin.None? ==> [remote[3]] + remote[17..] == argv)
            && (stdin.Some? ==> remote[17..] == ["-lc", InputScript(stdin.value, cwd), "workenv-stdin"] + argv)
  {
    var remote := StartArgv(argv, stdin, cwd, purpose, key).value;
    var options := ApocStartOptions(cwd, purpose, key);
    assert |options| == 13;
    if stdin.Some? {
      assert remote == ["apoc", "execution", "start", "/bin/bash"] + options + StdinWrapperArgs(stdin.value, argv, cwd);
    } else {
      assert remote == ["apoc", "execution", "start", argv[0]] + options + argv[1..];
      assert [argv[0]] + argv[1..] == argv;
    }
  }

  /**
   * Both levels: the far shell's words are the argv that was joined, the inner script reads back its input and its
   * directory, and its positional parameters are the caller's argv.
   */
  lemma NestedQuotingReadsBack(address: string, argv: seq<string>, stdin: Option<seq<Byte>>, cwd: string,
                               purpose: string, key: string)
    requires argv != []
    ensures StartArgv(argv, stdin, cwd, purpose, key).Some?
    ensures var remote := StartArgv(argv, stdin, cwd, purpose, key).value;
            && Split(SshArgs(address, remote)[7]) == Some(remote)
            && |remote| >= 17
            && (stdin.None? ==> [remote[3]] + remote[17..] == argv)
            && (stdin.Some? ==> remote[17..] == ["-lc", InputScript(stdin.value, cwd), "workenv-stdin"] + argv)
    ensures stdin.Some? ==>
              && ScriptReads(InputScript(stdin.value, cwd), InputPieces(stdin.value, cwd), AFTER_DIRECTORY)
              && Decode(Encode(stdin.value)) == stdin
  {
    StartArgvParts(argv, stdin, cwd, purpose, key);
    JoinSplits(StartArgv(argv, stdin, cwd, purpose, key).value);
    if stdin.Some? {
      InputScriptReadsBack(stdin.value, cwd);
      RoundTrip(stdin.value);
    }
  }
}
