/** The scripts that run one command in a guest and report on it: three kinds of quoted values in fixed text. */
module WrapperScripts {
  import opened Wrappers
  import opened Base64
  import opened ShellQuoting
  import opened ShellScript
  import ResultLine

  /** What stands before the input, before the directory, before the command and after it. */
  datatype Texts = Texts(input: string, directory: string, command: string, tail: string)

  function WrapperScript(texts: Texts, argv: seq<string>, cwd: string, stdin: seq<Byte>): string {
    texts.input + ShellQuote(Encode(stdin)) + texts.directory + ShellQuote(cwd) + texts.command
    + ShellJoin(argv) + texts.tail
  }

  function ArgvPieces(first: string, argv: seq<string>): seq<Piece>
    decreases |argv|
  {
    if argv == [] then [] else [Piece(first, argv[0])] + ArgvPieces(" ", argv[1..])
  }

  function WrapperPieces(texts: Texts, argv: seq<string>, cwd: string, stdin: seq<Byte>): seq<Piece> {
    [Piece(texts.input, Encode(stdin)), Piece(texts.directory, cwd)] + ArgvPieces(texts.command, argv)
  }

  /** Without any word, the text before the command runs on into what follows it. */
  function WrapperTail(texts: Texts, argv: seq<string>): string {
    if argv == [] then texts.command + texts.tail else texts.tail
  }

  predicate Sound(texts: Texts) {
    && Opens(texts.input) && Opens(texts.directory) && Opens(texts.command)
    && Closes(texts.directory) && Closes(texts.command) && Closes(texts.tail)
  }

  lemma {:induction false} JoinIsScript(first: string, argv: seq<string>, tail: string)
    requires argv != []
    ensures first + (ShellJoin(argv) + tail) == Script(ArgvPieces(first, argv), tail)
    decreases |argv|
  {
    FirstArgument(first, argv, tail);
    if |argv| > 1 {
      JoinIsScript(" ", argv[1..], tail);
      JoinRegroups(ShellQuote(argv[0]), " ", ShellJoin(argv[1..]), tail);
    }
  }

  lemma FirstArgument(first: string, argv: seq<string>, tail: string)
    requires argv != []
    ensures Script(ArgvPieces(first, argv), tail)
         == first + (ShellQuote(argv[0]) + if |argv| == 1 then tail else Script(ArgvPieces(" ", argv[1..]), tail))
  {
    assert ArgvPieces(first, argv)[1..] == ArgvPieces(" ", argv[1..]);
  }

  lemma JoinRegroups(a: string, b: string, c: string, d: string)
    ensures (a + b + c) + d == a + (b + (c + d))
  {
  }

  lemma {:induction false} ArgvSetApart(first: string, argv: seq<string>)
    requires Opens(first) && Closes(first)
    ensures |ArgvPieces(first, argv)| == |argv|
    ensures forall i :: 0 <= i < |argv| ==> ArgvPieces(first, argv)[i].value == argv[i]
    ensures forall i :: 0 <= i < |argv| ==>
              Opens(ArgvPieces(first, argv)[i].text) && Closes(ArgvPieces(first, argv)[i].text)
    decreases |argv|
  {
    if argv != [] {
      SpaceSetsApart();
      ArgvSetApart(" ", argv[1..]);
    }
  }

  lemma SpaceSetsApart()
    ensures Opens(" ") && Closes(" ")
  {
    assert " "[1..] == "";
  }

  lemma ScriptAppends(a: Piece, b: Piece, rest: seq<Piece>, tail: string)
    ensures Script([a, b] + rest, tail)
         == a.text + (ShellQuote(a.value) + (b.text + (ShellQuote(b.value) + Script(rest, tail))))
  {
    assert ([a, b] + rest)[1..] == [b] + rest;
    assert ([b] + rest)[1..] == rest;
  }

  lemma WrapperIsScript(texts: Texts, argv: seq<string>, cwd: string, stdin: seq<Byte>)
    ensures WrapperScript(texts, argv, cwd, stdin)
         == Script(WrapperPieces(texts, argv, cwd, stdin), WrapperTail(texts, argv))
  {
    var rest, tail := ArgvPieces(texts.command, argv), WrapperTail(texts, argv);
    ScriptAppends(Piece(texts.input, Encode(stdin)), Piece(texts.directory, cwd), rest, tail);
    if argv == [] {
      assert texts.command + (ShellJoin(argv) + texts.tail) == tail;
    } else {
      JoinIsScript(texts.command, argv, texts.tail);
    }
    assert texts.command + (ShellJoin(argv) + texts.tail) == Script(rest, tail);
    SixRegroup(texts.input, ShellQuote(Encode(stdin)), texts.directory, ShellQuote(cwd), texts.command, ShellJoin(argv),
               texts.tail);
  }

  lemma SixRegroup(a: string, b: string, c: string, d: string, e: string, f: string, g: string)
    ensures a + b + c + d + e + f + g == a + (b + (c + (d + (e + (f + g)))))
  {
  }

  lemma CloseJoins(a: string, b: string)
    requires Closes(a)
    ensures Closes(a + b)
  {
  }

  lemma TailsClose()
    ensures Closes(EXEDEV_TAIL) && Closes(ORCHARD_TAIL)
  {
    SpaceOpensTail(" < \"", EXEDEV_TAIL[4..]);
    SpaceOpensTail(" < \"", ORCHARD_TAIL[4..]);
  }

  lemma SpaceOpensTail(a: string, b: string)
    requires a != "" && a[0] == ' '
    ensures Closes(a + b)
  {
  }

  lemma WrapperSetApart(texts: Texts, argv: seq<string>, cwd: string, stdin: seq<Byte>)
    requires Sound(texts)
    ensures SetApart(WrapperPieces(texts, argv, cwd, stdin), WrapperTail(texts, argv))
  {
    var pieces, rest := WrapperPieces(texts, argv, cwd, stdin), ArgvPieces(texts.command, argv);
    ArgvSetApart(texts.command, argv);
    assert pieces[0] == Piece(texts.input, Encode(stdin)) && pieces[1] == Piece(texts.directory, cwd);
    assert forall i :: 2 <= i < |pieces| ==> pieces[i] == rest[i - 2];
    CloseJoins(texts.command, texts.tail);
  }

  /** The guest's shell reads the input, the directory and each word of the command exactly as they were given. */
  lemma WrapperReadsBack(texts: Texts, argv: seq<string>, cwd: string, stdin: seq<Byte>)
    requires Sound(texts)
    ensures var pieces := WrapperPieces(texts, argv, cwd, stdin);
            && ScriptReads(WrapperScript(texts, argv, cwd, stdin), pieces, WrapperTail(texts, argv))
            && |pieces| == 2 + |argv|
            && pieces[0].value == Encode(stdin) && Decode(pieces[0].value) == Some(stdin) && pieces[1].value == cwd
            && forall i :: 0 <= i < |argv| ==> pieces[2 + i].value == argv[i]
  {
    var pieces := WrapperPieces(texts, argv, cwd, stdin);
    ArgvSetApart(texts.command, argv);
    RoundTrip(stdin);
    WrapperSetApart(texts, argv, cwd, stdin);
    ScriptReadsBack(pieces, WrapperTail(texts, argv));
    WrapperIsScript(texts, argv, cwd, stdin);
  }

  /* What both print around the three values of a result */

  const CODE_KEY := "{\"exit_code\":"
  const STDOUT_KEY := ",\"stdout\":\""
  const STDERR_KEY := "\",\"stderr\":\""
  const OBJECT_END := "\"}"

  /* The exe.dev script */

  const EXEDEV_OUT := "set -u\nout=$(mktemp); "
  const EXEDEV_ERR := "err=$(mktemp); inp=$(mktemp)"
  const EXEDEV_INPUT := EXEDEV_OUT + EXEDEV_ERR + "\nprintf %s "
  const EXEDEV_DIRECTORY := " | base64 -d > " + ['"'] + "$inp" + ['"'] + " 2>/dev/null || : > "
                            + ("" + ['"'] + "$inp" + ['"'] + "\ncd ")
  const EXEDEV_CHDIR :=
    "%s" + (CODE_KEY + ("122" + (STDOUT_KEY + (STDERR_KEY + ("cannot change directory" + (OBJECT_END + "\\n"))))))
  const EXEDEV_COMMAND := " 2>/dev/null || {\n  printf " + ['\''] + EXEDEV_CHDIR + ['\''] + " "
                          + ("" + ['\''] + ResultLine.SENTINEL + ['\''] + "\n  exit 0\n}\n")
  const EXEDEV_FORMAT :=
    ("%s" + CODE_KEY) + (("%s" + STDOUT_KEY) + (("%s" + STDERR_KEY) + ("%s" + (OBJECT_END + "\\n"))))
  const EXEDEV_STATUS_READ := "\"\nstatus=$?\n"
  const EXEDEV_TAIL :=
    " < \"" + ("$inp" + ("\"" + (" > \"" + ("$out" + ("\"" + (" 2> \"" + ("$err"
    + (EXEDEV_STATUS_READ + ("printf '" + (EXEDEV_FORMAT + EXEDEV_REPORT))))))))))
  const EXEDEV_ARGS := "' \\\n  '" + (ResultLine.SENTINEL + "' \"$status\" \"$(base64")
  const EXEDEV_REPORT :=
    EXEDEV_ARGS + (" < \"" + ("$out" + (STREAM_END + (" \"$(base64" + (" < \"" + ("$err" + (STREAM_END
    + "\nrm -f \"$out\" \"$err\" \"$inp\"\n")))))))
  const STREAM_END := "\" | tr -d '\\n')\""

  const EXEDEV := Texts(EXEDEV_INPUT, EXEDEV_DIRECTORY, EXEDEV_COMMAND, EXEDEV_TAIL)

  lemma ExedevInputIsInert()
    ensures Inert(EXEDEV_OUT, Outside) && Inert(EXEDEV_ERR, Outside) && Inert("\nprintf %s ", Outside)
  {
  }

  lemma ExedevInputOpens()
    ensures Opens(EXEDEV_INPUT)
  {
    ExedevInputIsInert();
    InertJoins(EXEDEV_OUT, EXEDEV_ERR, Outside);
    InertJoins(EXEDEV_OUT + EXEDEV_ERR, "\nprintf %s ", Outside);
    EndsOpen(EXEDEV_OUT + EXEDEV_ERR, "\nprintf %s ");
    InertOpens(EXEDEV_INPUT);
  }

  lemma EndsOpen(a: string, b: string)
    requires b != "" && StartsWord(b[|b| - 1])
    ensures a + b != "" && StartsWord((a + b)[|a + b| - 1])
  {
  }

  lemma ExedevChdirIsInert()
    ensures Inert(EXEDEV_CHDIR, InSingle)
  {
    KeysAreInert();
    ChdirPartsAreInert();
    var last := OBJECT_END + "\\n";
    var message := "cannot change directory" + last;
    InertJoins(OBJECT_END, "\\n", InSingle);
    InertJoins("cannot change directory", last, InSingle);
    InertJoins(STDERR_KEY, message, InSingle);
    InertJoins(STDOUT_KEY, STDERR_KEY + message, InSingle);
    InertJoins("122", STDOUT_KEY + (STDERR_KEY + message), InSingle);
    InertJoins(CODE_KEY, "122" + (STDOUT_KEY + (STDERR_KEY + message)), InSingle);
    InertJoins("%s", CODE_KEY + ("122" + (STDOUT_KEY + (STDERR_KEY + message))), InSingle);
  }

  lemma KeysAreInert()
    ensures Inert(CODE_KEY, InSingle) && Inert(STDOUT_KEY, InSingle) && Inert(STDERR_KEY, InSingle)
  {
  }

  lemma ChdirPartsAreInert()
    ensures Inert("%s", InSingle) && Inert("122", InSingle) && Inert("cannot change directory", InSingle)
    ensures Inert(OBJECT_END, InSingle) && Inert("\\n", InSingle)
  {
  }

  lemma Joins(a: string, b: string)
    requires QuotingAfter(a, Outside) == Outside && QuotingAfter(b, Outside) == Outside
    ensures QuotingAfter(a + b, Outside) == Outside
  {
    QuotingJoins(a, b, Outside);
  }

  lemma ExedevDirectoryOpens()
    ensures Opens(EXEDEV_DIRECTORY) && Closes(EXEDEV_DIRECTORY)
  {
    Passage(" | base64 -d > ", '"', "$inp", " 2>/dev/null || : > ");
    Passage("", '"', "$inp", "\ncd ");
    Joins(" | base64 -d > " + ['"'] + "$inp" + ['"'] + " 2>/dev/null || : > ", "" + ['"'] + "$inp" + ['"'] + "\ncd ");
  }

  lemma ExedevCommandOpens()
    ensures Opens(EXEDEV_COMMAND) && Closes(EXEDEV_COMMAND)
  {
    ExedevChdirIsInert();
    Passage(" 2>/dev/null || {\n  printf ", '\'', EXEDEV_CHDIR, " ");
    Passage("", '\'', ResultLine.SENTINEL, "\n  exit 0\n}\n");
    Joins(" 2>/dev/null || {\n  printf " + ['\''] + EXEDEV_CHDIR + ['\''] + " ",
          "" + ['\''] + ResultLine.SENTINEL + ['\''] + "\n  exit 0\n}\n");
  }

  /** What the exe.dev guest reads out of its script. */
  lemma ExedevScriptReadsBack(argv: seq<string>, cwd: string, stdin: seq<Byte>)
    ensures var pieces := WrapperPieces(EXEDEV, argv, cwd, stdin);
            && ScriptReads(WrapperScript(EXEDEV, argv, cwd, stdin), pieces, WrapperTail(EXEDEV, argv))
            && |pieces| == 2 + |argv|
            && Decode(pieces[0].value) == Some(stdin) && pieces[1].value == cwd
            && forall i :: 0 <= i < |argv| ==> pieces[2 + i].value == argv[i]
  {
    ExedevInputOpens();
    ExedevDirectoryOpens();
    ExedevCommandOpens();
    TailsClose();
    WrapperReadsBack(EXEDEV, argv, cwd, stdin);
  }

  /* The Orchard script */

  const ORCHARD_INPUT := "set -u\nd=$(mktemp -d) || exit 121\ntrap " + ['\''] + "rm -rf \"$d\"" + ['\'']
                         + " EXIT\nprintf %s "
  const ORCHARD_DIRECTORY := " | base64 -d > " + ['"'] + "$d/in" + ['"'] + "\ncd "
  const ORCHARD_COMMAND := " || exit 122\n"
  const ORCHARD_FORMAT := CODE_KEY + (("%d" + STDOUT_KEY) + (("%s" + STDERR_KEY) + ("%s" + OBJECT_END)))
  const ORCHARD_STATUS_READ := "\"\nc=$?\n"
  const ORCHARD_TAIL :=
    " < \"" + ("$d/in" + ("\"" + (" > \"" + ("$d/out" + ("\"" + (" 2> \"" + ("$d/err"
    + (ORCHARD_STATUS_READ + ("printf '" + (ORCHARD_FORMAT + ORCHARD_REPORT))))))))))
  const ORCHARD_REPORT :=
    "' \"$c\" \"$(base64" + (" < \"" + ("$d/out" + (STREAM_END + (" \"$(base64" + (" < \"" + ("$d/err" + (STREAM_END
    + "\n")))))))

  const ORCHARD := Texts(ORCHARD_INPUT, ORCHARD_DIRECTORY, ORCHARD_COMMAND, ORCHARD_TAIL)

  lemma OrchardInputOpens()
    ensures Opens(ORCHARD_INPUT)
  {
    OrchardInputIsInert();
    Passage("set -u\nd=$(mktemp -d) || exit 121\ntrap ", '\'', "rm -rf \"$d\"", " EXIT\nprintf %s ");
  }

  lemma OrchardInputIsInert()
    ensures Inert("set -u\nd=$(mktemp -d) || exit 121\ntrap ", Outside)
  {
  }

  lemma OrchardDirectoryOpens()
    ensures Opens(ORCHARD_DIRECTORY) && Closes(ORCHARD_DIRECTORY)
  {
    Passage(" | base64 -d > ", '"', "$d/in", "\ncd ");
  }

  lemma OrchardCommandOpens()
    ensures Opens(ORCHARD_COMMAND) && Closes(ORCHARD_COMMAND)
  {
    OrchardCommandIsInert();
    InertOpens(ORCHARD_COMMAND);
  }

  lemma OrchardCommandIsInert()
    ensures Inert(ORCHARD_COMMAND, Outside) && |ORCHARD_COMMAND| == 13
    ensures ORCHARD_COMMAND[0] == ' ' && ORCHARD_COMMAND[12] == '\n'
  {
  }

  lemma InertOpens(text: string)
    requires Inert(text, Outside) && text != "" && StartsWord(text[|text| - 1])
    ensures Opens(text)
  {
    Undisturbed(text, Outside);
  }

  /** What the Orchard guest reads out of its script. */
  lemma OrchardScriptReadsBack(argv: seq<string>, cwd: string, stdin: seq<Byte>)
    ensures var pieces := WrapperPieces(ORCHARD, argv, cwd, stdin);
            && ScriptReads(WrapperScript(ORCHARD, argv, cwd, stdin), pieces, WrapperTail(ORCHARD, argv))
            && |pieces| == 2 + |argv|
            && Decode(pieces[0].value) == Some(stdin) && pieces[1].value == cwd
            && forall i :: 0 <= i < |argv| ==> pieces[2 + i].value == argv[i]
  {
    OrchardInputOpens();
    OrchardDirectoryOpens();
    OrchardCommandOpens();
    TailsClose();
    WrapperReadsBack(ORCHARD, argv, cwd, stdin);
  }
}
