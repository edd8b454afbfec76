/** What a wrapper's fixed texts make of its files: the one its command reads, those it writes, those reported. */
module ScriptRuns {
  import opened Wrappers
  import opened Text
  import opened WrapperScripts
  import B = Base64
  import SshArgv
  import OrchardExecute

  /* Reading the texts */

  function UpTo(text: string, quote: char): (word: string)
    ensures |word| <= |text|
  {
    if text == "" || text[0] == quote then "" else [text[0]] + UpTo(text[1..], quote)
  }

  /** The quoted words behind each occurrence of a mark, which ends with their opening quote. */
  function WordsAfter(text: string, mark: string, quote: char): seq<string>
    requires mark != ""
    decreases |text|
  {
    if text == "" then []
    else if StartsWith(text, mark) then
      var word := UpTo(text[|mark|..], quote);
      [word] + WordsAfter(text[|mark| + |word|..], mark, quote)
    else WordsAfter(text[1..], mark, quote)
  }

  predicate Lacks(text: string, c: char) {
    c !in text
  }

  lemma {:induction false} UpToReads(word: string, quote: char, rest: string)
    requires Lacks(word, quote)
    ensures UpTo(word + ([quote] + rest), quote) == word
  {
    var text := word + ([quote] + rest);
    if word != "" {
      assert text[0] == word[0] && text[1..] == word[1..] + ([quote] + rest);
      UpToReads(word[1..], quote, rest);
    }
  }

  lemma WordIsRead(mark: string, word: string, quote: char, rest: string)
    requires mark != "" && Lacks(word, quote)
    ensures WordsAfter(mark + (word + ([quote] + rest)), mark, quote)
         == [word] + WordsAfter([quote] + rest, mark, quote)
  {
    var text := mark + (word + ([quote] + rest));
    assert text[..|mark|] == mark && text[|mark|..] == word + ([quote] + rest);
    UpToReads(word, quote, rest);
    assert text[|mark| + |word|..] == [quote] + rest;
  }

  lemma NoMatch(text: string, mark: string, n: nat)
    requires n < |mark| && (n < |text| ==> text[n] != mark[n])
    ensures !StartsWith(text, mark)
  {
  }

  /** The `n`th character of the mark does not come up before it could begin. */
  lemma {:induction false} Skips(text: string, rest: string, mark: string, quote: char, n: nat)
    requires n < |mark| && Lacks(text, mark[n])
    requires forall i :: 0 <= i < n && i < |rest| ==> rest[i] != mark[n]
    ensures WordsAfter(text + rest, mark, quote) == WordsAfter(rest, mark, quote)
    decreases |text|
  {
    if text == "" {
      assert text + rest == rest;
    } else {
      var whole := text + rest;
      assert whole[1..] == text[1..] + rest;
      NoMatch(whole, mark, n);
      Skips(text[1..], rest, mark, quote, n);
    }
  }

  lemma {:induction false} NoneLeft(text: string, mark: string, quote: char, n: nat)
    requires n < |mark| && Lacks(text, mark[n])
    ensures WordsAfter(text, mark, quote) == []
  {
    Skips(text, "", mark, quote, n);
    assert text + "" == text;
  }

  /* Filling in a format */

  /** What `printf` prints: each `%s` or `%d` takes the next argument, `\n` is a line feed. */
  function Printf(format: string, args: seq<string>): Option<string> {
    if format == "" then Some("")
    else if format[0] == '%' then
      if |format| < 2 || (format[1] != 's' && format[1] != 'd') || args == [] then None
      else
        match Printf(format[2..], args[1..])
        case None => None
        case Some(rest) => Some(args[0] + rest)
    else if format[0] == '\\' then
      if |format| < 2 || format[1] != 'n' then None
      else
        match Printf(format[2..], args)
        case None => None
        case Some(rest) => Some("\n" + rest)
    else
      match Printf(format[1..], args)
      case None => None
      case Some(rest) => Some([format[0]] + rest)
  }

  lemma {:induction false} PlainIsPrinted(text: string, rest: string, args: seq<string>)
    requires Lacks(text, '%') && Lacks(text, '\\') && Printf(rest, args).Some?
    ensures Printf(text + rest, args) == Some(text + Printf(rest, args).value)
    decreases |text|
  {
    if text == "" {
      assert text + rest == rest && text + Printf(rest, args).value == Printf(rest, args).value;
    } else {
      assert (text + rest)[1..] == text[1..] + rest;
      PlainIsPrinted(text[1..], rest, args);
      assert [text[0]] + (text[1..] + Printf(rest, args).value) == text + Printf(rest, args).value;
    }
  }

  /** A slot, the plain text behind it, and what follows. */
  lemma SlotIsPrinted(slot: string, text: string, rest: string, args: seq<string>)
    requires slot == "%s" || slot == "%d"
    requires args != [] && Lacks(text, '%') && Lacks(text, '\\') && Printf(rest, args[1..]).Some?
    ensures Printf((slot + text) + rest, args) == Some(args[0] + (text + Printf(rest, args[1..]).value))
  {
    var format := (slot + text) + rest;
    assert format[2..] == text + rest;
    PlainIsPrinted(text, rest, args[1..]);
  }

  predicate IsPlain(text: string) {
    Lacks(text, '%') && Lacks(text, '\\')
  }

  lemma CodeKeyIsPlain()
    ensures IsPlain(CODE_KEY)
  {
  }

  lemma StdoutKeyIsPlain()
    ensures IsPlain(STDOUT_KEY)
  {
  }

  lemma StderrKeyIsPlain()
    ensures IsPlain(STDERR_KEY)
  {
  }

  lemma ObjectEndIsPlain()
    ensures IsPlain(OBJECT_END)
  {
  }

  /** Three values between four texts. */
  function Around(a: string, x: string, b: string, y: string, c: string, z: string, d: string): string {
    a + (x + (b + (y + (c + (z + d)))))
  }

  lemma LastSlot(text: string, z: string)
    requires IsPlain(text)
    ensures Printf("%s" + text, [z]) == Some(z + text)
  {
    assert [z][1..] == [];
    assert ("%s" + text) + "" == "%s" + text && text + "" == text;
    SlotIsPrinted("%s", text, "", [z]);
  }

  lemma TwoSlots(slot: string, b: string, d: string, x: string, z: string)
    requires (slot == "%s" || slot == "%d") && IsPlain(b) && IsPlain(d)
    ensures Printf((slot + b) + ("%s" + d), [x, z]) == Some(x + (b + (z + d)))
  {
    assert [x, z][1..] == [z];
    LastSlot(d, z);
    SlotIsPrinted(slot, b, "%s" + d, [x, z]);
  }

  lemma ThreeSlots(slot: string, b: string, c: string, d: string, x: string, y: string, z: string)
    requires (slot == "%s" || slot == "%d") && IsPlain(b) && IsPlain(c) && IsPlain(d)
    ensures Printf((slot + b) + (("%s" + c) + ("%s" + d)), [x, y, z]) == Some(x + (b + (y + (c + (z + d)))))
  {
    assert [x, y, z][1..] == [y, z];
    TwoSlots("%s", c, d, y, z);
    SlotIsPrinted(slot, b, ("%s" + c) + ("%s" + d), [x, y, z]);
  }

  /** The Orchard format prints the result object around its three values. */
  lemma OrchardPrints(code: string, output: string, errors: string)
    ensures Printf(ORCHARD_FORMAT, [code, output, errors])
         == Some(Around(CODE_KEY, code, STDOUT_KEY, output, STDERR_KEY, errors, OBJECT_END))
  {
    CodeKeyIsPlain();
    StdoutKeyIsPlain();
    StderrKeyIsPlain();
    ObjectEndIsPlain();
    ThreeSlots("%d", STDOUT_KEY, STDERR_KEY, OBJECT_END, code, output, errors);
    PlainIsPrinted(CODE_KEY, ("%d" + STDOUT_KEY) + (("%s" + STDERR_KEY) + ("%s" + OBJECT_END)), [code, output, errors]);
  }

  /** The exe.dev format prints it behind the sentinel, on a line of its own. */
  lemma ExedevPrints(sentinel: string, code: string, output: string, errors: string)
    ensures Printf(EXEDEV_FORMAT, [sentinel, code, output, errors])
         == Some(sentinel + Around(CODE_KEY, code, STDOUT_KEY, output, STDERR_KEY, errors, OBJECT_END + "\n"))
  {
    CodeKeyIsPlain();
    StdoutKeyIsPlain();
    StderrKeyIsPlain();
    ObjectEndIsPlain();
    LineFeedIsPrinted(OBJECT_END, errors);
    var args := [sentinel, code, output, errors];
    assert args[1..] == [code, output, errors] && args[1..][1..] == [output, errors];
    assert [output, errors][1..] == [errors];
    SlotIsPrinted("%s", STDERR_KEY, "%s" + (OBJECT_END + "\\n"), [output, errors]);
    SlotIsPrinted("%s", STDOUT_KEY, ("%s" + STDERR_KEY) + ("%s" + (OBJECT_END + "\\n")), [code, output, errors]);
    SlotIsPrinted("%s", CODE_KEY, ("%s" + STDOUT_KEY) + (("%s" + STDERR_KEY) + ("%s" + (OBJECT_END + "\\n"))), args);
  }

  lemma LineFeedIsPrinted(text: string, z: string)
    requires IsPlain(text)
    ensures Printf("%s" + (text + "\\n"), [z]) == Some(z + (text + "\n"))
  {
    var format := "%s" + (text + "\\n");
    assert format[2..] == text + "\\n" && [z][1..] == [];
    assert "\\n"[2..] == "" && "\\n"[0] == '\\' && "\\n"[1] == 'n';
    assert "\n" + "" == "\n";
    PlainIsPrinted(text, "\\n", []);
  }

  lemma CodeKeyIs()
    ensures "{" + ("\"" + "exit_code" + "\":") == CODE_KEY
  {
  }

  lemma StdoutKeyIs()
    ensures "," + ("\"" + "stdout" + "\":" + "\"") == STDOUT_KEY
  {
  }

  lemma StderrKeyIs()
    ensures "\"" + ("," + ("\"" + "stderr" + "\":" + "\"")) == STDERR_KEY
  {
  }

  lemma AroundRegroups(a: string, k: string, x: string, m: string, l: string, y: string, n: string, o: string,
                       z: string, q: string)
    ensures a + (k + x) + m + (l + (q + y + q)) + m + (o + (q + z + q)) + n
         == Around(a + k, x, m + (l + q), y, q + (m + (o + q)), z, q + n)
  {
  }

  /** That is the object the readers parse. */
  lemma PayloadIsPrinted(code: string, output: string, errors: string)
    ensures ResultLine.Payload(code, output, errors)
         == Around(CODE_KEY, code, STDOUT_KEY, output, STDERR_KEY, errors, OBJECT_END)
  {
    CodeKeyIs();
    StdoutKeyIs();
    StderrKeyIs();
    AroundRegroups("{", "\"" + "exit_code" + "\":", code, ",", "\"" + "stdout" + "\":", output, "}",
                   "\"" + "stderr" + "\":", errors, "\"");
    assert "\"" + "}" == OBJECT_END;
  }

  /* The files of one run */

  const READS := " < \""
  const WRITES := " > \""
  const FAILS := " 2> \""

  /** The parts of a text that redirects a command and reports on it. */
  datatype Shape = Shape(
    input: string, output: string, errors: string, status: string, format: string, args: string,
    first: string, between: string, second: string, last: string)

  function TailOf(s: Shape): string {
    READS + (s.input + ("\"" + (WRITES + (s.output + ("\"" + (FAILS + (s.errors
    + (s.status + ("printf '" + (s.format + ReportOf(s)))))))))))
  }

  function ReportOf(s: Shape): string {
    s.args + (READS + (s.first + (STREAM_END + (s.between + (READS + (s.second + (STREAM_END + s.last)))))))
  }

  predicate Free(text: string) {
    text != "" && Lacks(text, '<') && Lacks(text, '>') && Lacks(text, '2')
  }

  predicate Name(text: string) {
    Free(text) && Lacks(text, '"')
  }

  /** None of the fixed parts holds a redirection of its own, and no file's name a quote. */
  predicate Clean(s: Shape) {
    && Name(s.input) && Name(s.output) && Name(s.errors) && Name(s.first) && Name(s.second)
    && Free(s.status) && s.status[0] == '"' && Free(s.format) && Free(s.args) && Free(s.between) && Free(s.last)
  }

  lemma FixedAreFree()
    ensures Free("\"") && Free("printf '") && Free(STREAM_END)
    ensures STREAM_END == ['"'] + STREAM_END[1..]
  {
    assert STREAM_END[0] == '"';
  }

  /** A mark's second character does not come up here, nor at the start of what follows. */
  lemma Past(text: string, next: string, rest: string, mark: string)
    requires |mark| > 1 && Lacks(text, mark[1]) && next != "" && Lacks(next, mark[1])
    ensures WordsAfter(text + (next + rest), mark, '"') == WordsAfter(next + rest, mark, '"')
  {
    assert (next + rest)[0] == next[0];
    Skips(text, next + rest, mark, '"', 1);
  }

  lemma StepOne(c: char, rest: string, mark: string)
    requires mark != "" && !StartsWith([c] + rest, mark)
    ensures WordsAfter([c] + rest, mark, '"') == WordsAfter(rest, mark, '"')
  {
    assert ([c] + rest)[1..] == rest;
  }

  lemma SecondDiffers(text: string, mark: string)
    requires |mark| > 1 && |text| > 1 && (text[0] != mark[0] || text[1] != mark[1])
    ensures !StartsWith(text, mark)
  {
    NoMatch(text, mark, if text[0] != mark[0] then 0 else 1);
  }

  /** Error output is no output. */
  lemma FailsIsNoWrite(rest: string)
    ensures WordsAfter(FAILS + rest, WRITES, '"') == WordsAfter(rest, WRITES, '"')
  {
    var a, b := "\"" + rest, " " + ("\"" + rest);
    var c := ">" + b;
    var d := "2" + c;
    assert FAILS + rest == [' '] + d;
    SecondDiffers([' '] + d, WRITES);
    StepOne(' ', d, WRITES);
    SecondDiffers(['2'] + c, WRITES);
    StepOne('2', c, WRITES);
    SecondDiffers(['>'] + b, WRITES);
    StepOne('>', b, WRITES);
    SecondDiffers([' '] + a, WRITES);
    StepOne(' ', a, WRITES);
    NoMatch(['"'] + rest, WRITES, 0);
    StepOne('"', rest, WRITES);
  }

  /** The command reads its input, and the report the other two. */
  lemma InputsRead(s: Shape)
    requires Clean(s)
    ensures WordsAfter(TailOf(s), READS, '"') == [s.input, s.first, s.second]
  {
    FixedAreFree();
    var after := s.errors + (s.status + ("printf '" + (s.format + ReportOf(s))));
    WordIsRead(READS, s.input, '"', WRITES + (s.output + ("\"" + (FAILS + after))));
    Past("\"", WRITES, s.output + ("\"" + (FAILS + after)), READS);
    Past(WRITES, s.output, "\"" + (FAILS + after), READS);
    Past(s.output, "\"", FAILS + after, READS);
    Past("\"", FAILS, after, READS);
    Past(FAILS, s.errors, s.status + ("printf '" + (s.format + ReportOf(s))), READS);
    Past(s.errors, s.status, "printf '" + (s.format + ReportOf(s)), READS);
    Past(s.status, "printf '", s.format + ReportOf(s), READS);
    Past("printf '", s.format, ReportOf(s), READS);
    ReportReads(s);
  }

  lemma ReportReads(s: Shape)
    requires Clean(s)
    ensures WordsAfter(s.format + ReportOf(s), READS, '"') == [s.first, s.second]
  {
    FixedAreFree();
    var again := s.between + (READS + (s.second + (STREAM_END + s.last)));
    var opening := READS + (s.first + (STREAM_END + again));
    Past(s.format, s.args, opening, READS);
    assert opening[0] == ' ';
    Skips(s.args, opening, READS, '"', 1);
    StreamIsRead(s.first, again);
    assert again[0] == s.between[0];
    Skips(STREAM_END, again, READS, '"', 1);
    var rest := READS + (s.second + (STREAM_END + s.last));
    assert rest[0] == ' ';
    Skips(s.between, rest, READS, '"', 1);
    StreamIsRead(s.second, s.last);
    Past(STREAM_END, s.last, "", READS);
    assert s.last + "" == s.last;
    NoneLeft(s.last, READS, '"', 1);
  }

  lemma StreamIsRead(name: string, rest: string)
    requires Lacks(name, '"')
    ensures WordsAfter(READS + (name + (STREAM_END + rest)), READS, '"')
         == [name] + WordsAfter(STREAM_END + rest, READS, '"')
  {
    FixedAreFree();
    assert STREAM_END + rest == ['"'] + (STREAM_END[1..] + rest);
    WordIsRead(READS, name, '"', STREAM_END[1..] + rest);
  }

  /** The command writes its output to one file, and nothing else is written. */
  lemma OutputWritten(s: Shape)
    requires Clean(s)
    ensures WordsAfter(TailOf(s), WRITES, '"') == [s.output]
  {
    FixedAreFree();
    var after := s.errors + (s.status + ("printf '" + (s.format + ReportOf(s))));
    var writing := WRITES + (s.output + ("\"" + (FAILS + after)));
    Past(READS, s.input, "\"" + writing, WRITES);
    Past(s.input, "\"", writing, WRITES);
    assert writing[0] == ' ';
    Skips("\"", writing, WRITES, '"', 1);
    WordIsRead(WRITES, s.output, '"', FAILS + after);
    assert (FAILS + after)[0] == ' ';
    Skips("\"", FAILS + after, WRITES, '"', 1);
    FailsIsNoWrite(after);
    NothingAfter(s, WRITES);
  }

  /** And its error text to another. */
  lemma ErrorsWritten(s: Shape)
    requires Clean(s)
    ensures WordsAfter(TailOf(s), FAILS, '"') == [s.errors]
  {
    FixedAreFree();
    var rest := s.status + ("printf '" + (s.format + ReportOf(s)));
    var failing := FAILS + (s.errors + rest);
    Past(READS, s.input, "\"" + (WRITES + (s.output + ("\"" + failing))), FAILS);
    Past(s.input, "\"", WRITES + (s.output + ("\"" + failing)), FAILS);
    Past("\"", WRITES, s.output + ("\"" + failing), FAILS);
    Past(WRITES, s.output, "\"" + failing, FAILS);
    Past(s.output, "\"", failing, FAILS);
    assert failing[0] == ' ';
    Skips("\"", failing, FAILS, '"', 1);
    assert rest == ['"'] + rest[1..] && rest[0] == s.status[0];
    WordIsRead(FAILS, s.errors, '"', rest[1..]);
    assert (s.errors + rest)[0] == s.errors[0];
    Skips(s.errors, rest, FAILS, '"', 1);
    NothingAfter(s, FAILS);
  }

  lemma NothingAfter(s: Shape, mark: string)
    requires Clean(s) && (mark == WRITES || mark == FAILS)
    ensures WordsAfter(s.errors + (s.status + ("printf '" + (s.format + ReportOf(s)))), mark, '"') == []
  {
    FixedAreFree();
    var again := READS + (s.second + (STREAM_END + s.last));
    Past(s.errors, s.status, "printf '" + (s.format + ReportOf(s)), mark);
    Past(s.status, "printf '", s.format + ReportOf(s), mark);
    Past("printf '", s.format, ReportOf(s), mark);
    Past(s.format, s.args, READS + (s.first + (STREAM_END + (s.between + again))), mark);
    Past(s.args, READS, s.first + (STREAM_END + (s.between + again)), mark);
    Past(READS, s.first, STREAM_END + (s.between + again), mark);
    Past(s.first, STREAM_END, s.between + again, mark);
    Past(STREAM_END, s.between, again, mark);
    Past(s.between, READS, s.second + (STREAM_END + s.last), mark);
    Past(READS, s.second, STREAM_END + s.last, mark);
    Past(s.second, STREAM_END, s.last, mark);
    Past(STREAM_END, s.last, "", mark);
    assert s.last + "" == s.last;
    NoneLeft(s.last, mark, '"', 1);
  }

  /* What is filled in, and where the input comes from */

  const PRINTS := "printf '"

  /** A part with no `printf` in it. */
  predicate Silent(text: string) {
    Lacks(text, 'f')
  }

  predicate PrintsOnce(s: Shape) {
    && Silent(s.input) && Silent(s.output) && Silent(s.errors) && Silent(s.status)
    && Lacks(s.format, '\'') && s.args != "" && s.args[0] == '\''
  }

  function Before(s: Shape): string {
    READS + s.input + "\"" + WRITES + s.output + "\"" + FAILS + s.errors + s.status
  }

  lemma NineRegroup(a: string, b: string, c: string, d: string, e: string, f: string, g: string, h: string, i: string,
                    rest: string)
    ensures a + b + c + d + e + f + g + h + i + rest
         == a + (b + (c + (d + (e + (f + (g + (h + (i + rest))))))))
  {
  }

  /** The format is what `printf` is first given. */
  lemma FormatRead(s: Shape)
    requires PrintsOnce(s)
    ensures var found := WordsAfter(TailOf(s), PRINTS, '\''); found != [] && found[0] == s.format
  {
    var rest := PRINTS + (s.format + ReportOf(s));
    NineRegroup(READS, s.input, "\"", WRITES, s.output, "\"", FAILS, s.errors, s.status, rest);
    assert TailOf(s) == Before(s) + rest;
    assert Silent(READS) && Silent(WRITES) && Silent(FAILS) && Silent("\"");
    assert rest[..8] == PRINTS && forall k :: 0 <= k < 5 ==> rest[k] == PRINTS[k];
    Skips(Before(s), rest, PRINTS, '\'', 5);
    assert ReportOf(s) == ['\''] + ReportOf(s)[1..];
    WordIsRead(PRINTS, s.format, '\'', ReportOf(s)[1..]);
  }

  /** One run, going by the texts alone. */
  type Command = (seq<string>, string, seq<B.Byte>) -> (nat, seq<B.Byte>, seq<B.Byte>)

  /** What is printed when the directory can be entered; `given` is what the report starts with. */
  function Run(texts: Texts, given: seq<string>, argv: seq<string>, cwd: string, stdin: seq<B.Byte>,
               command: Command): Option<string>
  {
    var fed, read := WordsAfter(texts.directory, WRITES, '"'), WordsAfter(texts.tail, READS, '"');
    var written, failed := WordsAfter(texts.tail, WRITES, '"'), WordsAfter(texts.tail, FAILS, '"');
    var format := WordsAfter(texts.tail, PRINTS, '\'');
    if fed == [] || |read| != 3 || written == [] || failed == [] || format == [] || read[0] != fed[0] then None
    else
      var (code, output, errors) := command(argv, cwd, stdin);
      var files := map[fed[0] := stdin][written[0] := output][failed[0] := errors];
      if read[1] !in files || read[2] !in files then None
      else Printf(format[0], given + [Decimal(code), B.Encode(files[read[1]]), B.Encode(files[read[2]])])
  }

  /** The report is about the command's own streams: all files differ, and each is read as what it was written as. */
  predicate Fits(s: Shape, fed: string) {
    && s.input == fed && s.first == s.output && s.second == s.errors && s.output != s.errors
  }

  lemma RunPrints(texts: Texts, s: Shape, given: seq<string>, argv: seq<string>, cwd: string, stdin: seq<B.Byte>,
                  command: Command)
    requires texts.tail == TailOf(s) && Clean(s) && PrintsOnce(s)
    requires var fed := WordsAfter(texts.directory, WRITES, '"'); fed != [] && Fits(s, fed[0])
    ensures var (code, output, errors) := command(argv, cwd, stdin);
            Run(texts, given, argv, cwd, stdin, command)
            == Printf(s.format, given + [Decimal(code), B.Encode(output), B.Encode(errors)])
  {
    InputsRead(s);
    OutputWritten(s);
    ErrorsWritten(s);
    FormatRead(s);
  }

  /* The two scripts */

  const ORCHARD_SHAPE :=
    Shape("$d/in", "$d/out", "$d/err", ORCHARD_STATUS_READ, ORCHARD_FORMAT, "' \"$c\" \"$(base64", "$d/out",
          " \"$(base64", "$d/err", "\n")

  lemma OrchardTail()
    ensures ORCHARD_TAIL == TailOf(ORCHARD_SHAPE)
  {
  }

  /** Free of redirections, and of the quote that ends a format. */
  predicate Bare(text: string) {
    Free(text) && Lacks(text, '\'')
  }

  lemma BareJoins(a: string, b: string)
    requires Bare(a) && Bare(b)
    ensures Bare(a + b)
  {
  }

  lemma CodeKeyIsBare()
    ensures Bare(CODE_KEY)
  {
  }

  lemma StdoutKeyIsBare()
    ensures Bare(STDOUT_KEY)
  {
  }

  lemma StderrKeyIsBare()
    ensures Bare(STDERR_KEY)
  {
  }

  lemma SmallAreBare()
    ensures Bare(OBJECT_END) && Bare("%s") && Bare("%d") && Bare("\\n")
  {
  }

  lemma OrchardFormatIsBare()
    ensures Bare(ORCHARD_FORMAT)
  {
    CodeKeyIsBare();
    StdoutKeyIsBare();
    StderrKeyIsBare();
    SmallAreBare();
    BareJoins("%s", OBJECT_END);
    BareJoins("%s", STDERR_KEY);
    BareJoins("%d", STDOUT_KEY);
    BareJoins("%s" + STDERR_KEY, "%s" + OBJECT_END);
    BareJoins("%d" + STDOUT_KEY, ("%s" + STDERR_KEY) + ("%s" + OBJECT_END));
    BareJoins(CODE_KEY, ("%d" + STDOUT_KEY) + (("%s" + STDERR_KEY) + ("%s" + OBJECT_END)));
  }

  lemma ExedevFormatIsBare()
    ensures Bare(EXEDEV_FORMAT)
  {
    CodeKeyIsBare();
    StdoutKeyIsBare();
    StderrKeyIsBare();
    SmallAreBare();
    BareJoins(OBJECT_END, "\\n");
    BareJoins("%s", OBJECT_END + "\\n");
    BareJoins("%s", STDERR_KEY);
    BareJoins("%s", STDOUT_KEY);
    BareJoins("%s", CODE_KEY);
    BareJoins("%s" + STDERR_KEY, "%s" + (OBJECT_END + "\\n"));
    BareJoins("%s" + STDOUT_KEY, ("%s" + STDERR_KEY) + ("%s" + (OBJECT_END + "\\n")));
    BareJoins("%s" + CODE_KEY, ("%s" + STDOUT_KEY) + (("%s" + STDERR_KEY) + ("%s" + (OBJECT_END + "\\n"))));
  }

  lemma OrchardNames()
    ensures Name("$d/in") && Name("$d/out") && Name("$d/err")
    ensures Silent("$d/in") && Silent("$d/out") && Silent("$d/err")
  {
  }

  lemma OrchardParts()
    ensures Free(ORCHARD_STATUS_READ) && ORCHARD_STATUS_READ[0] == '"' && Silent(ORCHARD_STATUS_READ)
    ensures Free("' \"$c\" \"$(base64") && Free(" \"$(base64") && Free("\n")
  {
  }

  lemma OrchardIsClean()
    ensures Clean(ORCHARD_SHAPE) && PrintsOnce(ORCHARD_SHAPE)
  {
    OrchardNames();
    OrchardParts();
    OrchardFormatIsBare();
    assert ORCHARD_SHAPE.args == "' \"$c\" \"$(base64" && ORCHARD_SHAPE.args[0] == '\'';
  }

  lemma OrchardIsFed()
    ensures var fed := WordsAfter(ORCHARD_DIRECTORY, WRITES, '"'); fed != [] && fed[0] == "$d/in"
  {
    var rest := WRITES + ("$d/in" + (['"'] + "\ncd "));
    assert ORCHARD_DIRECTORY == " | base64 -d" + rest;
    assert rest[0] == ' ';
    Skips(" | base64 -d", rest, WRITES, '"', 1);
    WordIsRead(WRITES, "$d/in", '"', "\ncd ");
  }

  /** The Orchard script prints the status, the output and the error text its command ends with. */
  lemma OrchardRunPrints(argv: seq<string>, cwd: string, stdin: seq<B.Byte>, command: Command)
    ensures var (code, output, errors) := command(argv, cwd, stdin);
            Run(ORCHARD, [], argv, cwd, stdin, command)
            == Some(ResultLine.Payload(Decimal(code), B.Encode(output), B.Encode(errors)))
  {
    var (code, output, errors) := command(argv, cwd, stdin);
    OrchardTail();
    OrchardIsClean();
    OrchardIsFed();
    RunPrints(ORCHARD, ORCHARD_SHAPE, [], argv, cwd, stdin, command);
    var args := [Decimal(code), B.Encode(output), B.Encode(errors)];
    assert [] + args == args;
    OrchardPrints(Decimal(code), B.Encode(output), B.Encode(errors));
    PayloadIsPrinted(Decimal(code), B.Encode(output), B.Encode(errors));
  }

  const EXEDEV_SHAPE :=
    Shape("$inp", "$out", "$err", EXEDEV_STATUS_READ, EXEDEV_FORMAT, EXEDEV_ARGS, "$out", " \"$(base64", "$err",
          "\nrm -f \"$out\" \"$err\" \"$inp\"\n")

  lemma ExedevTail()
    ensures EXEDEV_TAIL == TailOf(EXEDEV_SHAPE)
  {
  }

  lemma ExedevNames()
    ensures Name("$inp") && Name("$out") && Name("$err")
    ensures Silent("$inp") && Silent("$out") && Silent("$err")
  {
  }

  lemma ExedevParts()
    ensures Free(EXEDEV_STATUS_READ) && EXEDEV_STATUS_READ[0] == '"' && Silent(EXEDEV_STATUS_READ)
    ensures Free(" \"$(base64")
  {
  }

  lemma ExedevEnd()
    ensures Free("\nrm -f \"$out\" \"$err\" \"$inp\"\n")
  {
  }

  lemma ExedevArgs()
    ensures Free(EXEDEV_ARGS) && EXEDEV_ARGS[0] == '\''
  {
    assert Free("' \\\n  '") && Free("' \"$status\" \"$(base64");
    SentinelIsFree();
  }

  lemma SentinelIsFree()
    ensures Free(ResultLine.SENTINEL)
  {
  }

  lemma ExedevIsClean()
    ensures Clean(EXEDEV_SHAPE) && PrintsOnce(EXEDEV_SHAPE)
  {
    ExedevNames();
    ExedevParts();
    ExedevArgs();
    ExedevEnd();
    ExedevFormatIsBare();
  }

  lemma ExedevIsFed()
    ensures var fed := WordsAfter(EXEDEV_DIRECTORY, WRITES, '"'); fed != [] && fed[0] == "$inp"
  {
    var last := " 2>/dev/null || : > " + ("" + ['"'] + "$inp" + ['"'] + "\ncd ");
    var rest := WRITES + ("$inp" + (['"'] + last));
    ExedevDirectory(last);
    assert rest[0] == ' ';
    Skips(" | base64 -d", rest, WRITES, '"', 1);
    WordIsRead(WRITES, "$inp", '"', last);
  }

  lemma ExedevDirectory(last: string)
    requires last == " 2>/dev/null || : > " + ("" + ['"'] + "$inp" + ['"'] + "\ncd ")
    ensures EXEDEV_DIRECTORY == " | base64 -d" + (WRITES + ("$inp" + (['"'] + last)))
  {
    FourRegroup(" | base64 -d > ", ['"'], "$inp", ['"'], " 2>/dev/null || : > ",
                "" + ['"'] + "$inp" + ['"'] + "\ncd ");
    assert WRITES == " > " + ['"'] && " | base64 -d > " == " | base64 -d" + " > ";
    ThreeRegroup(" | base64 -d", " > ", ['"'], "$inp" + (['"'] + last));
  }

  lemma FourRegroup(a: string, b: string, c: string, d: string, e: string, f: string)
    ensures a + b + c + d + e + f == a + (b + (c + (d + (e + f))))
  {
  }

  lemma ThreeRegroup(a: string, b: string, c: string, rest: string)
    ensures (a + b) + (c + rest) == a + ((b + c) + rest)
  {
  }

  /** The exe.dev script prints the same behind its sentinel, as one line. */
  lemma ExedevRunPrints(argv: seq<string>, cwd: string, stdin: seq<B.Byte>, command: Command)
    ensures var (code, output, errors) := command(argv, cwd, stdin);
            Run(EXEDEV, [ResultLine.SENTINEL], argv, cwd, stdin, command)
            == Some(ResultLine.SENTINEL
                    + (ResultLine.Payload(Decimal(code), B.Encode(output), B.Encode(errors)) + "\n"))
  {
    var (code, output, errors) := command(argv, cwd, stdin);
    ExedevTail();
    ExedevIsClean();
    ExedevIsFed();
    RunPrints(EXEDEV, EXEDEV_SHAPE, [ResultLine.SENTINEL], argv, cwd, stdin, command);
    GivenFirst(ResultLine.SENTINEL, Decimal(code), B.Encode(output), B.Encode(errors));
    ExedevPrints(ResultLine.SENTINEL, Decimal(code), B.Encode(output), B.Encode(errors));
    PayloadIsPrinted(Decimal(code), B.Encode(output), B.Encode(errors));
    LineFeedLast(CODE_KEY, Decimal(code), STDOUT_KEY, B.Encode(output), STDERR_KEY, B.Encode(errors), OBJECT_END);
  }

  lemma GivenFirst(a: string, b: string, c: string, d: string)
    ensures [a] + [b, c, d] == [a, b, c, d]
  {
  }

  lemma LineFeedLast(a: string, x: string, b: string, y: string, c: string, z: string, d: string)
    ensures Around(a, x, b, y, c, z, d + "\n") == Around(a, x, b, y, c, z, d) + "\n"
  {
  }

  /** Over ssh the input is written to one file, */
  lemma SshInputWritten()
    ensures WordsAfter(SshArgv.BEFORE_DIRECTORY, WRITES, '"') == ["$p"]
  {
    var exits := " || exit; cd ";
    var rest := WRITES + ("$p" + (['"'] + exits));
    assert SshArgv.BEFORE_DIRECTORY == " | base64 -d" + rest;
    assert rest[0] == ' ';
    Skips(" | base64 -d", rest, WRITES, '"', 1);
    WordIsRead(WRITES, "$p", '"', exits);
    NoneLeft(['"'] + exits, WRITES, '"', 1);
  }

  /** and read from the same. */
  lemma SshInputRead()
    ensures WordsAfter(SshArgv.AFTER_DIRECTORY, READS, '"') == ["$p"]
  {
    var reading := READS + ("$p" + (['"'] + ""));
    assert ['"'] + "" == "\"";
    assert reading[0] == ' ';
    Skips(" || exit; exec \"$@\"", reading, READS, '"', 1);
    WordIsRead(READS, "$p", '"', "");
    NoneLeft(['"'] + "", READS, '"', 1);
  }

  /* The statuses the wrappers keep for themselves */

  /** The Orchard script leaves with the statuses that its reader takes for faults. */
  lemma OrchardReserves()
    ensures ORCHARD_COMMAND == " || exit " + Decimal(OrchardExecute.WRAPPER_CHDIR_FAILED) + "\n"
    ensures ORCHARD_INPUT
         == "set -u\nd=$(mktemp -d) || exit " + Decimal(OrchardExecute.WRAPPER_MKTEMP_FAILED)
            + ("\ntrap " + ['\''] + "rm -rf \"$d\"" + ['\''] + " EXIT\nprintf %s ")
  {
    assert Decimal(12) == "12" && Decimal(122) == "122" && Decimal(121) == "121";
    assert ORCHARD_COMMAND == " || exit " + "122" + "\n";
    assert "set -u\nd=$(mktemp -d) || exit 121\ntrap " == "set -u\nd=$(mktemp -d) || exit " + "121" + "\ntrap ";
  }

  lemma MessageIsPlain()
    ensures IsPlain("122") && IsPlain(ResultLine.CHDIR_MESSAGE)
  {
  }

  /** Where the directory cannot be entered, the exe.dev script prints its own result, under the status it reserves. */
  lemma ExedevReserves(sentinel: string)
    ensures Printf(EXEDEV_CHDIR, [sentinel])
         == Some(sentinel
                 + (ResultLine.Payload(Decimal(ResultLine.WRAPPER_CHDIR_FAILED), "", ResultLine.CHDIR_MESSAGE) + "\n"))
  {
    var text := Around(CODE_KEY, "122", STDOUT_KEY, "", STDERR_KEY, ResultLine.CHDIR_MESSAGE, OBJECT_END);
    assert Decimal(12) == "12" && Decimal(122) == "122";
    PayloadIsPrinted("122", "", ResultLine.CHDIR_MESSAGE);
    ChdirRegroups(CODE_KEY, "122", STDOUT_KEY, STDERR_KEY, ResultLine.CHDIR_MESSAGE, OBJECT_END, "\\n");
    CodeKeyIsPlain();
    StdoutKeyIsPlain();
    StderrKeyIsPlain();
    ObjectEndIsPlain();
    MessageIsPlain();
    LineFeedIsPrinted(text, sentinel);
  }

  lemma ChdirRegroups(a: string, x: string, b: string, c: string, z: string, d: string, e: string)
    ensures a + (x + (b + (c + (z + (d + e))))) == Around(a, x, b, "", c, z, d) + e
  {
    assert "" + (c + (z + d)) == c + (z + d);
  }
}
