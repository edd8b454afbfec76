/** What a command in an Orchard guest is reported as, told from the text its wrapper prints. */
module GuestAnswers {
  import opened Wrappers
  import opened Protocol
  import opened Execution
  import opened Text
  import opened OrchardExecute
  import B = Base64
  import ResultLine
  import ScriptRuns
  import WrapperScripts

  /** The reader reads this text as the JSON it is, and takes base64 streams strictly, bytes to text by `lossy`. */
  ghost predicate ReadsJson(w: World, text: string, lossy: ResultLine.Lossy) {
    && w.fromStr(text) == ResultLine.ParseObject(text)
    && (forall bytes: seq<B.Byte> :: w.decode(B.Encode(bytes)) == lossy(bytes))
  }

  /** Status, output and error text of a finished command, as the wrapper prints them. */
  function Printed(code: nat, output: seq<B.Byte>, errors: seq<B.Byte>): string {
    ResultLine.Payload(Decimal(code), B.Encode(output), B.Encode(errors))
  }

  /** What the last attempt was answered with. */
  function LastOutput(w: World): Option<ExecutionOutput> {
    w.answers(Sent(w, 0) - 1)
  }

  /**
   * A command whose wrapper came to print its result is reported with exactly that status, that output and that error
   * text, under the execution that ran it.
   */
  lemma PrintedResultIsAnswered(w: World, code: nat, output: seq<B.Byte>, errors: seq<B.Byte>, lossy: ResultLine.Lossy)
    requires LastOutput(w).Some? && LastOutput(w).value.exitCode.Some?
    requires Trim(LastOutput(w).value.stdout) == Printed(code, output, errors)
    requires ReadsJson(w, Printed(code, output, errors), lossy)
    requires code < 0x8000_0000_0000_0000 && code != 121 && code != 122
    ensures AnswerOf(w, LastOutput(w))
         == Answer(Ready, Some(CommandData(code, lossy(output), lossy(errors))),
                   Some(LastOutput(w).value.executionId))
  {
    ResultLine.EncodedIsPlain(output);
    ResultLine.EncodedIsPlain(errors);
    ResultLine.PayloadParses(code, B.Encode(output), B.Encode(errors));
    var value := ResultLine.ParseObject(Printed(code, output, errors)).value;
    assert value.Get("exit_code") == Some(Number(code));
    assert value.Get("stdout") == Some(Json.String(B.Encode(output)));
    assert value.Get("stderr") == Some(Json.String(B.Encode(errors)));
  }

  /**
   * From the command in the guest to the adapter's answer: whatever status, output and error text it ends with in the
   * Orchard wrapper is what is reported.
   */
  lemma GuestCommandIsAnswered(w: World, argv: seq<string>, cwd: string, stdin: seq<B.Byte>,
                               command: ScriptRuns.Command, lossy: ResultLine.Lossy)
    requires LastOutput(w).Some? && LastOutput(w).value.exitCode.Some?
    requires Some(LastOutput(w).value.stdout) == ScriptRuns.Run(WrapperScripts.ORCHARD, [], argv, cwd, stdin, command)
    requires var (code, output, errors) := command(argv, cwd, stdin);
             && ReadsJson(w, Printed(code, output, errors), lossy)
             && code < 0x8000_0000_0000_0000 && code != 121 && code != 122
    ensures var (code, output, errors) := command(argv, cwd, stdin);
            AnswerOf(w, LastOutput(w))
            == Answer(Ready, Some(CommandData(code, lossy(output), lossy(errors))),
                      Some(LastOutput(w).value.executionId))
  {
    var (code, output, errors) := command(argv, cwd, stdin);
    ScriptRuns.OrchardRunPrints(argv, cwd, stdin, command);
    ResultLine.EncodedIsPlain(output);
    ResultLine.EncodedIsPlain(errors);
    ResultLine.PayloadIsOneLine(code, B.Encode(output), B.Encode(errors));
    PrintedResultIsAnswered(w, code, output, errors, lossy);
  }

  /** And through the relay's noise, what an exe.dev command ends with is what is read. */
  lemma ExedevCommandIsRead(before: seq<string>, argv: seq<string>, cwd: string, stdin: seq<B.Byte>,
                            command: ScriptRuns.Command, after: string, lossy: ResultLine.Lossy)
    requires ResultLine.Noise(before) && command(argv, cwd, stdin).0 < 0x8000_0000_0000_0000
    ensures var (code, output, errors) := command(argv, cwd, stdin);
            var printed := ScriptRuns.Run(WrapperScripts.EXEDEV, [ResultLine.SENTINEL], argv, cwd, stdin, command);
            && printed.Some?
            && ResultLine.Parse(ResultLine.Joined(before) + (printed.value + after), lossy)
               == Some(ResultLine.CommandResult(code, lossy(output), lossy(errors)))
  {
    var (code, output, errors) := command(argv, cwd, stdin);
    ScriptRuns.ExedevRunPrints(argv, cwd, stdin, command);
    var payload := ResultLine.Payload(Decimal(code), B.Encode(output), B.Encode(errors));
    Regrouped(ResultLine.SENTINEL, payload, after);
    ResultLine.ResultLineRoundTrip(before, code, output, errors, after, lossy);
  }

  lemma Regrouped(sentinel: string, payload: string, after: string)
    ensures (sentinel + (payload + "\n")) + after == sentinel + payload + "\n" + after
  {
  }

  /** The text is a JSON object that names a status of the command's own. */
  predicate NamesStatus(w: World, text: string) {
    && w.fromStr(text).Some?
    && match w.fromStr(text).value.Get("exit_code")
       case Some(Number(code)) =>
         -0x8000_0000_0000_0000 <= code < 0x8000_0000_0000_0000 && code != 121 && code != 122
       case _ => false
  }

  /**
   * A finished attempt without such a text is answered as failed, with nothing from the guest but under its execution;
   * an unfinished one is pending under it, and one that could not be launched names none.
   */
  lemma OtherAnswers(w: World)
    ensures AnswerOf(w, LastOutput(w)).status.Ready? <==>
            LastOutput(w).Some? && LastOutput(w).value.exitCode.Some?
            && NamesStatus(w, Trim(LastOutput(w).value.stdout))
    ensures LastOutput(w).Some? && LastOutput(w).value.exitCode.Some?
            && !NamesStatus(w, Trim(LastOutput(w).value.stdout)) ==>
              AnswerOf(w, LastOutput(w)) == Answer(Status.Failed, None, Some(LastOutput(w).value.executionId))
    ensures LastOutput(w).Some? && LastOutput(w).value.exitCode.None? ==>
              AnswerOf(w, LastOutput(w)) == Answer(Pending, None, Some(LastOutput(w).value.executionId))
    ensures LastOutput(w).None? ==> AnswerOf(w, LastOutput(w)) == Answer(Status.Failed, None, None)
  {
  }

  /** A wrapper that could not start, or not enter its directory, is a fault of the transport, not a result. */
  lemma ReservedStatusIsFailed(w: World, code: nat, output: seq<B.Byte>, errors: seq<B.Byte>, lossy: ResultLine.Lossy)
    requires LastOutput(w).Some? && LastOutput(w).value.exitCode.Some?
    requires Trim(LastOutput(w).value.stdout) == Printed(code, output, errors)
    requires ReadsJson(w, Printed(code, output, errors), lossy) && (code == 121 || code == 122)
    ensures AnswerOf(w, LastOutput(w)) == Answer(Status.Failed, None, Some(LastOutput(w).value.executionId))
  {
    ResultLine.EncodedIsPlain(output);
    ResultLine.EncodedIsPlain(errors);
    ResultLine.PayloadParses(code, B.Encode(output), B.Encode(errors));
    assert ResultLine.ParseObject(Printed(code, output, errors)).value.Get("exit_code") == Some(Number(code));
  }

  /** A field that is no base64 text, or is not there, reads as empty; the status stands. */
  lemma MissingStreamIsEmpty(w: World, value: Json, code: int)
    requires LastOutput(w).Some? && LastOutput(w).value.exitCode.Some?
    requires w.fromStr(Trim(LastOutput(w).value.stdout)) == Some(value) && value.Get("exit_code") == Some(Number(code))
    requires -0x8000_0000_0000_0000 <= code < 0x8000_0000_0000_0000 && code != 121 && code != 122
    ensures var data := AnswerOf(w, LastOutput(w)).data;
            && data.Some? && data.value.exitCode == code
            && (!value.At("stdout").String? ==> data.value.stdout == "")
            && (!value.At("stderr").String? ==> data.value.stderr == "")
  {
  }

  /* How often the command goes out */

  predicate StartFails(w: World, k: nat) {
    && w.answers(k).Some? && w.answers(k).value.exitCode.Some?
    && !NamesStatus(w, Trim(w.answers(k).value.stdout))
    && Trim(w.answers(k).value.stdout) == ""
    && (|| Contains(w.answers(k).value.stderr, "failed to setup port-forwarding")
        || Contains(w.answers(k).value.stderr, "failed to WebSocket dial")
        || Contains(w.answers(k).value.stderr, "expected handshake response status code"))
  }

  lemma RetryableIff(w: World, k: nat)
    ensures Retryable(w, k) <==> StartFails(w, k)
  {
    if w.answers(k).Some? {
      var stderr := w.answers(k).value.stderr;
      assert SETUP_FAILURES[0] in SETUP_FAILURES && SETUP_FAILURES[1] in SETUP_FAILURES;
      assert SETUP_FAILURES[2] in SETUP_FAILURES;
      assert forall marker :: marker in SETUP_FAILURES && Contains(stderr, marker) ==>
          marker == SETUP_FAILURES[0] || marker == SETUP_FAILURES[1] || marker == SETUP_FAILURES[2];
    }
  }

  /** The second attempt is made exactly if the first failed to start, the third exactly if both did, never a fourth. */
  lemma AttemptsMade(w: World)
    ensures 1 <= Sent(w, 0) <= 3
    ensures Sent(w, 0) >= 2 <==> StartFails(w, 0)
    ensures Sent(w, 0) == 3 <==> StartFails(w, 0) && StartFails(w, 1)
  {
    RetryableIff(w, 0);
    RetryableIff(w, 1);
    assert Sent(w, 2) == 3;
    assert Sent(w, 1) == if Retryable(w, 1) then 3 else 2;
  }
}
