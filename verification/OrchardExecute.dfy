/** Running one command inside a guest: a bounded loop that resends only what never started. */
module OrchardExecute {
  import opened Wrappers
  import opened Protocol
  import opened Execution
  import opened Text

  const RETRIES: nat := 2
  const DEFAULT_TIMEOUT_MS: nat := 300_000
  const WRAPPER_MKTEMP_FAILED := 121
  const WRAPPER_CHDIR_FAILED := 122

  const SETUP_FAILURES: seq<string> :=
    ["failed to setup port-forwarding", "failed to WebSocket dial", "expected handshake response status code"]

  /**
   * What each attempt would answer, whether its command ran in the guest, and how JSON text and base64 streams read.
   */
  datatype World = World(
    answers: nat -> Option<ExecutionOutput>,
    ran: nat -> bool,
    fromStr: string -> Option<Json>,
    decode: string -> string)

  datatype CommandData = CommandData(exitCode: int, stdout: string, stderr: string)

  datatype Answer = Answer(status: Status, data: Option<CommandData>, executionId: Option<string>)

  function Field(w: World, value: Json, field: string): string {
    match value.Get(field)
    case Some(String(text)) => w.decode(text)
    case _ => ""
  }

  /** The command's own result, or a transport fault. */
  function Interpret(w: World, raw: string): Option<CommandData> {
    match w.fromStr(Trim(raw))
    case None => None
    case Some(value) =>
      match value.Get("exit_code")
      case Some(Number(code)) =>
        if !(-0x8000_0000_0000_0000 <= code < 0x8000_0000_0000_0000)
           || code == WRAPPER_MKTEMP_FAILED || code == WRAPPER_CHDIR_FAILED then None
        else Some(CommandData(code, Field(w, value, "stdout"), Field(w, value, "stderr")))
      case _ => None
  }

  predicate NeverStarted(stdout: string, stderr: string) {
    Trim(stdout) == "" && exists marker :: marker in SETUP_FAILURES && Contains(stderr, marker)
  }

  /** The only answer after which the same command goes out again. */
  predicate Retryable(w: World, attempt: nat) {
    && w.answers(attempt).Some?
    && var output := w.answers(attempt).value;
       output.exitCode.Some? && Interpret(w, output.stdout).None? && NeverStarted(output.stdout, output.stderr)
  }

  /** A carrier that reports a setup failure and wrote nothing did not run the command. */
  ghost predicate Honest(w: World) {
    forall k: nat :: Retryable(w, k) ==> !w.ran(k)
  }

  function AnswerOf(w: World, answered: Option<ExecutionOutput>): Answer {
    match answered
    case None => Answer(Status.Failed, None, None)
    case Some(output) =>
      if output.exitCode.None? then Answer(Pending, None, Some(output.executionId))
      else
        var interpreted := Interpret(w, output.stdout);
        Answer(if interpreted.Some? then Ready else Status.Failed, interpreted, Some(output.executionId))
  }

  /** The number of attempts sent, from this one on. */
  function Sent(w: World, attempt: nat): (n: nat)
    requires attempt <= RETRIES
    ensures attempt < n <= RETRIES + 1
    decreases RETRIES - attempt
  {
    if attempt < RETRIES && Retryable(w, attempt) then Sent(w, attempt + 1) else attempt + 1
  }

  function Executions(w: World, sent: nat): nat {
    if sent == 0 then 0 else Executions(w, sent - 1) + if w.ran(sent - 1) then 1 else 0
  }

  lemma {:induction false} AllButLastRetryable(w: World, attempt: nat, k: nat)
    requires attempt <= RETRIES && attempt <= k < Sent(w, attempt) - 1
    ensures Retryable(w, k)
    decreases RETRIES - attempt
  {
    if attempt < k {
      AllButLastRetryable(w, attempt + 1, k);
    }
  }

  lemma {:induction false} NoneRan(w: World, sent: nat)
    requires forall k :: 0 <= k < sent ==> !w.ran(k)
    ensures Executions(w, sent) == 0
  {
    if sent > 0 {
      NoneRan(w, sent - 1);
    }
  }

  /** One call makes at most three attempts, and the command runs at most once: in the last attempt or not at all. */
  lemma CommandRunsAtMostOnce(w: World)
    requires Honest(w)
    ensures Sent(w, 0) <= 3
    ensures Executions(w, Sent(w, 0)) == if w.ran(Sent(w, 0) - 1) then 1 else 0
    ensures forall k :: 0 <= k < Sent(w, 0) - 1 ==> !w.ran(k)
  {
    var sent := Sent(w, 0);
    forall k | 0 <= k < sent - 1 ensures !w.ran(k) {
      AllButLastRetryable(w, 0, k);
    }
    NoneRan(w, sent - 1);
  }

  /** Nothing goes out after an attempt that failed to launch, has not finished, or wrote anything at all. */
  lemma OnlyUnstartedIsResent(w: World, k: nat)
    requires k + 1 < Sent(w, 0)
    ensures w.answers(k).Some?
    ensures var output := w.answers(k).value;
            output.exitCode.Some? && Trim(output.stdout) == "" && NeverStarted(output.stdout, output.stderr)
  {
    AllButLastRetryable(w, 0, k);
  }

  /** What the call answers, told from its last attempt alone. */
  lemma AnswerIsTheCommandsOwn(w: World)
    ensures var answer := AnswerOf(w, w.answers(Sent(w, 0) - 1));
            && (answer.status.Ready? <==> answer.data.Some?)
            && (answer.data.Some? ==>
                  && answer.data.value.exitCode != WRAPPER_MKTEMP_FAILED
                  && answer.data.value.exitCode != WRAPPER_CHDIR_FAILED
                  && var output := w.answers(Sent(w, 0) - 1).value;
                     && output.exitCode.Some?
                     && w.fromStr(Trim(output.stdout)).Some?
                     && w.fromStr(Trim(output.stdout)).value.Get("exit_code")
                        == Some(Number(answer.data.value.exitCode)))
            && (answer.status.Pending? <==>
                  w.answers(Sent(w, 0) - 1).Some? && w.answers(Sent(w, 0) - 1).value.exitCode.None?)
            && (answer.status.Pending? ==> answer.executionId == Some(w.answers(Sent(w, 0) - 1).value.executionId))
  {
  }

  datatype Plan = Plan(argv: seq<string>, cwd: string, stdin: string, timeoutMs: nat)

  /** The texts among these values; the others are passed over. */
  function TextsOf(items: seq<Json>): seq<string> {
    if items == [] then []
    else (if items[0].String? then [items[0].s] else []) + TextsOf(items[1..])
  }

  /** An input without a word to run is refused; directory, input and timeout have defaults. */
  function PlanOf(input: Json): Option<Plan> {
    var argv := match input.Get("argv") case Some(Array(items)) => TextsOf(items) case _ => [];
    if argv == [] then None
    else
      Some(Plan(argv,
                if input.At("cwd").String? then input.At("cwd").s else "/",
                if input.At("stdin").String? then input.At("stdin").s else "",
                match input.Get("timeout_ms")
                case Some(Number(n)) => if 0 <= n < 0x1_0000_0000_0000_0000 then n else DEFAULT_TIMEOUT_MS
                case _ => DEFAULT_TIMEOUT_MS))
  }

  /** The attempt loop; an input without a command is refused before anything is sent. */
  method Run(w: World, input: Json) returns (answer: Answer, sent: nat)
    ensures PlanOf(input).None? ==> sent == 0 && answer == Answer(Status.Failed, None, None)
    ensures PlanOf(input).Some? ==> sent == Sent(w, 0) && answer == AnswerOf(w, w.answers(sent - 1))
    ensures Honest(w) ==> Executions(w, sent) <= 1
  {
    if PlanOf(input).None? {
      return Answer(Status.Failed, None, None), 0;
    }
    if Honest(w) {
      CommandRunsAtMostOnce(w);
    }
    for attempt := 0 to RETRIES + 1
      invariant attempt <= RETRIES && Sent(w, attempt) == Sent(w, 0)
    {
      sent := attempt + 1;
      var answered := w.answers(attempt);
      if answered.None? || answered.value.exitCode.None? {
        return AnswerOf(w, answered), sent;
      }
      var interpreted := Interpret(w, answered.value.stdout);
      if interpreted.None? && attempt < RETRIES && NeverStarted(answered.value.stdout, answered.value.stderr) {
        continue;
      }
      return AnswerOf(w, answered), sent;
    }
    assert false;
  }

  /** The key an attempt is sent under. */
  function CarrierKey(requestId: string, attempt: nat): string {
    "workenv-orchard-execute:" + requestId + ":" + Decimal(attempt)
  }

  lemma LastColon(a: string, d: string, b: string, e: string)
    requires a + ":" + d == b + ":" + e
    requires ':' !in d && ':' !in e
    ensures a == b && d == e
  {
    var s := a + ":" + d;
    assert s[|b|] == ':' && (b + ":" + e)[|a|] == ':';
    assert a == s[..|a|] && d == s[|a| + 1..];
    assert b == (b + ":" + e)[..|b|] && e == (b + ":" + e)[|b| + 1..];
  }

  /** No two attempts, of this call or of another request's, share a key, so none is answered with another's outcome. */
  lemma CarrierKeysAreDistinct(r: string, i: nat, q: string, j: nat)
    requires CarrierKey(r, i) == CarrierKey(q, j)
    ensures r == q && i == j
  {
    var prefix := "workenv-orchard-execute:";
    forall n: nat ensures ':' !in Decimal(n) {
      forall k | 0 <= k < |Decimal(n)| ensures Decimal(n)[k] != ':' {
        assert IsDigit(Decimal(n)[k]);
      }
    }
    LastColon(prefix + r, Decimal(i), prefix + q, Decimal(j));
    assert r == (prefix + r)[|prefix|..] && q == (prefix + q)[|prefix|..];
    DecimalReadsBack(i);
    DecimalReadsBack(j);
  }
}
