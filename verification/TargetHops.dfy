/** The first hop of a target-located call: what is sent to the transport, what its guest runs, and what comes back. */
module TargetHops {
  import opened Wrappers
  import opened Protocol
  import opened Execution
  import opened Resume
  import opened OrchardExecute
  import B = Base64
  import WrapperScripts
  import ShellScript

  /* What is sent */

  /** Nothing on record says that a transport is still at it. */
  predicate NoHopOnRecord(previous: Option<Json>) {
    previous.Some? ==>
      && (previous.value.At("status") == String("pending") ==> previous.value.Get("data").Some?)
      && (previous.value.At("status") == String("pending") ==>
            previous.value.At("data").At("kind") != String("transport_pending"))
  }

  lemma NoHopIsRead(previous: Option<Json>, requestId: string)
    requires NoHopOnRecord(previous)
    ensures ReadPendingTransport(previous, requestId) == Success(None)
  {
  }

  /**
   * A hop that is new is launched as `execute` of the transport, for the same target, with the target command as its
   * input and nothing else, under an id of its own: told apart from a first one whenever anything is on record.
   */
  lemma NewHopCarries(env: Env, base: AdapterRequest, extension: string, nonce: string)
    requires NoHopOnRecord(base.previous) && env.targetInput(base).Some?
    ensures TransportOf(env, base, extension, nonce).Success?
    ensures var sent := SentOnTransport(base, TransportOf(env, base, extension, nonce).value, nonce);
            && sent.Executed? && sent.key == sent.request.requestId
            && sent.request.operation == "execute" && sent.request.extension == extension
            && sent.request.target == base.target && sent.request.protocolVersion == 1
            && Some(sent.request.input) == env.targetInput(base)
            && sent.request.config == Null && sent.request.previous == None
            && (base.previous.None? ==> sent.request.requestId == base.requestId + ":transport")
            && (base.previous.Some? ==> sent.request.requestId == base.requestId + ":transport:" + nonce)
  {
    NoHopIsRead(base.previous, base.requestId);
    assert base.requestId + ":transport" + "" == base.requestId + ":transport";
    assert base.requestId + ":transport" + (":" + nonce) == base.requestId + ":transport:" + nonce;
  }

  lemma NoCommandIsSent(env: Env, base: AdapterRequest, extension: string, nonce: string,
                        output: Option<ExecutionOutput>)
    requires NoHopOnRecord(base.previous) && env.targetInput(base).None?
    ensures InvokeTarget(env, base, extension, nonce, output) == Failure(NoTargetCommand)
  {
    NoHopIsRead(base.previous, base.requestId);
  }

  /* What comes back */

  /** The transport's process ended with this answer, and the transport's contract accepts it. */
  predicate Answered(env: Env, transport: AdapterRequest, output: ExecutionOutput, answer: AdapterResponse) {
    && output.exitCode == Some(0)
    && env.fromStr(output.stdout).Some? && DecodeResponse(env.fromStr(output.stdout).value) == Some(answer)
    && answer.requestId == transport.requestId && answer.protocolVersion == 1
    && (answer.Complete() ==> env.valid(transport.extension, transport.operation, answer.data))
  }

  /** That is all a finished process can answer with; one that runs on is pending under its execution. */
  lemma ProcessAnswersIff(env: Env, request: AdapterRequest, output: ExecutionOutput, answer: AdapterResponse)
    ensures output.exitCode.Some? ==>
              (ControllerAnswer(env, request, Some(output)) == Success(answer) <==>
                 Answered(env, request, output, answer))
    ensures output.exitCode.None? ==>
              && ControllerAnswer(env, request, Some(output)).Success?
              && ControllerAnswer(env, request, Some(output)).value.status.Pending?
              && ControllerAnswer(env, request, Some(output)).value.requestId == request.requestId
              && ControllerAnswer(env, request, Some(output)).value.executionId == Some(output.executionId)
    ensures ControllerAnswer(env, request, None).Failure?
  {
  }

  /** The command the transport ran ended with this answer for the target's own request, and its contract accepts it. */
  predicate Delivers(env: Env, base: AdapterRequest, answer: AdapterResponse, response: AdapterResponse) {
    && !answer.status.Pending?
    && answer.data.Get("exit_code") == Some(Number(0))
    && answer.data.Get("stdout").Some? && answer.data.At("stdout").String?
    && env.fromStr(answer.data.At("stdout").s).Some?
    && DecodeResponse(env.fromStr(answer.data.At("stdout").s).value) == Some(response)
    && response.requestId == base.requestId && response.protocolVersion == 1
    && (response.Complete() ==> env.valid(base.extension, base.operation, response.data))
  }

  /** The target's own answer comes back as it was given, its execution named by the transport only if it names none. */
  lemma AnswerComesBack(env: Env, base: AdapterRequest, extension: string, nonce: string, output: ExecutionOutput,
                        answer: AdapterResponse, response: AdapterResponse)
    requires NoHopOnRecord(base.previous) && env.targetInput(base).Some?
    requires Answered(env, TransportOf(env, base, extension, nonce).value.request, output, answer)
    requires Delivers(env, base, answer, response)
    ensures var back := InvokeTarget(env, base, extension, nonce, Some(output));
            && back.Success? && back.value.(executionId := None) == response.(executionId := None)
            && (response.executionId.Some? ==> back.value.executionId == response.executionId)
            && (response.executionId.None? ==> back.value.executionId == answer.data.At("execution_id").AsStr())
  {
    NoHopIsRead(base.previous, base.requestId);
  }

  ghost predicate GivesBack(env: Env, base: AdapterRequest, answer: AdapterResponse, back: AdapterResponse) {
    exists response :: Delivers(env, base, answer, response)
                       && back.(executionId := None) == response.(executionId := None)
  }

  /** Nothing else that a finished transport says is taken for an answer of the target. */
  lemma OnlyDeliveredComesBack(env: Env, base: AdapterRequest, extension: string, nonce: string,
                               output: Option<ExecutionOutput>)
    requires NoHopOnRecord(base.previous) && env.targetInput(base).Some?
    requires InvokeTarget(env, base, extension, nonce, output).Success?
    ensures var back := InvokeTarget(env, base, extension, nonce, output).value;
            var transport := TransportOf(env, base, extension, nonce).value.request;
            && output.Some?
            && (|| output.value.exitCode.None?
                || exists answer :: Answered(env, transport, output.value, answer)
                                    && (answer.status.Pending? || GivesBack(env, base, answer, back)))
  {
    NoHopIsRead(base.previous, base.requestId);
    var transport := TransportOf(env, base, extension, nonce).value.request;
    if output.Some? && output.value.exitCode.Some? {
      var answer := DecodeResponse(env.fromStr(output.value.stdout).value).value;
      assert Answered(env, transport, output.value, answer);
      if !answer.status.Pending? {
        var response := DecodeResponse(env.fromStr(answer.data.At("stdout").s).value).value;
        assert Delivers(env, base, answer, response);
      }
    }
  }

  /* The target command */

  function Profiles(profiles: seq<string>): seq<string> {
    if profiles == [] then [] else ["--profile", profiles[0]] + Profiles(profiles[1..])
  }

  /** The adapter's executable by its bare name, inside the target's devenv shell unless that is still to be made. */
  function TargetCommand(name: Option<string>, request: AdapterRequest): Option<seq<string>> {
    if name.None? then None
    else if request.operation == "prepare" then Some([name.value])
    else
      Some(["devenv", "shell", "--from", request.target.source] + Profiles(request.target.profiles)
           + ["--", name.value])
  }

  function TransportInput(name: Option<string>, request: AdapterRequest, text: string): Option<Json> {
    match TargetCommand(name, request)
    case None => None
    case Some(argv) =>
      Some(Object(map["argv" := Array(EncodeTexts(argv)),
                      "cwd" := String(request.target.directory),
                      "stdin" := String(text)]))
  }

  /** What `devenv shell` reads of its options: the source, the profiles, and the command behind `--`. */
  datatype Shell = Shell(source: Option<string>, profiles: seq<string>, command: seq<string>)

  function ReadShell(words: seq<string>, read: Shell): Option<Shell>
    decreases |words|
  {
    if words == [] then None
    else if words[0] == "--" then Some(read.(command := words[1..]))
    else if |words| < 2 then None
    else if words[0] == "--from" then ReadShell(words[2..], read.(source := Some(words[1])))
    else if words[0] == "--profile" then ReadShell(words[2..], read.(profiles := read.profiles + [words[1]]))
    else None
  }

  lemma {:induction false} ProfilesReadBack(profiles: seq<string>, command: seq<string>, read: Shell)
    ensures ReadShell(Profiles(profiles) + (["--"] + command), read)
         == Some(Shell(read.source, read.profiles + profiles, command))
    decreases |profiles|
  {
    var words := Profiles(profiles) + (["--"] + command);
    if profiles == [] {
      assert words == ["--"] + command && words[1..] == command;
      assert read.profiles + [] == read.profiles;
    } else {
      assert words[2..] == Profiles(profiles[1..]) + (["--"] + command);
      ProfilesReadBack(profiles[1..], command, read.(profiles := read.profiles + [profiles[0]]));
      assert read.profiles + [profiles[0]] + profiles[1..] == read.profiles + profiles;
    }
  }

  /** The command enters the target's own shell, with its source and all its profiles in order, and runs the adapter. */
  lemma CommandEntersShell(name: string, request: AdapterRequest)
    requires request.operation != "prepare"
    ensures var argv := TargetCommand(Some(name), request).value;
            && |argv| >= 2 && argv[0] == "devenv" && argv[1] == "shell"
            && ReadShell(argv[2..], Shell(None, [], []))
               == Some(Shell(Some(request.target.source), request.target.profiles, [name]))
  {
    var argv := TargetCommand(Some(name), request).value;
    var options := Profiles(request.target.profiles) + (["--"] + [name]);
    assert ["--", name] == ["--"] + [name];
    assert argv[2..] == ["--from", request.target.source] + options;
    assert argv[2..][2..] == options;
    ProfilesReadBack(request.target.profiles, [name], Shell(Some(request.target.source), [], []));
    assert [] + request.target.profiles == request.target.profiles;
  }

  /* What the guest runs */

  lemma {:induction false} TextsAreTaken(texts: seq<string>)
    ensures TextsOf(EncodeTexts(texts)) == texts
  {
    if texts != [] {
      assert EncodeTexts(texts)[1..] == EncodeTexts(texts[1..]);
      TextsAreTaken(texts[1..]);
    }
  }

  /** A plan goes by the fields of its input, with a default for what is missing or of another kind. */
  lemma PlanReads(input: Json, argv: seq<string>)
    requires input.Get("argv") == Some(Array(EncodeTexts(argv)))
    ensures PlanOf(input).Some? <==> argv != []
    ensures argv != [] ==>
              var plan := PlanOf(input).value;
              && plan.argv == argv
              && (forall text :: input.At("cwd") == String(text) ==> plan.cwd == text)
              && (!input.At("cwd").String? ==> plan.cwd == "/")
              && (forall text :: input.At("stdin") == String(text) ==> plan.stdin == text)
              && (!input.At("stdin").String? ==> plan.stdin == "")
              && (forall n :: input.Get("timeout_ms") == Some(Number(n)) && 0 <= n < 0x1_0000_0000_0000_0000 ==>
                    plan.timeoutMs == n)
              && (input.Get("timeout_ms").None? ==> plan.timeoutMs == 300_000)
  {
    TextsAreTaken(argv);
  }

  lemma PlanIsTheInput(name: string, request: AdapterRequest, text: string)
    ensures var input := TransportInput(Some(name), request, text);
            && input.Some?
            && PlanOf(input.value)
               == Some(Plan(TargetCommand(Some(name), request).value, request.target.directory, text, 300_000))
  {
    TextsAreTaken(TargetCommand(Some(name), request).value);
  }

  /**
   * From the core to the guest's shell: the first hop of a call makes an Orchard guest read exactly the target command,
   * word by word, in the target's directory, with the request itself as its input.
   */
  lemma CommandReachesGuest(env: Env, base: AdapterRequest, extension: string, nonce: string, name: string,
                            text: AdapterRequest -> string, utf8: string -> seq<B.Byte>)
    requires NoHopOnRecord(base.previous) && env.targetInput(base) == TransportInput(Some(name), base, text(base))
    ensures TransportOf(env, base, extension, nonce).Success?
    ensures var sent := SentOnTransport(base, TransportOf(env, base, extension, nonce).value, nonce);
            var argv := TargetCommand(Some(name), base).value;
            && PlanOf(sent.request.input) == Some(Plan(argv, base.target.directory, text(base), 300_000))
            && var plan := PlanOf(sent.request.input).value;
               var pieces := WrapperScripts.WrapperPieces(WrapperScripts.ORCHARD, plan.argv, plan.cwd,
                                                          utf8(plan.stdin));
               && ShellScript.ScriptReads(
                    WrapperScripts.WrapperScript(WrapperScripts.ORCHARD, plan.argv, plan.cwd, utf8(plan.stdin)), pieces,
                    WrapperScripts.WrapperTail(WrapperScripts.ORCHARD, plan.argv))
               && |pieces| == 2 + |argv|
               && B.Decode(pieces[0].value) == Some(utf8(text(base))) && pieces[1].value == base.target.directory
               && forall i :: 0 <= i < |argv| ==> pieces[2 + i].value == argv[i]
  {
    PlanIsTheInput(name, base, text(base));
    NewHopCarries(env, base, extension, nonce);
    WrapperScripts.OrchardScriptReadsBack(TargetCommand(Some(name), base).value, base.target.directory,
                                          utf8(text(base)));
  }
}
