/** Deciding whether a retry launches, observes or resends, and packing a transport that has not finished. */
module Resume {
  import opened Wrappers
  import opened Protocol
  import opened Execution

  datatype InvokeError = ExecutorFailed | ExitedNonZero | InvalidJson | RequestIdMismatch | UnsupportedVersion
                       | SchemaMismatch | BadPendingRecord | TransportFailed | NoTargetCommand

  type Response = Result<AdapterResponse, InvokeError>

  /** Unseen parts: JSON text, output schemas and how a target command and its request are rendered. */
  datatype Env = Env(
    fromStr: string -> Option<Json>,
    valid: (string, string, Json) -> bool,
    targetInput: AdapterRequest -> Option<Json>)

  /** What one attempt asked of the executor. */
  datatype Sent = Executed(request: AdapterRequest, key: string) | Observed(request: AdapterRequest,
                                                                            executionId: string)

  predicate IsText(value: Json, text: string) {
    value.AsStr() == Some(text)
  }

  /** The execution a previous answer left running, if it is this request's own. */
  function OuterExecutionId(previous: Option<Json>, requestId: string): Option<string> {
    if previous.None? || !IsText(previous.value.At("status"), "pending") then None
    else
      var data := previous.value.At("data");
      if !IsText(data.At("kind"), "adapter_execution") || !IsText(data.At("request_id"), requestId) then None
      else previous.value.At("execution_id").AsStr()
  }

  function ExecutionPending(request: AdapterRequest, executionId: string): AdapterResponse {
    NewResponse(request, Pending,
                Object(map["kind" := String("adapter_execution"), "request_id" := String(request.requestId)]))
      .(executionId := Some(executionId))
  }

  function ResponseFromOutput(env: Env, output: ExecutionOutput, request: AdapterRequest): Response {
    if output.exitCode.None? then Success(ExecutionPending(request, output.executionId))
    else if output.exitCode != Some(0) then Failure(ExitedNonZero)
    else
      var value := env.fromStr(output.stdout);
      var response := if value.Some? then DecodeResponse(value.value) else None;
      if response.None? then Failure(InvalidJson)
      else if response.value.requestId != request.requestId then Failure(RequestIdMismatch)
      else Success(response.value)
  }

  /** The key a launch goes out under; a retry with something recorded must not be answered with the first launch. */
  function ExecutionKey(request: AdapterRequest, previous: Option<Json>, nonce: string): string {
    if previous.Some? && OuterExecutionId(previous, request.requestId).None? then
      request.requestId + ":adapter-invocation:" + nonce
    else request.requestId
  }

  function Send(request: AdapterRequest, previous: Option<Json>, nonce: string): Sent {
    match OuterExecutionId(previous, request.requestId)
    case Some(executionId) => Observed(request, executionId)
    case None => Executed(request, ExecutionKey(request, previous, nonce))
  }

  /** One adapter process, launched or observed; `output` is what the executor then reports. */
  function InvokeController(env: Env, request: AdapterRequest, output: Option<ExecutionOutput>): Response {
    if output.None? then Failure(ExecutorFailed) else ResponseFromOutput(env, output.value, request)
  }

  datatype PendingTransport = PendingTransport(request: AdapterRequest, response: AdapterResponse)

  function RequestForTransport(base: AdapterRequest, extension: string, input: Json,
                               nonce: Option<string>): AdapterRequest
  {
    var requestId := base.requestId + ":transport" + if nonce.Some? then ":" + nonce.value else "";
    AdapterRequest(PROTOCOL_VERSION, requestId, extension, "execute", base.target, Null, input, None)
  }

  function ReadPendingTransport(previous: Option<Json>, targetRequestId: string)
    : Result<Option<PendingTransport>, InvokeError>
  {
    if previous.None? || !IsText(previous.value.At("status"), "pending") then Success(None)
    else if previous.value.Get("data").None? then Failure(BadPendingRecord)
    else
      var data := previous.value.At("data");
      if !IsText(data.At("kind"), "transport_pending") then Success(None)
      else if !IsText(previous.value.At("request_id"), targetRequestId) then Failure(RequestIdMismatch)
      else
        var request, response := DecodeRequest(data.At("request")), DecodeResponse(data.At("response"));
        if request.None? || response.None? then Failure(BadPendingRecord)
        else Success(Some(PendingTransport(request.value, response.value)))
  }

  function Packed(output: AdapterResponse, request: AdapterRequest, transport: AdapterRequest): AdapterResponse {
    NewResponse(request, Pending,
                Object(map["kind" := String("transport_pending"),
                           "request" := EncodeRequest(transport),
                           "response" := EncodeResponse(output)]))
      .(executionId := output.executionId)
  }

  function TransportResponse(env: Env, output: AdapterResponse, request: AdapterRequest,
                             transport: AdapterRequest): Response
  {
    if output.status.Pending? then Success(Packed(output, request, transport))
    else if output.data.At("exit_code").AsInt() != Some(0) then Failure(TransportFailed)
    else if output.data.At("stdout").AsStr().None? then Failure(TransportFailed)
    else
      var value := env.fromStr(output.data.At("stdout").s);
      var response := if value.Some? then DecodeResponse(value.value) else None;
      if response.None? then Failure(InvalidJson)
      else if response.value.requestId != request.requestId then Failure(RequestIdMismatch)
      else Success(if response.value.executionId.None?
                   then response.value.(executionId := output.data.At("execution_id").AsStr()) else response.value)
  }

  function ValidateResponse(env: Env, request: AdapterRequest, response: AdapterResponse): Response {
    if response.protocolVersion != PROTOCOL_VERSION then Failure(UnsupportedVersion)
    else if response.requestId != request.requestId then Failure(RequestIdMismatch)
    else if response.Complete() && !env.valid(request.extension, request.operation, response.data) then
      Failure(SchemaMismatch)
    else Success(response)
  }

  /** The transport request an attempt sends: the one still pending, or a new one. */
  function TransportOf(env: Env, request: AdapterRequest, extension: string,
                       nonce: string): Result<PendingTransport, InvokeError>
  {
    match ReadPendingTransport(request.previous, request.requestId)
    case Failure(error) => Failure(error)
    case Success(Some(pending)) => Success(pending)
    case Success(None) =>
      var input := env.targetInput(request);
      if input.None? then Failure(NoTargetCommand)
      else
        var transport := RequestForTransport(request, extension, input.value,
                                             if request.previous.Some? then Some(nonce) else None);
        Success(PendingTransport(transport, NewResponse(transport, Failed, Null)))
  }

  /** Whether the request was read back from a pending record rather than built anew. */
  predicate IsResend(request: AdapterRequest) {
    var pending := ReadPendingTransport(request.previous, request.requestId);
    pending.Success? && pending.value.Some?
  }

  function SentOnTransport(request: AdapterRequest, transport: PendingTransport, nonce: string): Sent {
    Send(transport.request, if IsResend(request) then Some(EncodeResponse(transport.response)) else None, nonce)
  }

  /** What one controller-located process answers to `request`, if this output is acceptable as an answer. */
  function ControllerAnswer(env: Env, request: AdapterRequest, output: Option<ExecutionOutput>): Response {
    match InvokeController(env, request, output)
    case Failure(error) => Failure(error)
    case Success(answered) => ValidateResponse(env, request, answered)
  }

  /** What the transport's process answers, unpacked and held to the target operation's own contract. */
  function FromTransport(env: Env, request: AdapterRequest, transport: AdapterRequest, output: Option<ExecutionOutput>)
    : Response
  {
    match ControllerAnswer(env, transport, output)
    case Failure(error) => Failure(error)
    case Success(answered) =>
      match TransportResponse(env, answered, request, transport)
      case Failure(error) => Failure(error)
      case Success(response) => ValidateResponse(env, request, response)
  }

  /** One attempt at a target-located adapter through a transport. */
  function InvokeTarget(env: Env, request: AdapterRequest, extension: string, nonce: string,
                        output: Option<ExecutionOutput>): Response
  {
    match TransportOf(env, request, extension, nonce)
    case Failure(error) => Failure(error)
    case Success(transport) => FromTransport(env, request, transport.request, output)
  }

  lemma PackedReads(output: AdapterResponse, request: AdapterRequest, transport: AdapterRequest)
    ensures var value := EncodeResponse(Packed(output, request, transport));
            && value.At("status") == String("pending")
            && value.At("request_id") == String(request.requestId)
            && value.At("data").At("kind") == String("transport_pending")
            && value.At("data").At("request") == EncodeRequest(transport)
            && value.At("data").At("response") == EncodeResponse(output)
  {
  }

  /**
   * Unpacking a packed hop gives back the very request and output, for every request whose `previous` is no explicit
   * null.
   */
  lemma PackUnpack(output: AdapterResponse, request: AdapterRequest, transport: AdapterRequest)
    ensures transport.previous != Some(Null) <==>
              ReadPendingTransport(Some(EncodeResponse(Packed(output, request, transport))), request.requestId)
              == Success(Some(PendingTransport(transport, output)))
  {
    PackedReads(output, request, transport);
    RequestDecodes(transport);
    ResponseRoundTrip(output);
  }

  /** Every answer taken from a transport is the target's own. */
  lemma AnswerIsTheTargetsOwn(env: Env, output: AdapterResponse, request: AdapterRequest, transport: AdapterRequest)
    ensures TransportResponse(env, output, request, transport).Success? ==>
              TransportResponse(env, output, request, transport).value.requestId == request.requestId
  {
  }

  /** The request a retry makes: the receipt hands back what is on record. */
  function RetryOf(base: AdapterRequest, recorded: AdapterResponse): AdapterRequest {
    base.(previous := Some(EncodeResponse(recorded)))
  }

  /** What is on record after an attempt: its answer, or, when it failed, what was there before. */
  function Kept(recorded: AdapterResponse, answer: Response): AdapterResponse {
    if answer.Success? then answer.value else recorded
  }

  /** What retries of a controller-located call send, one after the other, until its record is complete. */
  function ControllerRetries(env: Env, base: AdapterRequest, recorded: AdapterResponse,
                             outputs: seq<Option<ExecutionOutput>>, nonce: string): seq<Sent>
    decreases |outputs|
  {
    if outputs == [] || recorded.Complete() then []
    else
      var request := RetryOf(base, recorded);
      [Send(request, request.previous, nonce)]
      + ControllerRetries(env, base, Kept(recorded, ControllerAnswer(env, request, outputs[0])), outputs[1..], nonce)
  }

  /** The process still runs, could not be looked at, or ended without an answer that is accepted. */
  predicate Unfinished(env: Env, request: AdapterRequest, output: Option<ExecutionOutput>) {
    output.None? || output.value.exitCode.None? || ControllerAnswer(env, request, output).Failure?
  }

  /** The execution a retry looks at after this output. */
  function StillAwaited(executionId: string, output: Option<ExecutionOutput>): string {
    if output.Some? && output.value.exitCode.None? then output.value.executionId else executionId
  }

  lemma PendingIsRecognised(request: AdapterRequest, executionId: string)
    ensures OuterExecutionId(Some(EncodeResponse(ExecutionPending(request, executionId))), request.requestId)
         == Some(executionId)
  {
    var value := EncodeResponse(ExecutionPending(request, executionId));
    assert value.At("status") == String("pending");
    assert value.At("data").At("kind") == String("adapter_execution");
    assert value.At("data").At("request_id") == String(request.requestId);
    assert value.At("execution_id") == String(executionId);
  }

  /** Only an execution that is still pending, of an adapter, and of this very request is taken up again. */
  lemma OnlyOwnExecutionIsResumed(previous: Json, requestId: string, executionId: string)
    ensures OuterExecutionId(Some(previous), requestId) == Some(executionId) <==>
            && previous.At("status") == String("pending")
            && previous.At("data").At("kind") == String("adapter_execution")
            && previous.At("data").At("request_id") == String(requestId)
            && previous.At("execution_id") == String(executionId)
  {
  }

  /** A hop packed for another request is refused. */
  lemma ForeignHopIsRefused(output: AdapterResponse, request: AdapterRequest, transport: AdapterRequest, other: string)
    requires other != request.requestId
    ensures ReadPendingTransport(Some(EncodeResponse(Packed(output, request, transport))), other)
         == Failure(RequestIdMismatch)
  {
    PackedReads(output, request, transport);
  }

  lemma UnfinishedAnswer(env: Env, request: AdapterRequest, output: Option<ExecutionOutput>)
    requires Unfinished(env, request, output)
    ensures var answer := ControllerAnswer(env, request, output);
            answer.Success? ==> output.Some? && output.value.exitCode.None?
                                && answer.value == ExecutionPending(request, output.value.executionId)
    ensures output.Some? && output.value.exitCode.None? ==> ControllerAnswer(env, request, output).Success?
  {
  }

  lemma UnfinishedStaysPending(env: Env, base: AdapterRequest, executionId: string, output: Option<ExecutionOutput>)
    requires Unfinished(env, base, output)
    ensures var recorded := ExecutionPending(base, executionId);
            Kept(recorded, ControllerAnswer(env, RetryOf(base, recorded), output))
            == ExecutionPending(base, StillAwaited(executionId, output))
  {
    UnfinishedAnswer(env, RetryOf(base, ExecutionPending(base, executionId)), output);
  }

  /** Every look is at the execution awaited when it is taken. */
  predicate OnlyObserves(sent: seq<Sent>, request: AdapterRequest, executionId: string,
                         outputs: seq<Option<ExecutionOutput>>)
    decreases |sent|
  {
    if sent == [] || outputs == [] then sent == [] && outputs == []
    else
      && sent[0].Observed? && SameCall(sent[0].request, request) && sent[0].executionId == executionId
      && OnlyObserves(sent[1..], request, StillAwaited(executionId, outputs[0]), outputs[1..])
  }

  /** A retry differs from the call it repeats in nothing but what it is handed back. */
  predicate SameCall(a: AdapterRequest, b: AdapterRequest) {
    a.(previous := None) == b.(previous := None)
  }

  /**
   * A recorded pending execution is only ever observed, never launched again, over any retries: each looks at the
   * execution last seen running, until one is given an answer that is accepted.
   */
  lemma {:induction false} PendingIsOnlyObserved(env: Env, base: AdapterRequest, executionId: string,
                                                 outputs: seq<Option<ExecutionOutput>>, nonce: string)
    requires forall k :: 0 <= k < |outputs| - 1 ==> Unfinished(env, base, outputs[k])
    ensures OnlyObserves(ControllerRetries(env, base, ExecutionPending(base, executionId), outputs, nonce),
                         base, executionId, outputs)
    decreases |outputs|
  {
    if outputs != [] {
      PendingIsRecognised(base, executionId);
      var recorded := ExecutionPending(base, executionId);
      var kept := Kept(recorded, ControllerAnswer(env, RetryOf(base, recorded), outputs[0]));
      assert ControllerRetries(env, base, recorded, outputs, nonce)[1..]
          == ControllerRetries(env, base, kept, outputs[1..], nonce);
      if |outputs| > 1 {
        assert Unfinished(env, base, outputs[0]);
        UnfinishedStaysPending(env, base, executionId, outputs[0]);
        assert forall k :: 0 <= k < |outputs[1..]| ==> outputs[1..][k] == outputs[k + 1];
        PendingIsOnlyObserved(env, base, StillAwaited(executionId, outputs[0]), outputs[1..], nonce);
      }
    }
  }

  /** An observed execution reports under its own id, and then every look is at that one execution. */
  lemma {:induction false} OneExecutionIsObserved(sent: seq<Sent>, request: AdapterRequest, executionId: string,
                                                  outputs: seq<Option<ExecutionOutput>>)
    requires OnlyObserves(sent, request, executionId, outputs)
    requires forall k :: 0 <= k < |outputs| && outputs[k].Some? ==> outputs[k].value.executionId == executionId
    ensures |sent| == |outputs|
    ensures forall k :: 0 <= k < |sent| ==> sent[k].Observed? && sent[k].executionId == executionId
    decreases |sent|
  {
    if sent != [] {
      OneExecutionIsObserved(sent[1..], request, executionId, outputs[1..]);
    }
  }

  /**
   * A first launch goes out under the request id; a relaunch over a recorded answer goes out under a key of its own.
   */
  lemma RelaunchKeyIsNew(request: AdapterRequest, previous: Option<Json>, nonce: string)
    requires Send(request, previous, nonce).Executed?
    ensures Send(request, previous, nonce).key == request.requestId <==> previous.None?
  {
    var key := request.requestId + ":adapter-invocation:" + nonce;
    assert |key| > |request.requestId|;
  }

  /** What retries of a target-located call send through the transport, until its record is complete. */
  function TransportRetries(env: Env, base: AdapterRequest, recorded: AdapterResponse, extension: string,
                            outputs: seq<Option<ExecutionOutput>>, nonce: string): seq<Sent>
    decreases |outputs|
  {
    if outputs == [] || recorded.Complete() then []
    else
      var request := RetryOf(base, recorded);
      match TransportOf(env, request, extension, nonce)
      case Failure(_) => []
      case Success(transport) =>
        [SentOnTransport(request, transport, nonce)]
        + TransportRetries(env, base, Kept(recorded, InvokeTarget(env, request, extension, nonce, outputs[0])),
                           extension, outputs[1..], nonce)
  }

  /** After this output the hop is still on record: the transport is pending, or nothing it gave was accepted. */
  predicate HopStays(env: Env, base: AdapterRequest, transport: AdapterRequest, output: Option<ExecutionOutput>) {
    var answer := ControllerAnswer(env, transport, output);
    (answer.Success? && answer.value.status.Pending?) || FromTransport(env, base, transport, output).Failure?
  }

  /** What the hop then holds of the transport's own answers. */
  function HopAnswer(env: Env, transport: AdapterRequest, pending: AdapterResponse, output: Option<ExecutionOutput>)
    : AdapterResponse
  {
    var answer := ControllerAnswer(env, transport, output);
    if answer.Success? && answer.value.status.Pending? then answer.value else pending
  }

  lemma ResendReads(env: Env, base: AdapterRequest, extension: string, transport: AdapterRequest,
                    pending: AdapterResponse, nonce: string)
    requires transport.previous != Some(Null)
    ensures var request := RetryOf(base, Packed(pending, base, transport));
            && IsResend(request)
            && TransportOf(env, request, extension, nonce) == Success(PendingTransport(transport, pending))
  {
    PackUnpack(pending, base, transport);
  }

  /** Who asks does not change what a transport's answer comes to. */
  lemma HandedBackIsIgnored(env: Env, base: AdapterRequest, recorded: AdapterResponse, transport: AdapterRequest,
                            output: Option<ExecutionOutput>)
    ensures FromTransport(env, RetryOf(base, recorded), transport, output) == FromTransport(env, base, transport,
                                                                                            output)
  {
  }

  lemma ResendKeepsTransport(env: Env, base: AdapterRequest, extension: string, transport: AdapterRequest,
                             pending: AdapterResponse, output: Option<ExecutionOutput>, nonce: string)
    requires transport.previous != Some(Null) && HopStays(env, base, transport, output)
    ensures var recorded := Packed(pending, base, transport);
            Kept(recorded, InvokeTarget(env, RetryOf(base, recorded), extension, nonce, output))
            == Packed(HopAnswer(env, transport, pending, output), base, transport)
  {
    ResendReads(env, base, extension, transport, pending, nonce);
    HandedBackIsIgnored(env, base, Packed(pending, base, transport), transport, output);
  }

  lemma OneResend(env: Env, base: AdapterRequest, extension: string, transport: AdapterRequest,
                  pending: AdapterResponse,
                  outputs: seq<Option<ExecutionOutput>>, nonce: string)
    requires transport.previous != Some(Null) && outputs != []
    ensures var recorded := Packed(pending, base, transport);
            var request := RetryOf(base, recorded);
            TransportRetries(env, base, recorded, extension, outputs, nonce)
            == [SentOnTransport(request, PendingTransport(transport, pending), nonce)]
               + TransportRetries(env, base, Kept(recorded, InvokeTarget(env, request, extension, nonce, outputs[0])),
                                  extension, outputs[1..], nonce)
  {
    ResendReads(env, base, extension, transport, pending, nonce);
  }

  predicate AllCarry(sent: seq<Sent>, transport: AdapterRequest) {
    forall k :: 0 <= k < |sent| ==> sent[k].request == transport
  }

  /** While the hop stays on record, every resend carries the identical transport request first sent. */
  lemma {:induction false} ResendsAreIdentical(env: Env, base: AdapterRequest, extension: string,
                                               transport: AdapterRequest, pending: AdapterResponse,
                                               outputs: seq<Option<ExecutionOutput>>, nonce: string)
    requires transport.previous != Some(Null)
    requires forall k :: 0 <= k < |outputs| - 1 ==> HopStays(env, base, transport, outputs[k])
    ensures var sent := TransportRetries(env, base, Packed(pending, base, transport), extension, outputs, nonce);
            |sent| == |outputs| && AllCarry(sent, transport)
    decreases |outputs|
  {
    if outputs != [] {
      OneResend(env, base, extension, transport, pending, outputs, nonce);
      if |outputs| > 1 {
        assert HopStays(env, base, transport, outputs[0]);
        ResendKeepsTransport(env, base, extension, transport, pending, outputs[0], nonce);
        ResendsAreIdentical(env, base, extension, transport, HopAnswer(env, transport, pending, outputs[0]),
                            outputs[1..], nonce);
      }
    }
  }

  /** The transport's process still runs, or what it gave was refused, by the transport's contract or the target's. */
  predicate HopUnfinished(env: Env, base: AdapterRequest, transport: AdapterRequest, output: Option<ExecutionOutput>) {
    Unfinished(env, transport, output) || FromTransport(env, base, transport, output).Failure?
  }

  /** A transport answer that is itself pending is the one thing that ends the look at its process and keeps the hop. */
  lemma HopUnfinishedKeepsExecution(env: Env, base: AdapterRequest, transport: AdapterRequest, executionId: string,
                                    output: Option<ExecutionOutput>)
    requires HopUnfinished(env, base, transport, output)
    ensures HopStays(env, base, transport, output)
    ensures HopAnswer(env, transport, ExecutionPending(transport, executionId), output)
         == ExecutionPending(transport, StillAwaited(executionId, output))
  {
    if Unfinished(env, transport, output) {
      UnfinishedAnswer(env, transport, output);
    }
  }

  /** The transport's own pending process is only ever observed too, under the request first sent. */
  lemma {:induction false} HopIsOnlyObserved(env: Env, base: AdapterRequest, extension: string,
                                             transport: AdapterRequest, executionId: string,
                                             outputs: seq<Option<ExecutionOutput>>, nonce: string)
    requires transport.previous != Some(Null)
    requires forall k :: 0 <= k < |outputs| - 1 ==> HopUnfinished(env, base, transport, outputs[k])
    ensures var recorded := Packed(ExecutionPending(transport, executionId), base, transport);
            var sent := TransportRetries(env, base, recorded, extension, outputs, nonce);
            OnlyObserves(sent, transport, executionId, outputs) && AllCarry(sent, transport)
    decreases |outputs|
  {
    if outputs != [] {
      var pending := ExecutionPending(transport, executionId);
      OneResend(env, base, extension, transport, pending, outputs, nonce);
      ResendReads(env, base, extension, transport, pending, nonce);
      PendingIsRecognised(transport, executionId);
      if |outputs| > 1 {
        assert HopUnfinished(env, base, transport, outputs[0]);
        HopUnfinishedKeepsExecution(env, base, transport, executionId, outputs[0]);
        ResendKeepsTransport(env, base, extension, transport, pending, outputs[0], nonce);
        HopIsOnlyObserved(env, base, extension, transport, StillAwaited(executionId, outputs[0]), outputs[1..], nonce);
      }
    }
  }

  /** Reading never yields an explicit null, so no record the program reads can hold one. */
  lemma ReadRequestsHaveNoNull(value: Json)
    ensures DecodeRequest(value).Some? ==> DecodeRequest(value).value.previous != Some(Null)
  {
  }

  /** What a record gives back is what its packing puts in again, whatever the record says. */
  lemma ReadHopPacksBack(previous: Json, base: AdapterRequest, pending: PendingTransport)
    requires ReadPendingTransport(Some(previous), base.requestId) == Success(Some(pending))
    ensures ReadPendingTransport(Some(EncodeResponse(Packed(pending.response, base, pending.request))), base.requestId)
         == Success(Some(pending))
  {
    ReadRequestsHaveNoNull(previous.At("data").At("request"));
    PackUnpack(pending.response, base, pending.request);
  }

  /** The transport request of a call that has no hop on record: a new one, with a name of its own if anything is. */
  function NewTransport(env: Env, base: AdapterRequest, extension: string, nonce: string): AdapterRequest
    requires env.targetInput(base).Some?
  {
    RequestForTransport(base, extension, env.targetInput(base).value, if base.previous.Some? then Some(nonce) else None)
  }

  lemma HopStarts(env: Env, base: AdapterRequest, extension: string, nonce: string, first: Option<ExecutionOutput>)
    requires ReadPendingTransport(base.previous, base.requestId) == Success(None) && env.targetInput(base).Some?
    requires var answer := ControllerAnswer(env, NewTransport(env, base, extension, nonce), first);
             answer.Success? && answer.value.status.Pending?
    ensures var transport := NewTransport(env, base, extension, nonce);
            InvokeTarget(env, base, extension, nonce, first)
            == Success(Packed(ControllerAnswer(env, transport, first).value, base, transport))
  {
  }

  lemma RunningAnswer(env: Env, request: AdapterRequest, output: ExecutionOutput)
    requires output.exitCode.None?
    ensures ControllerAnswer(env, request, Some(output)) == Success(ExecutionPending(request, output.executionId))
  {
  }

  /** A hop that does not finish at once leaves a record that every later retry resends unchanged. */
  lemma FirstSentIsResent(env: Env, base: AdapterRequest, extension: string, first: Option<ExecutionOutput>,
                          outputs: seq<Option<ExecutionOutput>>, nonce: string)
    requires ReadPendingTransport(base.previous, base.requestId) == Success(None) && env.targetInput(base).Some?
    requires var transport := NewTransport(env, base, extension, nonce);
             && ControllerAnswer(env, transport, first).Success?
             && ControllerAnswer(env, transport, first).value.status.Pending?
             && forall k :: 0 <= k < |outputs| - 1 ==> HopStays(env, base, transport, outputs[k])
    ensures var transport := NewTransport(env, base, extension, nonce);
            && TransportOf(env, base, extension, nonce).Success?
            && SentOnTransport(base, TransportOf(env, base, extension, nonce).value, nonce)
               == Executed(transport, transport.requestId)
            && var answer := InvokeTarget(env, base, extension, nonce, first);
               && answer.Success?
               && var sent := TransportRetries(env, base, answer.value, extension, outputs, nonce);
                  |sent| == |outputs| && AllCarry(sent, transport)
  {
    var transport := NewTransport(env, base, extension, nonce);
    var pending := ControllerAnswer(env, transport, first).value;
    HopStarts(env, base, extension, nonce, first);
    ResendsAreIdentical(env, base, extension, transport, pending, outputs, nonce);
  }

  /** And a hop whose process is left running is observed from then on: nothing is launched twice. */
  lemma FirstLeftRunningIsObserved(env: Env, base: AdapterRequest, extension: string, first: ExecutionOutput,
                                   outputs: seq<Option<ExecutionOutput>>, nonce: string)
    requires ReadPendingTransport(base.previous, base.requestId) == Success(None) && env.targetInput(base).Some?
    requires first.exitCode.None?
    requires var transport := NewTransport(env, base, extension, nonce);
             forall k :: 0 <= k < |outputs| - 1 ==> HopUnfinished(env, base, transport, outputs[k])
    ensures var transport := NewTransport(env, base, extension, nonce);
            var answer := InvokeTarget(env, base, extension, nonce, Some(first));
            && answer.Success?
            && var sent := TransportRetries(env, base, answer.value, extension, outputs, nonce);
               OnlyObserves(sent, transport, first.executionId, outputs) && AllCarry(sent, transport)
  {
    var transport := NewTransport(env, base, extension, nonce);
    RunningAnswer(env, transport, first);
    HopStarts(env, base, extension, nonce, Some(first));
    HopIsOnlyObserved(env, base, extension, transport, first.executionId, outputs, nonce);
  }
}
