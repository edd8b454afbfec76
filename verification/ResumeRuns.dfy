/** Retries as the receipt store makes them: from what is on record, with any callers, crashes and failing writes. */
module ResumeRuns {
  import opened Wrappers
  import opened Protocol
  import opened Execution
  import opened Receipts
  import opened ReceiptProtocol
  import opened LaunchHistory
  import opened Resume

  function AsOutcome(answer: Response): Outcome {
    match answer
    case Success(response) => Success(response)
    case Failure(_) => Failure(AdapterError("adapter"))
  }

  function Gives(answer: Response): Option<AdapterResponse> -> Outcome {
    (recorded: Option<AdapterResponse>) => AsOutcome(answer)
  }

  /** What a retry leaves for the next one is what the store keeps: the new answer, or what was there before. */
  lemma RecordIsKept(files: Files, call: Call, recorded: AdapterResponse, answer: Response, disk: Disk)
    requires call.requestId in files && files[call.requestId].fingerprint == call.fingerprint
    requires files[call.requestId].response == Some(recorded) && MayBeHanded(recorded)
    ensures var after := AppliedUnder(files, call, Gives(answer), disk).0;
            && call.requestId in after && after[call.requestId].response.Some?
            && after[call.requestId].response.value in {recorded, Kept(recorded, answer)}
            && (disk == SOUND ==> after[call.requestId].response.value == Kept(recorded, answer))
  {
  }

  /** The answers that say a process of this request is still running. */
  function Running(base: AdapterRequest): AdapterResponse -> bool {
    (r: AdapterResponse) => r.executionId.Some? && r == ExecutionPending(base, r.executionId.value)
  }

  /** An answer taken from an observation that has not ended in one that is accepted. */
  ghost predicate SaysUnfinished(env: Env, base: AdapterRequest, e: Event) {
    AnswersFor(e, base.requestId) ==>
      exists output :: Unfinished(env, base, output) && ControllerAnswer(env, base, output) == Success(e.response)
  }

  /** The call went out as a look at the execution on record. */
  predicate LooksOnly(base: AdapterRequest, e: Event, nonce: string) {
    LaunchOf(e, base.requestId) ==>
      && e.previous.Some? && e.previous.value.executionId.Some?
      && var retry := RetryOf(base, e.previous.value);
         Send(retry, retry.previous, nonce) == Observed(retry, e.previous.value.executionId.value)
  }

  /**
   * In every run of the store, whatever callers, crashes and failed writes it has, a recorded pending execution is
   * only observed until an observation gives an answer that is accepted.
   */
  lemma PendingIsOnlyObservedInEveryRun(env: Env, base: AdapterRequest, s: State, steps: seq<Step>, t: State,
                                        nonce: string)
    requires Inv(s) && Keeps(s, base.requestId, Running(base)) && Reaches(s, steps, t)
    requires |s.history| <= |t.history|
    requires forall e :: e in t.history[|s.history|..] ==> SaysUnfinished(env, base, e)
    ensures Keeps(t, base.requestId, Running(base))
    ensures forall e :: e in t.history[|s.history|..] ==> LooksOnly(base, e, nonce)
  {
    var id, kind := base.requestId, Running(base);
    forall e | e in t.history[|s.history|..] ensures AnswersAre(e, id, kind) {
      assert SaysUnfinished(env, base, e);
      if AnswersFor(e, id) {
        var output :| Unfinished(env, base, output) && ControllerAnswer(env, base, output) == Success(e.response);
        UnfinishedAnswer(env, base, output);
      }
    }
    KindIsHandedOn(s, steps, t, id, kind);
    forall e | e in t.history[|s.history|..] ensures LooksOnly(base, e, nonce) {
      assert LaunchIsHanded(e, id, kind);
      if LaunchOf(e, id) {
        PendingIsRecognised(base, e.previous.value.executionId.value);
      }
    }
  }

  /** The answers that hold a hop whose own process is still running. */
  function RunningHop(base: AdapterRequest, transport: AdapterRequest): AdapterResponse -> bool {
    (r: AdapterResponse) =>
      r.executionId.Some? && r == Packed(ExecutionPending(transport, r.executionId.value), base, transport)
  }

  ghost predicate SaysHopUnfinished(env: Env, base: AdapterRequest, transport: AdapterRequest, e: Event) {
    AnswersFor(e, base.requestId) ==>
      exists output :: HopUnfinished(env, base, transport, output)
                       && FromTransport(env, base, transport, output) == Success(e.response)
  }

  /** The call went out as a look at the transport's execution, under the transport request on record. */
  predicate LooksAtHopOnly(env: Env, base: AdapterRequest, transport: AdapterRequest, e: Event, extension: string,
                           nonce: string)
  {
    LaunchOf(e, base.requestId) ==>
      && e.previous.Some? && e.previous.value.executionId.Some?
      && var retry := RetryOf(base, e.previous.value);
         && TransportOf(env, retry, extension, nonce).Success?
         && SentOnTransport(retry, TransportOf(env, retry, extension, nonce).value, nonce)
            == Observed(transport, e.previous.value.executionId.value)
  }

  lemma HopAnswerIsRunning(env: Env, base: AdapterRequest, transport: AdapterRequest, output: Option<ExecutionOutput>)
    requires HopUnfinished(env, base, transport, output) && FromTransport(env, base, transport, output).Success?
    ensures RunningHop(base, transport)(FromTransport(env, base, transport, output).value)
  {
    UnfinishedAnswer(env, transport, output);
  }

  lemma RunningHopIsLookedAt(env: Env, base: AdapterRequest, transport: AdapterRequest, previous: AdapterResponse,
                             extension: string, nonce: string)
    requires transport.previous != Some(Null) && RunningHop(base, transport)(previous)
    ensures var retry := RetryOf(base, previous);
            && TransportOf(env, retry, extension, nonce).Success?
            && SentOnTransport(retry, TransportOf(env, retry, extension, nonce).value, nonce)
               == Observed(transport, previous.executionId.value)
  {
    var pending := ExecutionPending(transport, previous.executionId.value);
    ResendReads(env, base, extension, transport, pending, nonce);
    PendingIsRecognised(transport, previous.executionId.value);
  }

  /** The same through the transport hop. */
  lemma HopIsOnlyObservedInEveryRun(env: Env, base: AdapterRequest, transport: AdapterRequest, s: State,
                                    steps: seq<Step>, t: State, extension: string, nonce: string)
    requires transport.previous != Some(Null)
    requires Inv(s) && Keeps(s, base.requestId, RunningHop(base, transport)) && Reaches(s, steps, t)
    requires |s.history| <= |t.history|
    requires forall e :: e in t.history[|s.history|..] ==> SaysHopUnfinished(env, base, transport, e)
    ensures Keeps(t, base.requestId, RunningHop(base, transport))
    ensures forall e :: e in t.history[|s.history|..] ==> LooksAtHopOnly(env, base, transport, e, extension, nonce)
  {
    var id, kind := base.requestId, RunningHop(base, transport);
    forall e | e in t.history[|s.history|..] ensures AnswersAre(e, id, kind) {
      assert SaysHopUnfinished(env, base, transport, e);
      if AnswersFor(e, id) {
        var output :| HopUnfinished(env, base, transport, output)
                      && FromTransport(env, base, transport, output) == Success(e.response);
        HopAnswerIsRunning(env, base, transport, output);
      }
    }
    KindIsHandedOn(s, steps, t, id, kind);
    forall e | e in t.history[|s.history|..] ensures LooksAtHopOnly(env, base, transport, e, extension, nonce) {
      assert LaunchIsHanded(e, id, kind);
      if LaunchOf(e, id) {
        RunningHopIsLookedAt(env, base, transport, e.previous.value, extension, nonce);
      }
    }
  }

  /** The answers that hold this hop, whatever of the transport's own answers it packs. */
  function Holding(base: AdapterRequest, transport: AdapterRequest): AdapterResponse -> bool {
    (r: AdapterResponse) =>
      var hop := ReadPendingTransport(Some(EncodeResponse(r)), base.requestId);
      hop.Success? && hop.value.Some? && hop.value.value.request == transport
  }

  ghost predicate SaysHopStays(env: Env, base: AdapterRequest, transport: AdapterRequest, e: Event) {
    AnswersFor(e, base.requestId) ==>
      exists output :: HopStays(env, base, transport, output)
                       && FromTransport(env, base, transport, output) == Success(e.response)
  }

  /** The transport request a call that was handed this goes out with. */
  function Resent(env: Env, base: AdapterRequest, previous: AdapterResponse, extension: string, nonce: string)
    : Result<Sent, InvokeError>
  {
    var retry := RetryOf(base, previous);
    match TransportOf(env, retry, extension, nonce)
    case Failure(error) => Failure(error)
    case Success(transport) => Success(SentOnTransport(retry, transport, nonce))
  }

  predicate CarriesHop(env: Env, base: AdapterRequest, transport: AdapterRequest, e: Event, extension: string,
                       nonce: string)
  {
    LaunchOf(e, base.requestId) ==>
      && e.previous.Some?
      && Resent(env, base, e.previous.value, extension, nonce).Success?
      && Resent(env, base, e.previous.value, extension, nonce).value.request == transport
  }

  lemma HopAnswerHolds(env: Env, base: AdapterRequest, transport: AdapterRequest, output: Option<ExecutionOutput>)
    requires transport.previous != Some(Null)
    requires HopStays(env, base, transport, output) && FromTransport(env, base, transport, output).Success?
    ensures Holding(base, transport)(FromTransport(env, base, transport, output).value)
  {
    var answered := ControllerAnswer(env, transport, output).value;
    PackUnpack(answered, base, transport);
  }

  /** In every run of the store, while the hop stays on record every call goes out with the identical request. */
  lemma HopIsResentInEveryRun(env: Env, base: AdapterRequest, transport: AdapterRequest, s: State, steps: seq<Step>,
                              t: State, extension: string, nonce: string)
    requires transport.previous != Some(Null)
    requires Inv(s) && Keeps(s, base.requestId, Holding(base, transport)) && Reaches(s, steps, t)
    requires |s.history| <= |t.history|
    requires forall e :: e in t.history[|s.history|..] ==> SaysHopStays(env, base, transport, e)
    ensures Keeps(t, base.requestId, Holding(base, transport))
    ensures forall e :: e in t.history[|s.history|..] ==> CarriesHop(env, base, transport, e, extension, nonce)
  {
    var id, kind := base.requestId, Holding(base, transport);
    forall e | e in t.history[|s.history|..] ensures AnswersAre(e, id, kind) {
      assert SaysHopStays(env, base, transport, e);
      if AnswersFor(e, id) {
        var output :| HopStays(env, base, transport, output)
                      && FromTransport(env, base, transport, output) == Success(e.response);
        HopAnswerHolds(env, base, transport, output);
      }
    }
    KindIsHandedOn(s, steps, t, id, kind);
    forall e | e in t.history[|s.history|..] ensures CarriesHop(env, base, transport, e, extension, nonce) {
      assert LaunchIsHanded(e, id, kind);
    }
  }
}
