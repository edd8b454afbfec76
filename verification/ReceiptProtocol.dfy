/** Any number of callers running receipt calls at once, each of them free to crash between any two steps. */
module ReceiptProtocol {
  import opened Wrappers
  import opened Protocol
  import opened Receipts

  datatype Stage =
    | Waiting
    | Holding
    | Marking(record: Option<ReceiptRecord>)
    | Launching(record: Option<ReceiptRecord>)
    | Awaiting(record: Option<ReceiptRecord>)
    | Recording(answer: AdapterResponse)

  datatype Caller = Caller(call: Call, stage: Stage)

  datatype Event =
    | Launched(caller: nat, call: Call, previous: Option<AdapterResponse>)
    | Answered(caller: nat, call: Call, response: AdapterResponse)
    | Returned(caller: nat, call: Call, outcome: Outcome)

  datatype State = State(files: Files, locks: map<string, nat>, callers: map<nat, Caller>, history: seq<Event>)

  datatype Step =
    | Begin(c: nat, call: Call)
    | Acquire(c: nat)
    | Read(c: nat, readable: bool)
    | Mark(c: nat, write: Write)
    | CallAdapter(c: nat)
    | Answer(c: nat, outcome: Outcome)
    | Save(c: nat, write: Write)
    | Crash(c: nat)

  const INIT := State(map[], map[], map[], [])

  predicate Enabled(s: State, step: Step) {
    if step.Begin? then step.c !in s.callers
    else
      && step.c in s.callers
      && var caller := s.callers[step.c];
      match step
      case Acquire(_) => caller.stage.Waiting? && caller.call.requestId !in s.locks
      case Read(_, _) => caller.stage.Holding?
      case Mark(_, _) => caller.stage.Marking?
      case CallAdapter(_) => caller.stage.Launching?
      case Answer(_, _) => caller.stage.Awaiting?
      case Save(_, _) => caller.stage.Recording?
      case Crash(_) => true
  }

  function Enter(s: State, c: nat, stage: Stage): State
    requires c in s.callers
  {
    s.(callers := s.callers[c := s.callers[c].(stage := stage)])
  }

  function Leave(s: State, c: nat): State
    requires c in s.callers
  {
    s.(callers := s.callers - {c},
       locks := if s.callers[c].stage.Waiting? then s.locks else s.locks - {s.callers[c].call.requestId})
  }

  function Stored(s: State, record: ReceiptRecord, write: Write): State {
    s.(files := Put(s.files, record, write))
  }

  /** The files, locks and callers after a step. */
  function Moved(s: State, step: Step): State
    requires Enabled(s, step)
  {
    if step.Begin? then s.(callers := s.callers[step.c := Caller(step.call, Waiting)])
    else
      var c := step.c;
      var call := s.callers[c].call;
      match step
      case Acquire(_) => Enter(s, c, Holding).(locks := s.locks[call.requestId := c])
      case Read(_, readable) =>
        if readable && Decide(s.files, call).Invoke? then Enter(s, c, Marking(Decide(s.files, call).record))
        else Leave(s, c)
      case Mark(_, write) =>
        var record := s.callers[c].stage.record;
        var marked := Stored(s, Record(call, Started, Carried(record)), write);
        if write.Done? then Enter(marked, c, Launching(record)) else Leave(marked, c)
      case CallAdapter(_) => Enter(s, c, Awaiting(s.callers[c].stage.record))
      case Answer(_, outcome) => if outcome.Success? then Enter(s, c, Recording(outcome.value)) else Leave(s, c)
      case Save(_, write) => Leave(Stored(s, Record(call, Response, Some(s.callers[c].stage.answer)), write), c)
      case Crash(_) => Leave(s, c)
  }

  /** What the outside sees of a step. */
  function Emitted(s: State, step: Step): seq<Event>
    requires Enabled(s, step)
  {
    if step.Begin? then []
    else
      var c := step.c;
      var call := s.callers[c].call;
      match step
      case Read(_, readable) =>
        if !readable then [Returned(c, call, Failure(Io))]
        else (
          match Decide(s.files, call)
          case Refuse(error) => [Returned(c, call, Failure(error))]
          case Replay(response) => [Returned(c, call, Success(response))]
          case Invoke(_) => []
        )
      case Mark(_, write) => if write.Done? then [] else [Returned(c, call, Failure(Io))]
      case CallAdapter(_) => [Launched(c, call, Carried(s.callers[c].stage.record))]
      case Answer(_, outcome) =>
        if outcome.Success? then [Answered(c, call, outcome.value)] else [Returned(c, call, outcome)]
      case Save(_, write) =>
        [Returned(c, call, if write.Done? then Success(s.callers[c].stage.answer) else Failure(Io))]
      case _ => []
  }

  function Do(s: State, step: Step): State
    requires Enabled(s, step)
  {
    Moved(s, step).(history := s.history + Emitted(s, step))
  }

  /** `t` is reached from `s` by exactly these steps. */
  predicate Reaches(s: State, steps: seq<Step>, t: State)
    decreases |steps|
  {
    if steps == [] then s == t else Enabled(s, steps[0]) && Reaches(Do(s, steps[0]), steps[1..], t)
  }

  /** How often the adapter was called for `id` with nothing to go on. */
  function BlindLaunches(history: seq<Event>, id: string): nat {
    if history == [] then 0
    else
      var e := history[|history| - 1];
      BlindLaunches(history[..|history| - 1], id)
      + if e.Launched? && e.call.requestId == id && e.previous.None? then 1 else 0
  }

  predicate Unsettled(response: Option<AdapterResponse>) {
    response.Some? ==> !response.value.Complete()
  }

  /** What the files hold while `c` is at its stage. */
  predicate CallerOk(s: State, c: nat)
    requires c in s.callers
  {
    var call := s.callers[c].call;
    && (s.callers[c].stage.Waiting? || (call.requestId in s.locks && s.locks[call.requestId] == c))
    && match s.callers[c].stage
       case Marking(record) => Decide(s.files, call) == Decision.Invoke(record)
       case Launching(record) =>
         call.requestId in s.files && s.files[call.requestId] == Record(call, Started, Carried(record))
         && Unsettled(Carried(record))
         && (Carried(record).None? ==> BlindLaunches(s.history, call.requestId) == 0)
       case Awaiting(record) =>
         call.requestId in s.files && s.files[call.requestId] == Record(call, Started, Carried(record))
         && Unsettled(Carried(record))
       case Recording(answer) =>
         call.requestId in s.files && s.files[call.requestId].fingerprint == call.fingerprint
         && Unsettled(s.files[call.requestId].response)
       case _ => true
  }

  predicate LockOk(s: State, id: string)
    requires id in s.locks
  {
    var c := s.locks[id];
    c in s.callers && s.callers[c].call.requestId == id && !s.callers[c].stage.Waiting?
  }

  predicate EventOk(s: State, e: Event) {
    e.Launched? || e.Answered? ==>
      e.call.requestId in s.files && s.files[e.call.requestId].fingerprint == e.call.fingerprint
  }

  predicate BlindOk(s: State, id: string) {
    BlindLaunches(s.history, id) <= if id in s.files then 1 else 0
  }

  ghost predicate Inv(s: State) {
    && (forall c :: c in s.callers ==> CallerOk(s, c))
    && (forall id :: id in s.locks ==> LockOk(s, id))
    && (forall e :: e in s.history ==> EventOk(s, e))
    && (forall id :: BlindOk(s, id))
  }

  /** The newest event settles how the count moves. */
  lemma BlindLaunchesExtend(history: seq<Event>, e: Event, id: string)
    ensures BlindLaunches(history + [e], id)
         == BlindLaunches(history, id) + if e.Launched? && e.call.requestId == id && e.previous.None? then 1 else 0
  {
    assert (history + [e])[..|history|] == history;
  }

  lemma StepKeepsCounts(s: State, step: Step, id: string)
    requires Enabled(s, step)
    ensures BlindLaunches(Do(s, step).history, id) == BlindLaunches(s.history, id)
            + if step.CallAdapter? && s.callers[step.c].call.requestId == id
                 && Carried(s.callers[step.c].stage.record).None? then 1 else 0
  {
    var emitted := Emitted(s, step);
    if emitted == [] {
      assert s.history + emitted == s.history;
    } else {
      BlindLaunchesExtend(s.history, emitted[0], id);
    }
  }

  /** A step touches the receipt and the lock of its own request id only. */
  lemma OthersUntouched(s: State, step: Step, id: string)
    requires Enabled(s, step)
    requires step.Begin? || s.callers[step.c].call.requestId != id
    ensures id in s.files <==> id in Do(s, step).files
    ensures id in s.files ==> Do(s, step).files[id] == s.files[id]
    ensures id in s.locks <==> id in Do(s, step).locks
    ensures id in s.locks ==> Do(s, step).locks[id] == s.locks[id]
  {
  }

  lemma StepKeepsMover(s: State, step: Step)
    requires Inv(s) && Enabled(s, step) && step.c in Do(s, step).callers
    ensures CallerOk(Do(s, step), step.c)
  {
    if !step.Begin? {
      var id := s.callers[step.c].call.requestId;
      StepKeepsCounts(s, step, id);
      assert CallerOk(s, step.c);
      assert BlindOk(s, id);
    }
  }

  /** Two callers of one receipt: at most one of them is past waiting. */
  lemma OneHolder(s: State, c: nat, other: nat)
    requires Inv(s) && c in s.callers && other in s.callers && c != other
    requires s.callers[c].call.requestId == s.callers[other].call.requestId
    ensures s.callers[c].stage.Waiting? || s.callers[other].stage.Waiting?
  {
    assert CallerOk(s, c);
    assert CallerOk(s, other);
  }

  /** Same receipt and same lock, as far as `id` is concerned. */
  predicate SameView(s: State, t: State, id: string) {
    && (id in s.files <==> id in t.files)
    && (id in s.files ==> t.files[id] == s.files[id])
    && (id in s.locks <==> id in t.locks)
    && (id in s.locks ==> t.locks[id] == s.locks[id])
    && BlindLaunches(t.history, id) == BlindLaunches(s.history, id)
  }

  lemma OthersStand(s: State, step: Step, c: nat)
    requires Enabled(s, step) && c in Do(s, step).callers && c != step.c
    ensures c in s.callers && Do(s, step).callers[c] == s.callers[c]
  {
  }

  lemma CallerOkTransfers(s: State, t: State, c: nat)
    requires c in s.callers && c in t.callers && t.callers[c] == s.callers[c]
    requires SameView(s, t, s.callers[c].call.requestId) && CallerOk(s, c)
    ensures CallerOk(t, c)
  {
  }

  lemma OthersSameView(s: State, step: Step, c: nat)
    requires Inv(s) && Enabled(s, step) && c in s.callers && c != step.c && !s.callers[c].stage.Waiting?
    ensures SameView(s, Do(s, step), s.callers[c].call.requestId)
  {
    var id := s.callers[c].call.requestId;
    if step.Begin? || s.callers[step.c].call.requestId != id {
      OthersUntouched(s, step, id);
      StepKeepsCounts(s, step, id);
    } else {
      OneHolder(s, c, step.c);
      assert CallerOk(s, c);
      assert step.Crash?;
      assert Do(s, step).history == s.history;
    }
  }

  lemma StepKeepsFingerprints(s: State, step: Step, id: string)
    requires Inv(s) && Enabled(s, step) && id in s.files
    ensures id in Do(s, step).files && Do(s, step).files[id].fingerprint == s.files[id].fingerprint
    ensures s.files[id].response.Some? ==> Do(s, step).files[id].response.Some?
    ensures !step.Save? ==> Do(s, step).files[id].response == s.files[id].response
  {
    if !step.Begin? {
      assert CallerOk(s, step.c);
    }
  }

  lemma StepKeepsLock(s: State, step: Step, id: string)
    requires Inv(s) && Enabled(s, step) && id in Do(s, step).locks
    ensures LockOk(Do(s, step), id)
  {
    if step.Begin? || s.callers[step.c].call.requestId != id {
      OthersUntouched(s, step, id);
      assert LockOk(s, id);
    } else {
      assert CallerOk(s, step.c);
      if id in s.locks {
        assert LockOk(s, id);
      }
    }
  }

  lemma StepKeepsEvent(s: State, step: Step, e: Event)
    requires Inv(s) && Enabled(s, step) && e in Do(s, step).history
    ensures EventOk(Do(s, step), e)
  {
    if e in s.history {
      assert EventOk(s, e);
      if e.call.requestId in s.files {
        StepKeepsFingerprints(s, step, e.call.requestId);
      }
    } else {
      assert CallerOk(s, step.c);
    }
  }

  lemma StepKeepsBlind(s: State, step: Step, id: string)
    requires Inv(s) && Enabled(s, step)
    ensures BlindOk(Do(s, step), id)
  {
    StepKeepsCounts(s, step, id);
    assert BlindOk(s, id);
    if id in s.files {
      StepKeepsFingerprints(s, step, id);
    }
    if step.CallAdapter? {
      assert CallerOk(s, step.c);
    }
  }

  lemma StepKeepsInv(s: State, step: Step)
    requires Inv(s) && Enabled(s, step)
    ensures Inv(Do(s, step))
  {
    var t := Do(s, step);
    forall c | c in t.callers ensures CallerOk(t, c) {
      if c == step.c {
        StepKeepsMover(s, step);
      } else {
        OthersStand(s, step, c);
        if !s.callers[c].stage.Waiting? {
          OthersSameView(s, step, c);
          CallerOkTransfers(s, t, c);
        }
      }
    }
    forall id | id in t.locks ensures LockOk(t, id) {
      StepKeepsLock(s, step, id);
    }
    forall e | e in t.history ensures EventOk(t, e) {
      StepKeepsEvent(s, step, e);
    }
    forall id ensures BlindOk(t, id) {
      StepKeepsBlind(s, step, id);
    }
  }

  lemma {:induction false} RunKeepsInv(s: State, steps: seq<Step>, t: State)
    requires Inv(s) && Reaches(s, steps, t)
    ensures Inv(t)
    ensures |s.history| <= |t.history| && t.history[..|s.history|] == s.history
    decreases |steps|
  {
    if steps != [] {
      StepKeepsInv(s, steps[0]);
      RunKeepsInv(Do(s, steps[0]), steps[1..], t);
      var middle := Do(s, steps[0]).history;
      assert t.history[..|middle|][..|s.history|] == t.history[..|s.history|];
    }
  }

  lemma InitInv()
    ensures Inv(INIT)
  {
  }

  /** At most one blind launch per request id, whatever crashes and retries happen. */
  lemma AtMostOneBlindLaunch(steps: seq<Step>, t: State, id: string)
    requires Reaches(INIT, steps, t)
    ensures BlindLaunches(t.history, id) <= 1
  {
    InitInv();
    RunKeepsInv(INIT, steps, t);
    assert BlindOk(t, id);
  }

  predicate Settled(s: State, id: string) {
    id in s.files && !Unsettled(s.files[id].response)
  }

  /** After `record` is settled: no launch, and every call under its fingerprint is answered with it. */
  predicate Honours(e: Event, id: string, record: ReceiptRecord)
    requires !Unsettled(record.response)
  {
    e.call.requestId == id ==>
      && e.Returned?
      && (e.outcome == Failure(Io)
          || e.outcome == if e.call.fingerprint == record.fingerprint then Success(record.response.value)
                          else Failure(BoundToDifferentOperation))
  }

  lemma SettledStep(s: State, step: Step, id: string)
    requires Inv(s) && Enabled(s, step) && Settled(s, id)
    ensures Settled(Do(s, step), id) && Do(s, step).files[id] == s.files[id]
    ensures forall e :: e in Emitted(s, step) ==> Honours(e, id, s.files[id])
  {
    if step.Begin? || s.callers[step.c].call.requestId != id {
      OthersUntouched(s, step, id);
    } else {
      assert CallerOk(s, step.c);
    }
  }

  lemma NewEvents(s: State, step: Step, t: State)
    requires Enabled(s, step)
    requires |Do(s, step).history| <= |t.history| && t.history[..|Do(s, step).history|] == Do(s, step).history
    ensures t.history[|s.history|..] == Emitted(s, step) + t.history[|Do(s, step).history|..]
  {
    var middle := Do(s, step).history;
    assert t.history == middle + t.history[|middle|..];
  }

  lemma {:induction false} SettledRun(s: State, steps: seq<Step>, t: State, id: string)
    requires Inv(s) && Reaches(s, steps, t) && Settled(s, id)
    ensures Settled(t, id) && t.files[id] == s.files[id]
    ensures |s.history| <= |t.history|
    ensures forall e :: e in t.history[|s.history|..] ==> Honours(e, id, s.files[id])
    decreases |steps|
  {
    if steps != [] {
      var next := Do(s, steps[0]);
      SettledStep(s, steps[0], id);
      StepKeepsInv(s, steps[0]);
      SettledRun(next, steps[1..], t, id);
      RunKeepsInv(next, steps[1..], t);
      NewEvents(s, steps[0], t);
    }
  }

  /** Once a complete response is recorded, it stays, no adapter call follows and every later call replays it. */
  lemma CompleteIsReplayedForever(before: seq<Step>, s: State, after: seq<Step>, t: State, id: string)
    requires Reaches(INIT, before, s) && Reaches(s, after, t)
    requires Settled(s, id)
    ensures Settled(t, id) && t.files[id] == s.files[id]
    ensures |s.history| <= |t.history| && t.history[..|s.history|] == s.history
    ensures forall e :: e in t.history[|s.history|..] ==> Honours(e, id, s.files[id])
  {
    InitInv();
    RunKeepsInv(INIT, before, s);
    RunKeepsInv(s, after, t);
    SettledRun(s, after, t, id);
  }

  predicate AnswersFor(e: Event, id: string) {
    e.Answered? && e.call.requestId == id
  }

  ghost predicate HasAnswerInHand(s: State, id: string) {
    exists c :: c in s.callers && s.callers[c].call.requestId == id && s.callers[c].stage.Recording?
  }

  /**
   * A receipt never disappears, changes owner or loses its response; and unless the adapter answers again,
   * failed and crashed retries leave the response exactly as it was.
   */
  lemma {:induction false} NothingRecordedIsLost(s: State, steps: seq<Step>, t: State, id: string)
    requires Inv(s) && Reaches(s, steps, t) && id in s.files
    ensures id in t.files && t.files[id].fingerprint == s.files[id].fingerprint
    ensures s.files[id].response.Some? ==> t.files[id].response.Some?
    ensures |s.history| <= |t.history|
    ensures !HasAnswerInHand(s, id) && (forall e :: e in t.history[|s.history|..] ==> !AnswersFor(e, id)) ==>
              t.files[id].response == s.files[id].response && !HasAnswerInHand(t, id)
    decreases |steps|
  {
    if steps != [] {
      var step, next := steps[0], Do(s, steps[0]);
      StepKeepsFingerprints(s, step, id);
      StepKeepsInv(s, step);
      NothingRecordedIsLost(next, steps[1..], t, id);
      RunKeepsInv(next, steps[1..], t);
      NewEvents(s, step, t);
      if !HasAnswerInHand(s, id) && forall e :: e in t.history[|s.history|..] ==> !AnswersFor(e, id) {
        assert forall e :: e in Emitted(s, step) ==> e in t.history[|s.history|..];
        NoAnswerStep(s, step, id);
      }
    }
  }

  lemma NoAnswerStep(s: State, step: Step, id: string)
    requires Inv(s) && Enabled(s, step) && id in s.files && !HasAnswerInHand(s, id)
    requires forall e :: e in Emitted(s, step) ==> !AnswersFor(e, id)
    ensures !HasAnswerInHand(Do(s, step), id)
    ensures id in Do(s, step).files && Do(s, step).files[id].response == s.files[id].response
  {
    if step.Begin? || s.callers[step.c].call.requestId != id {
      OthersUntouched(s, step, id);
    } else {
      assert !s.callers[step.c].stage.Recording?;
      StepKeepsFingerprints(s, step, id);
      var emitted := Emitted(s, step);
      assert emitted != [] ==> !AnswersFor(emitted[0], id);
    }
    forall c | c in Do(s, step).callers && Do(s, step).callers[c].call.requestId == id
      ensures !Do(s, step).callers[c].stage.Recording?
    {
      if c in s.callers && c != step.c {
        assert Do(s, step).callers[c] == s.callers[c];
      }
    }
  }

  /** A call under another fingerprint gets no further than its read. */
  predicate Refused(s: State, c: nat, id: string) {
    c in s.callers && s.callers[c].call.requestId == id && id in s.files
    && s.callers[c].call.fingerprint != s.files[id].fingerprint
  }

  lemma MismatchNeitherWritesNorLaunches(s: State, step: Step, id: string)
    requires Inv(s) && Enabled(s, step) && !step.Begin? && Refused(s, step.c, id)
    ensures Do(s, step).files == s.files
    ensures step.Read? ==> Emitted(s, step) in {[Returned(step.c, s.callers[step.c].call, Failure(Io))],
                                               [Returned(step.c, s.callers[step.c].call,
                                                         Failure(BoundToDifferentOperation))]}
    ensures step.Acquire? || step.Read? || step.Crash?
    ensures !step.Read? ==> Emitted(s, step) == []
  {
    assert CallerOk(s, step.c);
  }

  /** No caller is past its decision on `id`. */
  ghost predicate Quiet(s: State, id: string) {
    forall c :: c in s.callers && s.callers[c].call.requestId == id ==>
      s.callers[c].stage.Waiting? || s.callers[c].stage.Holding?
  }

  /** A receipt no retry may go on from: a bare marker, or a pending answer that names no execution. */
  predicate DeadEnd(record: ReceiptRecord) {
    PendingPrevious(Some(record)).Failure?
  }

  /** The event tells a caller off, for this receipt or for reasons of its own. */
  predicate TurnedAway(e: Event, record: ReceiptRecord)
    requires DeadEnd(record)
  {
    && e.Returned?
    && e.outcome in {Failure(Io), Failure(BoundToDifferentOperation), Failure(PendingPrevious(Some(record)).error)}
  }

  /** The crash signal, and every other dead end: from then on each call is refused and the receipt stays as it is. */
  lemma {:induction false} DeadEndIsRefusedForever(s: State, steps: seq<Step>, t: State, id: string)
    requires Inv(s) && Reaches(s, steps, t)
    requires id in s.files && DeadEnd(s.files[id]) && Quiet(s, id)
    ensures id in t.files && t.files[id] == s.files[id] && Quiet(t, id)
    ensures |s.history| <= |t.history|
    ensures forall e :: e in t.history[|s.history|..] && e.call.requestId == id ==> TurnedAway(e, s.files[id])
    decreases |steps|
  {
    if steps != [] {
      var step, next := steps[0], Do(s, steps[0]);
      QuietStep(s, step, id);
      StepKeepsInv(s, step);
      DeadEndIsRefusedForever(next, steps[1..], t, id);
      RunKeepsInv(next, steps[1..], t);
      NewEvents(s, step, t);
    }
  }

  lemma QuietStep(s: State, step: Step, id: string)
    requires Inv(s) && Enabled(s, step)
    requires id in s.files && DeadEnd(s.files[id]) && Quiet(s, id)
    ensures Quiet(Do(s, step), id)
    ensures id in Do(s, step).files && Do(s, step).files[id] == s.files[id]
    ensures forall e :: e in Emitted(s, step) && e.call.requestId == id ==> TurnedAway(e, s.files[id])
  {
    if step.Begin? || s.callers[step.c].call.requestId != id {
      OthersUntouched(s, step, id);
    }
    forall c | c in Do(s, step).callers && Do(s, step).callers[c].call.requestId == id
      ensures Do(s, step).callers[c].stage.Waiting? || Do(s, step).callers[c].stage.Holding?
    {
      if c in s.callers && c != step.c {
        assert Do(s, step).callers[c] == s.callers[c];
      }
    }
  }

  /** The adapter really gave this response to a call of this request id. */
  predicate WasAnswered(history: seq<Event>, id: string, response: AdapterResponse) {
    exists e :: e in history && AnswersFor(e, id) && e.response == response
  }

  predicate CallerSourced(s: State, c: nat)
    requires c in s.callers
  {
    s.callers[c].stage.Recording? ==> WasAnswered(s.history, s.callers[c].call.requestId, s.callers[c].stage.answer)
  }

  predicate RecordSourced(s: State, id: string)
    requires id in s.files
  {
    s.files[id].response.Some? ==> WasAnswered(s.history, id, s.files[id].response.value)
  }

  predicate ReturnSourced(s: State, e: Event) {
    e.Returned? && e.outcome.Success? ==> WasAnswered(s.history, e.call.requestId, e.outcome.value)
  }

  ghost predicate Sourced(s: State) {
    && (forall c :: c in s.callers ==> CallerSourced(s, c))
    && (forall id :: id in s.files ==> RecordSourced(s, id))
    && (forall e :: e in s.history ==> ReturnSourced(s, e))
  }

  lemma WasAnsweredGrows(history: seq<Event>, more: seq<Event>, id: string, response: AdapterResponse)
    requires WasAnswered(history, id, response)
    ensures WasAnswered(history + more, id, response)
  {
    var e :| e in history && AnswersFor(e, id) && e.response == response;
    assert e in history + more;
  }

  lemma CallerStaysSourced(s: State, step: Step, c: nat)
    requires Sourced(s) && Enabled(s, step) && c in Do(s, step).callers
    ensures CallerSourced(Do(s, step), c)
  {
    var t := Do(s, step);
    if t.callers[c].stage.Recording? {
      var id, answer := t.callers[c].call.requestId, t.callers[c].stage.answer;
      if c == step.c {
        var e := Answered(c, t.callers[c].call, answer);
        assert Emitted(s, step) == [e];
        assert e in t.history;
      } else {
        assert CallerSourced(s, c);
        WasAnsweredGrows(s.history, Emitted(s, step), id, answer);
      }
    }
  }

  lemma RecordStaysSourced(s: State, step: Step, id: string)
    requires Inv(s) && Sourced(s) && Enabled(s, step) && id in Do(s, step).files
    ensures RecordSourced(Do(s, step), id)
  {
    var t := Do(s, step);
    if t.files[id].response.Some? {
      var response := t.files[id].response.value;
      if id in s.files && s.files[id].response == t.files[id].response {
        assert RecordSourced(s, id);
      } else {
        assert !step.Begin?;
        assert CallerOk(s, step.c);
        assert CallerSourced(s, step.c);
      }
      WasAnsweredGrows(s.history, Emitted(s, step), id, response);
    }
  }

  lemma ReturnStaysSourced(s: State, step: Step, e: Event)
    requires Sourced(s) && Enabled(s, step) && e in Do(s, step).history
    ensures ReturnSourced(Do(s, step), e)
  {
    if e.Returned? && e.outcome.Success? {
      if e in s.history {
        assert ReturnSourced(s, e);
      } else {
        assert e in Emitted(s, step);
        assert CallerSourced(s, step.c);
        if step.Read? {
          assert RecordSourced(s, s.callers[step.c].call.requestId);
        }
      }
      WasAnsweredGrows(s.history, Emitted(s, step), e.call.requestId, e.outcome.value);
    }
  }

  lemma StepStaysSourced(s: State, step: Step)
    requires Inv(s) && Sourced(s) && Enabled(s, step)
    ensures Sourced(Do(s, step))
  {
    var next := Do(s, step);
    forall c | c in next.callers ensures CallerSourced(next, c) {
      CallerStaysSourced(s, step, c);
    }
    forall id | id in next.files ensures RecordSourced(next, id) {
      RecordStaysSourced(s, step, id);
    }
    forall e | e in next.history ensures ReturnSourced(next, e) {
      ReturnStaysSourced(s, step, e);
    }
  }

  lemma {:induction false} RunStaysSourced(s: State, steps: seq<Step>, t: State)
    requires Inv(s) && Sourced(s) && Reaches(s, steps, t)
    ensures Sourced(t)
    decreases |steps|
  {
    if steps != [] {
      StepStaysSourced(s, steps[0]);
      StepKeepsInv(s, steps[0]);
      RunStaysSourced(Do(s, steps[0]), steps[1..], t);
    }
  }

  /**
   * Every response on record, and every success a caller was given, is an answer the adapter gave to that request id.
   */
  lemma EveryResponseCameFromTheAdapter(steps: seq<Step>, t: State, id: string)
    requires Reaches(INIT, steps, t)
    ensures id in t.files && t.files[id].response.Some? ==> WasAnswered(t.history, id, t.files[id].response.value)
    ensures forall e :: e in t.history && e.Returned? && e.outcome.Success? ==>
              WasAnswered(t.history, e.call.requestId, e.outcome.value)
  {
    InitInv();
    RunStaysSourced(INIT, steps, t);
    if id in t.files {
      assert RecordSourced(t, id);
    }
    forall e | e in t.history && e.Returned? && e.outcome.Success?
      ensures WasAnswered(t.history, e.call.requestId, e.outcome.value)
    {
      assert ReturnSourced(t, e);
    }
  }

  /** What a call that may go ahead does after its read. */
  function MarkedSteps(c: nat, answer: Outcome, disk: Disk): seq<Step> {
    [Mark(c, disk.mark)]
    + if !disk.mark.Done? then []
      else [CallAdapter(c), Answer(c, answer)] + if answer.Success? then [Save(c, disk.save)] else []
  }

  /** A call that nobody crashes, from start to finish. */
  function SoloSteps(files: Files, c: nat, call: Call, invoke: Option<AdapterResponse> -> Outcome,
                     disk: Disk): seq<Step>
  {
    [Begin(c, call), Acquire(c), Read(c, disk.readable)]
    + if Marks(files, call, disk) then MarkedSteps(c, invoke(Carried(Decide(files, call).record)), disk) else []
  }

  lemma {:induction false} Reaches2(s: State, first: seq<Step>, m: State, second: seq<Step>, t: State)
    requires Reaches(s, first, m) && Reaches(m, second, t)
    ensures Reaches(s, first + second, t)
    decreases |first|
  {
    if first == [] {
      assert first + second == second;
    } else {
      assert (first + second)[1..] == first[1..] + second;
      Reaches2(Do(s, first[0]), first[1..], m, second, t);
    }
  }

  lemma ReachesOne(s: State, step: Step)
    requires Enabled(s, step)
    ensures Reaches(s, [step], Do(s, step))
  {
    assert [step][1..] == [];
  }

  /** Launch and answer, once the marker is written. */
  lemma SoloLaunch(s: State, c: nat, record: Option<ReceiptRecord>, outcome: Outcome) returns (t: State)
    requires c in s.callers && s.callers[c].stage == Launching(record)
    ensures Reaches(s, [CallAdapter(c), Answer(c, outcome)], t)
    ensures t.files == s.files
    ensures outcome.Failure? ==>
              && t.callers == s.callers - {c} && t.locks == s.locks - {s.callers[c].call.requestId}
              && EndsWith(t.history, Returned(c, s.callers[c].call, outcome))
    ensures outcome.Success? ==>
              && t.locks == s.locks
              && t.callers == s.callers[c := Caller(s.callers[c].call, Recording(outcome.value))]
  {
    var one := Do(s, CallAdapter(c));
    t := Do(one, Answer(c, outcome));
    ReachesOne(one, Answer(c, outcome));
    assert [CallAdapter(c), Answer(c, outcome)][1..] == [Answer(c, outcome)];
    assert one.callers == s.callers[c := Caller(s.callers[c].call, Awaiting(record))];
    if outcome.Failure? {
      assert t.callers == s.callers - {c};
    } else {
      assert t.callers == s.callers[c := Caller(s.callers[c].call, Recording(outcome.value))];
    }
  }

  lemma ReachesThree(s: State, first: Step, one: State, second: Step, two: State, third: Step)
    requires Enabled(s, first) && one == Do(s, first)
    requires Enabled(one, second) && two == Do(one, second)
    requires Enabled(two, third)
    ensures Reaches(s, [first, second, third], Do(two, third))
  {
    ReachesOne(two, third);
    assert [second, third][1..] == [third];
    assert [first, second, third][1..] == [second, third];
  }

  predicate EndsWith(history: seq<Event>, e: Event) {
    history != [] && history[|history| - 1] == e
  }

  lemma SoloSave(m: State, c: nat, answer: AdapterResponse, write: Write) returns (t: State)
    requires c in m.callers && m.callers[c].stage == Recording(answer)
    ensures Reaches(m, [Save(c, write)], t)
    ensures t.callers == m.callers - {c} && t.locks == m.locks - {m.callers[c].call.requestId}
    ensures t.files == Put(m.files, Record(m.callers[c].call, Response, Some(answer)), write)
    ensures EndsWith(t.history, Returned(c, m.callers[c].call, if write.Done? then Success(answer) else Failure(Io)))
  {
    t := Do(m, Save(c, write));
    ReachesOne(m, Save(c, write));
  }

  lemma SoloMark(m: State, c: nat, record: Option<ReceiptRecord>, write: Write) returns (t: State)
    requires c in m.callers && m.callers[c].stage == Marking(record)
    ensures Reaches(m, [Mark(c, write)], t)
    ensures t.files == Put(m.files, Record(m.callers[c].call, Started, Carried(record)), write)
    ensures write.Done? ==>
              && t.callers == m.callers[c := Caller(m.callers[c].call, Launching(record))] && t.locks == m.locks
              && t.history == m.history
    ensures !write.Done? ==>
              && t.callers == m.callers - {c} && t.locks == m.locks - {m.callers[c].call.requestId}
              && EndsWith(t.history, Returned(c, m.callers[c].call, Failure(Io)))
  {
    t := Do(m, Mark(c, write));
    ReachesOne(m, Mark(c, write));
  }

  /** The state once the caller holds the lock and has read the receipt, or failed to. */
  lemma SoloRead(s: State, c: nat, call: Call, disk: Disk) returns (t: State)
    requires c !in s.callers && call.requestId !in s.locks
    ensures Reaches(s, [Begin(c, call), Acquire(c), Read(c, disk.readable)], t)
    ensures t.files == s.files
    ensures Marks(s.files, call, disk) ==>
              && t.callers == s.callers[c := Caller(call, Marking(Decide(s.files, call).record))]
              && t.locks == s.locks[call.requestId := c] && t.history == s.history
    ensures !Marks(s.files, call, disk) ==>
              && t.callers == s.callers && t.locks == s.locks
              && EndsWith(t.history, Returned(c, call, AppliedUnder(s.files, call, Unused(), disk).1))
  {
    var one := Do(s, Begin(c, call));
    var two := Do(one, Acquire(c));
    t := Do(two, Read(c, disk.readable));
    ReachesThree(s, Begin(c, call), one, Acquire(c), two, Read(c, disk.readable));
    if Marks(s.files, call, disk) {
      assert t.callers == s.callers[c := Caller(call, Marking(Decide(s.files, call).record))];
    } else {
      assert t.callers == s.callers;
      assert t.locks == s.locks;
    }
  }

  /** For calls that are answered without their adapter. */
  function Unused(): Option<AdapterResponse> -> Outcome {
    (recorded: Option<AdapterResponse>) => Failure(Io)
  }

  /** One call alone, ending with `outcome` and `files`, and leaving no lock and no caller behind. */
  ghost predicate Settles(s: State, steps: seq<Step>, t: State, c: nat, call: Call, files: Files, outcome: Outcome) {
    && Reaches(s, steps, t)
    && t.files == files && t.callers == s.callers && t.locks == s.locks
    && EndsWith(t.history, Returned(c, call, outcome))
  }

  /** From a read that lets the call go ahead. */
  lemma SoloMarked(s: State, c: nat, call: Call, read: State, record: Option<ReceiptRecord>, answer: Outcome,
                   disk: Disk)
    returns (t: State)
    requires c !in s.callers && call.requestId !in s.locks && read.files == s.files
    requires read.callers == s.callers[c := Caller(call, Marking(record))] && read.locks == s.locks[call.requestId := c]
    ensures Reaches(read, MarkedSteps(c, answer, disk), t)
    ensures t.callers == s.callers && t.locks == s.locks
    ensures var marked := Put(s.files, Record(call, Started, Carried(record)), disk.mark);
            t.files == if disk.mark.Done? && answer.Success? then
                         Put(marked, Record(call, Response, Some(answer.value)), disk.save)
                       else marked
    ensures EndsWith(t.history, Returned(c, call,
                                         if !disk.mark.Done? || (answer.Success? && !disk.save.Done?) then Failure(Io)
                                         else answer))
  {
    var marked := SoloMark(read, c, record, disk.mark);
    t := marked;
    if disk.mark.Done? {
      t := SoloAnswered(marked, c, record, answer, disk.save);
      Reaches2(read, [Mark(c, disk.mark)], marked,
               [CallAdapter(c), Answer(c, answer)] + if answer.Success? then [Save(c, disk.save)] else [], t);
    } else {
      assert MarkedSteps(c, answer, disk) == [Mark(c, disk.mark)];
    }
    assert t.callers == s.callers;
    assert t.locks == s.locks;
  }

  lemma SoloAnswered(marked: State, c: nat, record: Option<ReceiptRecord>, answer: Outcome, write: Write)
    returns (t: State)
    requires c in marked.callers && marked.callers[c].stage == Launching(record)
    ensures Reaches(marked, [CallAdapter(c), Answer(c, answer)] + if answer.Success? then [Save(c, write)] else [], t)
    ensures t.callers == marked.callers - {c} && t.locks == marked.locks - {marked.callers[c].call.requestId}
    ensures t.files == if answer.Success? then
                         Put(marked.files, Record(marked.callers[c].call, Response, Some(answer.value)), write)
                       else marked.files
    ensures EndsWith(t.history, Returned(c, marked.callers[c].call,
                                         if answer.Success? && !write.Done? then Failure(Io) else answer))
  {
    var m := SoloLaunch(marked, c, record, answer);
    if answer.Failure? {
      t := m;
      assert [CallAdapter(c), Answer(c, answer)] + [] == [CallAdapter(c), Answer(c, answer)];
    } else {
      t := SoloSave(m, c, answer.value, write);
      Reaches2(marked, [CallAdapter(c), Answer(c, answer)], m, [Save(c, write)], t);
      assert t.callers == marked.callers - {c};
    }
  }

  /**
   * The store's own method, whatever its disk does, is one run of the protocol: same receipts, same answer, nothing
   * left behind.
   */
  lemma SoloCall(s: State, c: nat, call: Call, invoke: Option<AdapterResponse> -> Outcome, disk: Disk)
    requires c !in s.callers && call.requestId !in s.locks
    ensures exists t ::
              Settles(s, SoloSteps(s.files, c, call, invoke, disk), t, c, call,
                      AppliedUnder(s.files, call, invoke, disk).0, AppliedUnder(s.files, call, invoke, disk).1)
  {
    var opening := [Begin(c, call), Acquire(c), Read(c, disk.readable)];
    var t := SoloRead(s, c, call, disk);
    if Marks(s.files, call, disk) {
      var record := Decide(s.files, call).record;
      var read, rest := t, MarkedSteps(c, invoke(Carried(record)), disk);
      t := SoloMarked(s, c, call, read, record, invoke(Carried(record)), disk);
      Reaches2(s, opening, read, rest, t);
      assert SoloSteps(s.files, c, call, invoke, disk) == opening + rest;
    } else {
      assert SoloSteps(s.files, c, call, invoke, disk) == opening;
    }
    assert Settles(s, SoloSteps(s.files, c, call, invoke, disk), t, c, call,
                   AppliedUnder(s.files, call, invoke, disk).0, AppliedUnder(s.files, call, invoke, disk).1);
  }
}
