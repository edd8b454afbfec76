/** A run of store, provider and executor in which the provider asks for its `new` twice, and exe.dev gets it once. */
module ExedevRuns {
  import opened Wrappers
  import opened Protocol
  import opened Receipts
  import opened Resume
  import opened KeyedExecutor
  import opened ExedevKeys
  import opened ExedevStore

  lemma {:induction false} JointSnoc(j: Joint, order: Order, steps: seq<JointStep>, m: Joint, step: JointStep)
    requires JointReaches(j, order, steps, m) && JointEnabled(m, order, step)
    ensures JointReaches(j, order, steps + [step], JointDo(m, order, step))
    decreases |steps|
  {
    if steps == [] {
      assert ([] + [step])[1..] == [];
    } else {
      assert (steps + [step])[1..] == steps[1..] + [step];
      JointSnoc(JointDo(j, order, steps[0]), order, steps[1..], m, step);
    }
  }

  /** One more step at the end of a run from nothing. */
  lemma Go(order: Order, steps: seq<JointStep>, m: Joint, step: JointStep) returns (longer: seq<JointStep>, k: Joint)
    requires JointReaches(NOTHING, order, steps, m) && JointEnabled(m, order, step)
    ensures k == JointDo(m, order, step) && JointReaches(NOTHING, order, longer, k)
  {
    longer, k := steps + [step], JointDo(m, order, step);
    JointSnoc(NOTHING, order, steps, m, step);
  }

  /** The calls these `new`s make, all of which come through. */
  function AsksIn(requestId: string, log: seq<P.Event>): seq<Ask<Json>> {
    if log == [] then []
    else
      var last := log[|log| - 1];
      AsksIn(requestId, log[..|log| - 1]) + if last.New? then [Ask(NewKey(requestId, last.spec), true)] else []
  }

  lemma OneMoreAsk(requestId: string, log: seq<P.Event>, e: P.Event)
    ensures AsksIn(requestId, log + [e])
         == AsksIn(requestId, log) + if e.New? then [Ask(NewKey(requestId, e.spec), true)] else []
  {
    assert (log + [e])[..|log|] == log;
  }

  /** A step emits at most two events, and a `new` only as the first. */
  lemma AsksGrow(requestId: string, log: seq<P.Event>, more: seq<P.Event>)
    requires |more| <= 2 && (|more| == 2 ==> !more[1].New?)
    ensures AsksIn(requestId, log + more)
         == AsksIn(requestId, log)
            + if more != [] && more[0].New? then [Ask(NewKey(requestId, more[0].spec), true)] else []
  {
    if more == [] {
      assert log + more == log;
    } else {
      OneMoreAsk(requestId, log, more[0]);
      if |more| == 1 {
        assert log + more == log + [more[0]];
      } else {
        OneMoreAsk(requestId, log + [more[0]], more[1]);
        assert log + more == log + [more[0]] + [more[1]];
      }
    }
  }

  lemma OnlyIssueIsNew(s: P.State, move: P.Step) returns (more: seq<P.Event>)
    requires P.Enabled(s, move)
    ensures more == P.Emitted(s, move) && P.Do(s, move).log == s.log + more
    ensures |more| <= 2 && (|more| == 2 ==> !more[1].New?)
    ensures move.Issue? ==> more != [] && more[0] == P.New(s.pc.spec)
    ensures !move.Issue? && more != [] ==> !more[0].New?
  {
    more := P.Emitted(s, move);
  }

  lemma AsksStep(requestId: string, s: P.State, move: P.Step)
    requires P.Enabled(s, move)
    ensures AsksIn(requestId, P.Do(s, move).log)
         == AsksIn(requestId, s.log) + if move.Issue? then [Ask(NewKey(requestId, s.pc.spec), true)] else []
  {
    var more := OnlyIssueIsNew(s, move);
    AsksGrow(requestId, s.log, more);
  }

  /** Between attempts: nobody calls, and the executor has got what the provider asked. */
  predicate AtRest(j: Joint, order: Order) {
    j.store.callers == map[] && j.store.locks == map[] && j.asks == AsksIn(order.base.requestId, j.provider.log)
  }

  /** The provider goes on by itself. */
  lemma {:induction false} ProviderGoes(order: Order, steps: seq<JointStep>, j: Joint, moves: seq<P.Step>, t: P.State)
    returns (longer: seq<JointStep>, k: Joint)
    requires JointReaches(NOTHING, order, steps, j) && P.Reaches(j.provider, moves, t)
    requires forall i :: 0 <= i < |moves| ==> !moves[i].Start?
    requires j.asks == AsksIn(order.base.requestId, j.provider.log)
    ensures JointReaches(NOTHING, order, longer, k)
    ensures k == Joint(j.store, t, j.due, AsksIn(order.base.requestId, t.log))
    decreases |moves|
  {
    longer, k := steps, j;
    if moves != [] {
      assert !moves[0].Start?;
      AsksStep(order.base.requestId, j.provider, moves[0]);
      longer, k := Go(order, steps, j, Provide(moves[0], true));
      longer, k := ProviderGoes(order, longer, k, moves[1..], t);
    }
  }

  /** The store goes on by itself, up to the next launch or answer. */
  lemma {:induction false} StoreGoes(order: Order, steps: seq<JointStep>, j: Joint, served: seq<R.Step>, t: R.State)
    returns (longer: seq<JointStep>, k: Joint)
    requires JointReaches(NOTHING, order, steps, j) && R.Reaches(j.store, served, t)
    requires forall i :: 0 <= i < |served| ==> !served[i].Answer? && !served[i].CallAdapter?
    ensures JointReaches(NOTHING, order, longer, k) && k == j.(store := t)
    decreases |served|
  {
    longer, k := steps, j;
    if served != [] {
      assert !served[0].Answer? && !served[0].CallAdapter?;
      longer, k := Go(order, steps, j, Store(served[0]));
      longer, k := StoreGoes(order, longer, k, served[1..], t);
    }
  }

  /** The store with one call in it, alone, at this stage. */
  predicate Called(s: R.State, call: Call, stage: R.Stage) {
    s.locks == map[call.requestId := 0] && s.callers == map[0 := R.Caller(call, stage)]
  }

  /** A call gets as far as its marker. */
  lemma CallMarks(order: Order, steps: seq<JointStep>, j: Joint, call: Call, record: Option<ReceiptRecord>)
    returns (longer: seq<JointStep>, k: Joint)
    requires JointReaches(NOTHING, order, steps, j) && AtRest(j, order)
    requires Decide(j.store.files, call) == Decision.Invoke(record)
    ensures JointReaches(NOTHING, order, longer, k) && k == j.(store := k.store)
    ensures Called(k.store, call, R.Launching(record)) && k.store.history == j.store.history
    ensures k.store.files == j.store.files[call.requestId := Record(call, Started, Carried(record))]
  {
    var read := R.SoloRead(j.store, 0, call, SOUND);
    longer, k := StoreGoes(order, steps, j, [R.Begin(0, call), R.Acquire(0), R.Read(0, true)], read);
    var marked := R.SoloMark(k.store, 0, record, Done);
    longer, k := StoreGoes(order, longer, k, [R.Mark(0, Done)], marked);
  }

  lemma LaunchStarts(order: Order, s: R.State, call: Call, record: Option<ReceiptRecord>)
    requires Called(s, call, R.Launching(record)) && call.requestId == order.base.requestId
    requires Carried(record).Some? ==>
               OuterExecutionId(Some(EncodeResponse(Carried(record).value)), call.requestId).None?
    ensures var launched := R.Launched(0, call, Carried(record));
            && R.Enabled(s, R.CallAdapter(0)) && R.Emitted(s, R.CallAdapter(0)) == [launched]
            && Starts(order.base, launched)
            && R.Do(s, R.CallAdapter(0)).files == s.files
            && Called(R.Do(s, R.CallAdapter(0)), call, R.Awaiting(record))
            && Launches(order, R.Do(s, R.CallAdapter(0)).history, order.scripts(call.fingerprint))
  {
    assert R.Launched(0, call, Carried(record)) in R.Do(s, R.CallAdapter(0)).history;
  }

  /** And to its launch. */
  lemma CallGoes(order: Order, steps: seq<JointStep>, j: Joint, call: Call, record: Option<ReceiptRecord>)
    returns (longer: seq<JointStep>, k: Joint)
    requires JointReaches(NOTHING, order, steps, j) && AtRest(j, order) && call.requestId == order.base.requestId
    requires Decide(j.store.files, call) == Decision.Invoke(record)
    requires Carried(record).Some? ==>
               OuterExecutionId(Some(EncodeResponse(Carried(record).value)), call.requestId).None?
    ensures JointReaches(NOTHING, order, longer, k)
    ensures k == j.(due := j.due + 1, store := k.store) && Called(k.store, call, R.Awaiting(record))
    ensures k.store.files == j.store.files[call.requestId := Record(call, Started, Carried(record))]
    ensures Launches(order, k.store.history, order.scripts(call.fingerprint))
  {
    longer, k := CallMarks(order, steps, j, call, record);
    LaunchStarts(order, k.store, call, record);
    longer, k := Go(order, longer, k, Store(R.CallAdapter(0)));
  }

  function HeardAs(heard: Option<AdapterResponse>): Option<AdapterResponse> -> Outcome {
    if heard.Some? then Says(heard.value) else Dies()
  }

  lemma AnswerEnds(s: R.State, call: Call, record: Option<ReceiptRecord>, outcome: Outcome)
    requires Called(s, call, R.Awaiting(record))
    ensures R.Enabled(s, R.Answer(0, outcome))
    ensures var t := R.Do(s, R.Answer(0, outcome));
            && t.files == s.files
            && (outcome.Success? ==> Called(t, call, R.Recording(outcome.value)))
            && (outcome.Failure? ==> t.callers == map[] && t.locks == map[])
    ensures forall e :: e in R.Emitted(s, R.Answer(0, outcome)) ==> !e.Launched?
  {
  }

  /** The call is answered and saves, or its adapter dies. */
  lemma CallEnds(order: Order, steps: seq<JointStep>, j: Joint, call: Call, record: Option<ReceiptRecord>,
                 heard: Option<AdapterResponse>)
    returns (longer: seq<JointStep>, k: Joint)
    requires JointReaches(NOTHING, order, steps, j) && Called(j.store, call, R.Awaiting(record))
    requires heard.Some? ==> Told(j, order.base, heard.value)
    ensures JointReaches(NOTHING, order, longer, k)
    ensures k == j.(store := k.store) && k.store.callers == map[] && k.store.locks == map[]
    ensures k.store.files
         == if heard.Some? then j.store.files[call.requestId := Record(call, Response, heard)] else j.store.files
  {
    var outcome := HeardAs(heard)(None);
    AnswerEnds(j.store, call, record, outcome);
    longer, k := Go(order, steps, j, Store(R.Answer(0, outcome)));
    if heard.Some? {
      var saved := R.SoloSave(k.store, 0, heard.value, Done);
      longer, k := StoreGoes(order, longer, k, [R.Save(0, Done)], saved);
    }
  }

  lemma HeardIsApplied(files: Files, call: Call, heard: Option<AdapterResponse>)
    requires Decide(files, call).Invoke?
    ensures var marked := files[call.requestId := Record(call, Started, Carried(Decide(files, call).record))];
            Applied(files, call, HeardAs(heard)).0
            == if heard.Some? then marked[call.requestId := Record(call, Response, heard)] else marked
  {
  }

  /** The moves of one attempt for this spec. */
  predicate TakesUp(moves: seq<P.Step>, spec: P.Spec) {
    moves != [] && moves[0] == P.Start(spec) && forall i :: 1 <= i < |moves| ==> !moves[i].Start?
  }

  predicate HasReplied(log: seq<P.Event>, response: AdapterResponse) {
    response.executionId.None? && exists e :: e in log && e.Replied? && e.answer.status == response.status
  }

  /** The record lets the store start an attempt of this call. */
  predicate MayStart(files: Files, call: Call) {
    && Decide(files, call).Invoke?
    && var carried := Carried(Decide(files, call).record);
       carried.Some? ==> OuterExecutionId(Some(EncodeResponse(carried.value)), call.requestId).None?
  }

  /** One whole attempt: the store hands it on, the provider makes these moves, the store hears this of it. */
  lemma AttemptGoes(order: Order, steps: seq<JointStep>, j: Joint, call: Call, spec: P.Spec, moves: seq<P.Step>,
                    t: P.State, heard: Option<AdapterResponse>)
    returns (longer: seq<JointStep>, k: Joint)
    requires JointReaches(NOTHING, order, steps, j) && AtRest(j, order) && j.due == 0
    requires call.requestId == order.base.requestId && MayStart(j.store.files, call)
    requires TakesUp(moves, spec) && P.Reaches(j.provider, moves, t)
    requires order.scripts(call.fingerprint) == spec.setupScript
    requires heard.Some? ==> HasReplied(t.log, heard.value)
    ensures JointReaches(NOTHING, order, longer, k) && AtRest(k, order) && k.due == 0 && k.provider == t
    ensures k.store.files == Applied(j.store.files, call, HeardAs(heard)).0
  {
    var record := Decide(j.store.files, call).record;
    longer, k := CallGoes(order, steps, j, call, record);
    AsksStep(order.base.requestId, j.provider, moves[0]);
    longer, k := Go(order, longer, k, Provide(moves[0], true));
    longer, k := ProviderGoes(order, longer, k, moves[1..], t);
    longer, k := CallEnds(order, longer, k, call, record, heard);
    HeardIsApplied(j.store.files, call, heard);
  }

  /** What the provider does in four attempts: no room, a `new` it dies after, an unreadable inventory, and a `new`. */
  function FourAttempts(spec: P.Spec): seq<P.Event> {
    [P.Saw(P.Missing), P.Replied(P.Answer(Status.Failed, false, None)),
     P.Saw(P.Missing), P.New(spec),
     P.Saw(P.Unknown), P.Replied(P.Answer(Status.Failed, false, None)),
     P.Saw(P.Missing), P.New(spec)]
  }

  /** What the store hears of a failed attempt. */
  function Failed(call: Call, spec: P.Spec): AdapterResponse {
    P.AsResponse(call.requestId, spec, P.Answer(Status.Failed, false, None))
  }

  lemma FailedMayStart(files: Files, call: Call, spec: P.Spec)
    requires call.requestId in files ==>
               files[call.requestId].fingerprint == call.fingerprint
               && files[call.requestId].response == Some(Failed(call, spec))
    ensures MayStart(files, call)
    ensures Applied(files, call, HeardAs(Some(Failed(call, spec)))).0
         == files[call.requestId := Record(call, Response, Some(Failed(call, spec)))]
    ensures call.requestId in files ==>
              Applied(files, call, HeardAs(None)).0
              == files[call.requestId := Record(call, Started, Some(Failed(call, spec)))]
  {
    FailedAttemptIsRetried(files, call, Failed(call, spec));
    assert EncodeResponse(Failed(call, spec)).At("status") == String("failed");
  }

  lemma AwayMoves(spec: P.Spec) returns (moves: seq<P.Step>, t: P.State)
    requires !spec.adopt
    ensures TakesUp(moves, spec) && P.Reaches(P.INIT, moves, t)
    ensures t == P.State(P.Absent, P.Idle, FourAttempts(spec)[..2])
  {
    t := P.TurnedAway(P.INIT);
    moves := P.TurnedAwayReaches(P.INIT, [], P.INIT, spec);
    assert t.log == FourAttempts(spec)[..2];
  }

  lemma AskingMoves(s: P.State, spec: P.Spec) returns (moves: seq<P.Step>, t: P.State)
    requires s.pc.Idle? && !P.Blocked(s.file, spec)
    ensures TakesUp(moves, spec) && P.Reaches(s, moves, t)
    ensures t == P.State(P.Receipt(P.FingerprintOf(spec), P.Creating), P.Idle, s.log + [P.Saw(P.Missing), P.New(spec)])
  {
    t := P.NewIssued(s, spec).(pc := P.Idle);
    moves := P.DyingReaches(s, [], s, spec);
  }

  lemma UnreadableMoves(s: P.State, spec: P.Spec) returns (moves: seq<P.Step>, t: P.State)
    requires s.pc.Idle? && !spec.adopt && s.file == P.Receipt(P.FingerprintOf(spec), P.Creating)
    ensures TakesUp(moves, spec) && P.Reaches(s, moves, t)
    ensures t == P.State(P.Receipt(P.FingerprintOf(spec), P.ObservedPhase), P.Idle,
                         s.log + [P.Saw(P.Unknown), P.Replied(P.Answer(Status.Failed, false, None))])
  {
    t := P.Retried(s, spec, P.Unknown);
    moves := P.RetryReaches(s, [], s, spec, P.Unknown);
  }

  /** A request for one machine under one setup script, tried from nothing. */
  predicate Tried(order: Order, call: Call, spec: P.Spec) {
    !spec.adopt && call.requestId == order.base.requestId && order.scripts(call.fingerprint) == spec.setupScript
  }

  /** First there is no room. */
  lemma OneAttemptGoes(order: Order, call: Call, spec: P.Spec) returns (steps: seq<JointStep>, j: Joint)
    requires Tried(order, call, spec)
    ensures JointReaches(NOTHING, order, steps, j) && AtRest(j, order) && j.due == 0
    ensures j.provider == P.State(P.Absent, P.Idle, FourAttempts(spec)[..2])
    ensures j.store.files == map[call.requestId := Record(call, Response, Some(Failed(call, spec)))]
  {
    var moves, t := AwayMoves(spec);
    FailedMayStart(map[], call, spec);
    assert t.log[1] == P.Replied(P.Answer(Status.Failed, false, None));
    steps, j := AttemptGoes(order, [], NOTHING, call, spec, moves, t, Some(Failed(call, spec)));
  }

  /** Then the adapter dies after its `new`. */
  lemma TwoAttemptsGo(order: Order, call: Call, spec: P.Spec) returns (steps: seq<JointStep>, j: Joint)
    requires Tried(order, call, spec)
    ensures JointReaches(NOTHING, order, steps, j) && AtRest(j, order) && j.due == 0
    ensures j.provider == P.State(P.Receipt(P.FingerprintOf(spec), P.Creating), P.Idle, FourAttempts(spec)[..4])
    ensures j.store.files == map[call.requestId := Record(call, Started, Some(Failed(call, spec)))]
  {
    steps, j := OneAttemptGoes(order, call, spec);
    FailedMayStart(j.store.files, call, spec);
    var moves, t := AskingMoves(j.provider, spec);
    assert t.log == FourAttempts(spec)[..4];
    steps, j := AttemptGoes(order, steps, j, call, spec, moves, t, None);
  }

  /** Then an unreadable inventory. */
  lemma ThreeAttemptsGo(order: Order, call: Call, spec: P.Spec) returns (steps: seq<JointStep>, j: Joint)
    requires Tried(order, call, spec)
    ensures JointReaches(NOTHING, order, steps, j) && AtRest(j, order) && j.due == 0
    ensures j.provider == P.State(P.Receipt(P.FingerprintOf(spec), P.ObservedPhase), P.Idle, FourAttempts(spec)[..6])
    ensures j.store.files == map[call.requestId := Record(call, Response, Some(Failed(call, spec)))]
  {
    steps, j := TwoAttemptsGo(order, call, spec);
    var moves, t := UnreadableMoves(j.provider, spec);
    FailedMayStart(j.store.files, call, spec);
    assert t.log[5] == P.Replied(P.Answer(Status.Failed, false, None));
    assert t.log == FourAttempts(spec)[..6];
    steps, j := AttemptGoes(order, steps, j, call, spec, moves, t, Some(Failed(call, spec)));
  }

  /** And the same again. */
  lemma FourAttemptsGo(order: Order, call: Call, spec: P.Spec) returns (steps: seq<JointStep>, j: Joint)
    requires Tried(order, call, spec)
    ensures JointReaches(NOTHING, order, steps, j) && AtRest(j, order) && j.provider.log == FourAttempts(spec)
  {
    steps, j := ThreeAttemptsGo(order, call, spec);
    var moves, t := AskingMoves(j.provider, spec);
    FailedMayStart(j.store.files, call, spec);
    assert t.log == FourAttempts(spec);
    steps, j := AttemptGoes(order, steps, j, call, spec, moves, t, None);
  }

  lemma PairAsks(requestId: string, log: seq<P.Event>, a: P.Event, b: P.Event)
    requires !a.New?
    ensures AsksIn(requestId, log + [a, b])
         == AsksIn(requestId, log) + if b.New? then [Ask(NewKey(requestId, b.spec), true)] else []
  {
    OneMoreAsk(requestId, log, a);
    OneMoreAsk(requestId, log + [a], b);
    assert log + [a, b] == log + [a] + [b];
  }

  lemma FourAttemptsAsk(requestId: string, spec: P.Spec)
    ensures AsksIn(requestId, FourAttempts(spec))
         == [Ask(NewKey(requestId, spec), true), Ask(NewKey(requestId, spec), true)]
  {
    var log, failed := FourAttempts(spec), P.Replied(P.Answer(Status.Failed, false, None));
    PairAsks(requestId, [], P.Saw(P.Missing), failed);
    PairAsks(requestId, log[..2], P.Saw(P.Missing), P.New(spec));
    PairAsks(requestId, log[..4], P.Saw(P.Unknown), failed);
    PairAsks(requestId, log[..6], P.Saw(P.Missing), P.New(spec));
    assert log[..2] == [] + [log[0], log[1]] && log[..4] == log[..2] + [log[2], log[3]];
    assert log[..6] == log[..4] + [log[4], log[5]] && log == log[..6] + [log[6], log[7]];
  }

  /**
   * Over a failed answer on record the provider may ask again, with no VM ever seen: under the same key, so exe.dev
   * still gets one `new`.
   */
  lemma NewIsAskedForTwice(order: Order, call: Call, spec: P.Spec)
    requires Tried(order, call, spec)
    ensures exists steps, j ::
              && JointReaches(NOTHING, order, steps, j) && j.provider.log == FourAttempts(spec)
              && j.asks == [Ask(NewKey(call.requestId, spec), true), Ask(NewKey(call.requestId, spec), true)]
              && StartedFor(j.asks, call.requestId) == 1
  {
    var steps, j := FourAttemptsGo(order, call, spec);
    FourAttemptsAsk(call.requestId, spec);
    NewReachesExedevOnce(order, steps, j);
    assert j.asks[0] == Ask(NewKey(call.requestId, spec), true);
    assert j.provider.log[3] == P.New(spec);
  }
}
