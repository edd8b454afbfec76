/** The exe.dev create behind the receipt store: which attempts reach the provider, and which `new`s reach exe.dev. */
module ExedevStore {
  import opened Wrappers
  import opened Protocol
  import opened Resume
  import opened ResumeRuns
  import opened LaunchHistory
  import opened KeyedExecutor
  import opened ExedevKeys
  import R = ReceiptProtocol

  /** What a create of exe.dev comes back as: a provider answer, which names no execution, or its process still runs. */
  predicate ExedevAnswer(base: AdapterRequest, response: AdapterResponse) {
    (response.executionId.None? && !response.status.Unsupported?) || Running(base)(response)
  }

  predicate ExedevHistory(base: AdapterRequest, history: seq<R.Event>) {
    forall e :: e in history && R.AnswersFor(e, base.requestId) ==> ExedevAnswer(base, e.response)
  }

  /** The launch starts a provider attempt rather than looking at one that runs. */
  predicate Starts(base: AdapterRequest, e: R.Event) {
    && LaunchOf(e, base.requestId)
    && (e.previous.Some? ==> OuterExecutionId(Some(EncodeResponse(e.previous.value)), base.requestId).None?)
  }

  predicate FailedAnswer(e: R.Event, id: string) {
    R.AnswersFor(e, id) && e.response.status.Failed?
  }

  /** An attempt over something on record is an attempt over a failed answer. */
  lemma LaterStartsFollowFailures(base: AdapterRequest, history: seq<R.Event>, p: nat)
    requires p < |history| && FoundedAt(history, base.requestId, p) && ExedevHistory(base, history)
    requires Starts(base, history[p]) && history[p].previous.Some?
    ensures history[p].previous.value.status.Failed?
    ensures exists k :: 0 <= k < p && FailedAnswer(history[k], base.requestId)
                        && history[k].response == history[p].previous.value
  {
    var previous := history[p].previous.value;
    var e :| e in history[..p] && R.AnswersFor(e, base.requestId) && e.response == previous;
    assert e in history;
    if previous.status.Pending? {
      PendingIsRecognised(base, previous.executionId.value);
    }
    var k :| 0 <= k < p && history[k] == e;
  }

  lemma LaunchStays(history: seq<R.Event>, id: string, k: nat, i: nat)
    requires k <= |history| && i <= |history| && HasLaunch(history[..k], id)
    ensures k <= i ==> HasLaunch(history[..i], id)
  {
    var e :| e in history[..k] && LaunchOf(e, id);
    assert k <= i ==> e in history[..i];
  }

  lemma AnswersFollowTheFirst(history: seq<R.Event>, id: string, i: nat, k: nat)
    requires i < |history| && FoundedAt(history, id, i) && LaunchOf(history[i], id) && history[i].previous.None?
    requires k < |history| && FoundedAt(history, id, k) && R.AnswersFor(history[k], id)
    ensures i < k
  {
    LaunchStays(history, id, k, i);
  }

  /**
   * Between two attempts, either the first was made over a failed answer on record or a failed answer was given: one
   * that had nothing to go on and answered pending, or died, is followed by no other.
   */
  lemma AttemptsNeedFailures(base: AdapterRequest, steps: seq<R.Step>, t: R.State, i: nat, j: nat)
    requires R.Reaches(R.INIT, steps, t) && ExedevHistory(base, t.history)
    requires i < j < |t.history| && Starts(base, t.history[i]) && Starts(base, t.history[j])
    ensures || (t.history[i].previous.Some? && t.history[i].previous.value.status.Failed?)
            || exists k :: i < k < j && FailedAnswer(t.history[k], base.requestId)
  {
    var id := base.requestId;
    LaunchesAreFounded(steps, t, id);
    assert FoundedAt(t.history, id, i) && FoundedAt(t.history, id, j);
    assert t.history[..j][i] == t.history[i];
    if t.history[i].previous.Some? {
      LaterStartsFollowFailures(base, t.history, i);
    } else {
      LaterStartsFollowFailures(base, t.history, j);
      var k :| 0 <= k < j && FailedAnswer(t.history[k], id) && t.history[k].response == t.history[j].previous.value;
      assert FoundedAt(t.history, id, k);
      AnswersFollowTheFirst(t.history, id, i, k);
    }
  }

  function Attempts(base: AdapterRequest, history: seq<R.Event>): nat {
    if history == [] then 0
    else
      Attempts(base, history[..|history| - 1]) + if Starts(base, history[|history| - 1]) then 1 else 0
  }

  lemma {:induction false} SomeAttempt(base: AdapterRequest, history: seq<R.Event>) returns (i: nat)
    requires Attempts(base, history) > 0
    ensures i < |history| && Starts(base, history[i])
  {
    i := |history| - 1;
    if !Starts(base, history[i]) {
      i := SomeAttempt(base, history[..|history| - 1]);
    }
  }

  lemma {:induction false} TwoAttempts(base: AdapterRequest, history: seq<R.Event>) returns (i: nat, j: nat)
    requires Attempts(base, history) > 1
    ensures i < j < |history| && Starts(base, history[i]) && Starts(base, history[j])
  {
    j := |history| - 1;
    if Starts(base, history[j]) {
      i := SomeAttempt(base, history[..j]);
    } else {
      i, j := TwoAttempts(base, history[..j]);
    }
  }

  predicate NoFailure(base: AdapterRequest, history: seq<R.Event>) {
    forall e :: e in history ==> !FailedAnswer(e, base.requestId)
  }

  /** Until some attempt is answered `failed`, there is only the one. */
  lemma OneAttemptWithoutFailure(base: AdapterRequest, steps: seq<R.Step>, t: R.State)
    requires R.Reaches(R.INIT, steps, t) && ExedevHistory(base, t.history) && NoFailure(base, t.history)
    ensures Attempts(base, t.history) <= 1
  {
    if Attempts(base, t.history) > 1 {
      var i, j := TwoAttempts(base, t.history);
      AttemptsNeedFailures(base, steps, t, i, j);
      LaunchesAreFounded(steps, t, base.requestId);
      if t.history[i].previous.Some? {
        assert FoundedAt(t.history, base.requestId, i);
        LaterStartsFollowFailures(base, t.history, i);
      }
    }
  }

  /* The store, the provider and the executor together */

  /**
   * Attempts started and not yet taken up by the provider are due; `asks` are the calls of the one executor, this
   * provider's and everyone else's.
   */
  datatype Joint = Joint(store: R.State, provider: P.State, due: nat, asks: seq<Ask<Json>>)

  datatype JointStep =
    | Store(step: R.Step)
    | Provide(move: P.Step, reached: bool)
    | Elsewhere(ask: Ask<Json>)

  const NOTHING := Joint(R.INIT, P.INIT, 0, [])

  /**
   * The request of the create, and the setup script under each fingerprint of the store, which covers the configuration
   * and the input it is read from.
   */
  datatype Order = Order(base: AdapterRequest, scripts: string -> Option<string>)

  /** The provider has replied so, or its process still runs. */
  predicate Told(j: Joint, base: AdapterRequest, response: AdapterResponse) {
    || Running(base)(response)
    || (response.executionId.None?
        && exists e :: e in j.provider.log && e.Replied? && e.answer.status == response.status)
  }

  /** The step gives an answer to a call of this request. */
  predicate GivesAnswer(j: Joint, base: AdapterRequest, step: R.Step)
    requires R.Enabled(j.store, step)
  {
    step.Answer? && step.outcome.Success? && j.store.callers[step.c].call.requestId == base.requestId
  }

  /** Some attempt carries this setup script. */
  predicate Launches(order: Order, history: seq<R.Event>, script: Option<string>) {
    exists e :: e in history && Starts(order.base, e) && order.scripts(e.call.fingerprint) == script
  }

  predicate JointEnabled(j: Joint, order: Order, step: JointStep) {
    match step
    case Store(step) =>
      R.Enabled(j.store, step) && (GivesAnswer(j, order.base, step) ==> Told(j, order.base, step.outcome.value))
    case Provide(move, reached) =>
      && P.Enabled(j.provider, move)
      && (move.Start? ==> j.due > 0 && Launches(order, j.store.history, move.spec.setupScript))
      && (move.Issue? && !reached ==> move.refused)
    case Elsewhere(ask) => !KeyOf(ask.key, order.base.requestId)
  }

  function JointDo(j: Joint, order: Order, step: JointStep): Joint
    requires JointEnabled(j, order, step)
  {
    match step
    case Store(step) =>
      var emitted := R.Emitted(j.store, step);
      var starts := emitted != [] && Starts(order.base, emitted[0]);
      j.(store := R.Do(j.store, step), due := j.due + if starts then 1 else 0)
    case Provide(move, reached) =>
      j.(provider := P.Do(j.provider, move), due := j.due - if move.Start? then 1 else 0,
         asks := j.asks + if move.Issue? then [Ask(NewKey(order.base.requestId, j.provider.pc.spec), reached)] else [])
    case Elsewhere(ask) => j.(asks := j.asks + [ask])
  }

  predicate JointReaches(j: Joint, order: Order, steps: seq<JointStep>, k: Joint)
    decreases |steps|
  {
    if steps == [] then j == k
    else JointEnabled(j, order, steps[0]) && JointReaches(JointDo(j, order, steps[0]), order, steps[1..], k)
  }

  function News(log: seq<P.Event>): nat {
    if log == [] then 0 else News(log[..|log| - 1]) + if log[|log| - 1] .New? then 1 else 0
  }

  lemma {:induction false} NewsJoin(a: seq<P.Event>, b: seq<P.Event>)
    ensures News(a + b) == News(a) + News(b)
    decreases |b|
  {
    if b == [] {
      assert a + b == a;
    } else {
      NewsJoin(a, b[..|b| - 1]);
      assert (a + b)[..|a + b| - 1] == a + b[..|b| - 1];
    }
  }

  lemma NewsOf(a: P.Event, b: P.Event)
    ensures News([a]) == if a .New? then 1 else 0
    ensures News([a, b]) == (if a .New? then 1 else 0) + if b .New? then 1 else 0
  {
    assert [a][..0] == [] && [a, b][..1] == [a];
  }

  lemma EmittedNews(s: P.State, step: P.Step)
    requires P.Enabled(s, step)
    ensures News(P.Emitted(s, step)) == if step.Issue? then 1 else 0
  {
    var emitted := P.Emitted(s, step);
    if |emitted| == 1 {
      NewsOf(emitted[0], emitted[0]);
      assert emitted == [emitted[0]];
    } else if |emitted| == 2 {
      NewsOf(emitted[0], emitted[1]);
      assert emitted == [emitted[0], emitted[1]];
    }
  }

  lemma NewsStep(s: P.State, step: P.Step)
    requires P.Enabled(s, step)
    ensures News(P.Do(s, step).log) == News(s.log) + if step.Issue? then 1 else 0
  {
    NewsJoin(s.log, P.Emitted(s, step));
    EmittedNews(s, step);
  }

  /** The attempt may still issue its `new`. */
  predicate MayIssue(pc: P.Pc) {
    pc.Observing? || pc.Checking? || pc.Committing? || pc.Issuing?
  }

  predicate NeverUnsupported(log: seq<P.Event>) {
    forall e :: e in log && e.Replied? ==> !e.answer.status.Unsupported?
  }

  ghost predicate JointInv(j: Joint, base: AdapterRequest) {
    && News(j.provider.log) + (if MayIssue(j.provider.pc) then 1 else 0) + j.due <= Attempts(base, j.store.history)
    && NeverUnsupported(j.provider.log) && ExedevHistory(base, j.store.history)
  }

  lemma AttemptsExtend(base: AdapterRequest, history: seq<R.Event>, more: seq<R.Event>)
    requires |more| <= 1
    ensures Attempts(base, history + more)
         == Attempts(base, history) + if more != [] && Starts(base, more[0]) then 1 else 0
  {
    if more == [] {
      assert history + more == history;
    } else {
      assert (history + more)[..|history|] == history;
    }
  }

  lemma EmittedAnswer(s: R.State, step: R.Step, id: string)
    requires R.Enabled(s, step)
    ensures |R.Emitted(s, step)| <= 1
    ensures forall e :: e in R.Emitted(s, step) && R.AnswersFor(e, id) ==>
              step.Answer? && step.outcome == Success(e.response) && s.callers[step.c].call.requestId == id
  {
  }

  lemma StoreKeepsHistory(j: Joint, order: Order, step: R.Step)
    requires ExedevHistory(order.base, j.store.history) && NeverUnsupported(j.provider.log)
    requires JointEnabled(j, order, Store(step))
    ensures ExedevHistory(order.base, j.store.history + R.Emitted(j.store, step))
  {
    EmittedAnswer(j.store, step, order.base.requestId);
  }

  lemma StoreKeepsJoint(j: Joint, order: Order, step: R.Step)
    requires JointInv(j, order.base) && JointEnabled(j, order, Store(step))
    ensures JointInv(JointDo(j, order, Store(step)), order.base)
  {
    var emitted := R.Emitted(j.store, step);
    EmittedAnswer(j.store, step, order.base.requestId);
    StoreKeepsHistory(j, order, step);
    AttemptsExtend(order.base, j.store.history, emitted);
    assert JointDo(j, order, Store(step)).store.history == j.store.history + emitted;
  }

  /** An attempt issues once, after its start. */
  lemma IssuesOnce(s: P.State, step: P.Step)
    requires P.Enabled(s, step)
    ensures (if step.Issue? then 1 else 0) + (if MayIssue(P.Do(s, step).pc) then 1 else 0)
         <= (if MayIssue(s.pc) then 1 else 0) + if step.Start? then 1 else 0
  {
  }

  lemma StaysSupported(s: P.State, step: P.Step)
    requires P.Enabled(s, step) && NeverUnsupported(s.log)
    ensures NeverUnsupported(P.Do(s, step).log)
  {
    forall e | e in P.Emitted(s, step) && e.Replied? ensures !e.answer.status.Unsupported? {
    }
  }

  lemma ProvideKeepsJoint(j: Joint, order: Order, move: P.Step, reached: bool)
    requires JointInv(j, order.base) && JointEnabled(j, order, Provide(move, reached))
    ensures JointInv(JointDo(j, order, Provide(move, reached)), order.base)
  {
    NewsStep(j.provider, move);
    IssuesOnce(j.provider, move);
    StaysSupported(j.provider, move);
    assert JointDo(j, order, Provide(move, reached)).store == j.store;
  }

  lemma {:induction false} RunKeepsJoint(j: Joint, order: Order, steps: seq<JointStep>, k: Joint)
    requires JointInv(j, order.base) && JointReaches(j, order, steps, k)
    ensures JointInv(k, order.base)
    decreases |steps|
  {
    if steps != [] {
      match steps[0] {
        case Store(step) => StoreKeepsJoint(j, order, step);
        case Provide(move, reached) => ProvideKeepsJoint(j, order, move, reached);
        case Elsewhere(_) =>
      }
      RunKeepsJoint(JointDo(j, order, steps[0]), order, steps[1..], k);
    }
  }

  /** The store sees a run of its own protocol, and the provider one of its machine. */
  lemma {:induction false} PartsRun(j: Joint, order: Order, steps: seq<JointStep>, k: Joint)
    returns (served: seq<R.Step>, moves: seq<P.Step>)
    requires JointReaches(j, order, steps, k)
    ensures R.Reaches(j.store, served, k.store) && P.Reaches(j.provider, moves, k.provider)
    decreases |steps|
  {
    served, moves := [], [];
    if steps != [] {
      served, moves := PartsRun(JointDo(j, order, steps[0]), order, steps[1..], k);
      if steps[0].Store? {
        assert ([steps[0].step] + served)[1..] == served;
        served := [steps[0].step] + served;
      } else if steps[0].Provide? {
        assert ([steps[0].move] + moves)[1..] == moves;
        moves := [steps[0].move] + moves;
      }
    }
  }

  /* What comes of the `new`s at exe.dev */

  /** Every `new` was for an attempt's setup script, and every call under this request's keys was one of these. */
  ghost predicate KeysInv(j: Joint, order: Order) {
    && (P.GoesBy(j.provider.pc).Some? ==> Launches(order, j.store.history, j.provider.pc.spec.setupScript))
    && (forall e :: e in j.provider.log && e.New? ==> Launches(order, j.store.history, e.spec.setupScript))
    && (forall ask :: ask in j.asks && KeyOf(ask.key, order.base.requestId) ==>
          exists e :: e in j.provider.log && e.New? && ask.key == NewKey(order.base.requestId, e.spec))
  }

  lemma LaunchesStay(order: Order, history: seq<R.Event>, more: seq<R.Event>, script: Option<string>)
    requires Launches(order, history, script)
    ensures Launches(order, history + more, script)
  {
    var e :| e in history && Starts(order.base, e) && order.scripts(e.call.fingerprint) == script;
    assert e in history + more;
  }

  lemma StoreKeepsKeys(j: Joint, order: Order, step: R.Step)
    requires KeysInv(j, order) && JointEnabled(j, order, Store(step))
    ensures KeysInv(JointDo(j, order, Store(step)), order)
  {
    var more := R.Emitted(j.store, step);
    forall script | Launches(order, j.store.history, script) ensures Launches(order, j.store.history + more, script) {
      LaunchesStay(order, j.store.history, more, script);
    }
  }

  lemma ProvideKeepsKeys(j: Joint, order: Order, move: P.Step, reached: bool)
    requires KeysInv(j, order) && JointEnabled(j, order, Provide(move, reached))
    ensures KeysInv(JointDo(j, order, Provide(move, reached)), order)
  {
    var k := JointDo(j, order, Provide(move, reached));
    assert forall e :: e in j.provider.log ==> e in k.provider.log;
    if move.Issue? {
      assert P.Emitted(j.provider, move)[0] == P.New(j.provider.pc.spec);
      assert P.New(j.provider.pc.spec) in k.provider.log;
    }
  }

  lemma {:induction false} RunKeepsKeys(j: Joint, order: Order, steps: seq<JointStep>, k: Joint)
    requires KeysInv(j, order) && JointReaches(j, order, steps, k)
    ensures KeysInv(k, order)
    decreases |steps|
  {
    if steps != [] {
      match steps[0] {
        case Store(step) => StoreKeepsKeys(j, order, step);
        case Provide(move, reached) => ProvideKeepsKeys(j, order, move, reached);
        case Elsewhere(_) =>
      }
      RunKeepsKeys(JointDo(j, order, steps[0]), order, steps[1..], k);
    }
  }

  /** The store binds a request id to one fingerprint, and so every attempt of it to one setup script. */
  lemma OneScript(order: Order, served: seq<R.Step>, t: R.State, one: Option<string>, other: Option<string>)
    requires R.Reaches(R.INIT, served, t)
    requires Launches(order, t.history, one) && Launches(order, t.history, other)
    ensures one == other
  {
    R.InitInv();
    R.RunKeepsInv(R.INIT, served, t);
    var e :| e in t.history && Starts(order.base, e) && order.scripts(e.call.fingerprint) == one;
    var f :| f in t.history && Starts(order.base, f) && order.scripts(f.call.fingerprint) == other;
    assert R.EventOk(t, e) && R.EventOk(t, f);
  }

  /** All `new`s of one request id go to the executor under one key. */
  lemma NewsHaveOneKey(order: Order, steps: seq<JointStep>, j: Joint, p: nat, q: nat)
    requires JointReaches(NOTHING, order, steps, j)
    requires p < |j.provider.log| && q < |j.provider.log| && j.provider.log[p].New? && j.provider.log[q].New?
    ensures NewKey(order.base.requestId, j.provider.log[p].spec) == NewKey(order.base.requestId, j.provider.log[q].spec)
  {
    var served, moves := PartsRun(NOTHING, order, steps, j);
    RunKeepsKeys(NOTHING, order, steps, j);
    var one, other := j.provider.log[p].spec, j.provider.log[q].spec;
    OneScript(order, served, j.store, one.setupScript, other.setupScript);
    NewsShareKeyIff(order.base.requestId, moves, j.provider, p, q);
  }

  /**
   * exe.dev gets at most one `new` per request id: in every run of store, provider and executor, whatever inventory
   * reads and writes fail, whatever attempts are answered, crash or live on, and whoever else uses the executor. It
   * gets it exactly if some call of the provider came through.
   */
  lemma NewReachesExedevOnce(order: Order, steps: seq<JointStep>, j: Joint)
    requires JointReaches(NOTHING, order, steps, j)
    ensures StartedFor(j.asks, order.base.requestId) <= 1
    ensures StartedFor(j.asks, order.base.requestId) == 1 <==>
            exists e :: e in j.provider.log && e.New? && Ask(NewKey(order.base.requestId, e.spec), true) in j.asks
  {
    var id, log := order.base.requestId, j.provider.log;
    RunKeepsKeys(NOTHING, order, steps, j);
    if p :| 0 <= p < |log| && log[p].New? {
      var key := NewKey(id, log[p].spec);
      forall e | e in log && e.New? ensures NewKey(id, e.spec) == key {
        var q :| 0 <= q < |log| && log[q] == e;
        NewsHaveOneKey(order, steps, j, p, q);
      }
      KeysAreDistinct(id, NewArgs(log[p].spec), id, NewArgs(log[p].spec));
      OneKeyStartsOnce(j.asks, id, key);
      assert log[p] in log;
    } else {
      OneKeyStartsOnce(j.asks, id, Null);
    }
  }

  /**
   * And until some attempt is answered `failed`, the provider asks for it at most once, whatever inventory reads fail,
   * callers crash and writes are lost.
   */
  lemma NewIsAskedForOnceWithoutFailure(order: Order, steps: seq<JointStep>, j: Joint)
    requires JointReaches(NOTHING, order, steps, j) && NoFailure(order.base, j.store.history)
    ensures News(j.provider.log) <= 1
  {
    RunKeepsJoint(NOTHING, order, steps, j);
    var served, moves := PartsRun(NOTHING, order, steps, j);
    OneAttemptWithoutFailure(order.base, served, j.store);
  }
}
