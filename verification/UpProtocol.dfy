/** Any number of `up` runs under one key, at once or one after the other, on top of the receipt protocol. */
module UpProtocol {
  import opened Wrappers
  import opened Receipts
  import opened ReceiptProtocol

  /** Each run stands before one stage of the plan; its id is also its caller id. */
  datatype UpState = UpState(receipts: State, cursors: map<nat, nat>)

  datatype UpStep =
    | StartUp(u: nat)
    | CallStage(u: nat)
    | Quit(u: nat)
    | OtherCall(c: nat, call: Call)
    | Serve(step: Step)

  predicate InPlan(plan: seq<Call>, id: string) {
    exists p :: 0 <= p < |plan| && plan[p].requestId == id
  }

  predicate UpEnabled(plan: seq<Call>, s: UpState, step: UpStep) {
    match step
    case StartUp(u) => u !in s.cursors && u !in s.receipts.callers
    case CallStage(u) => u in s.cursors && u !in s.receipts.callers && s.cursors[u] < |plan|
    case Quit(u) => u in s.cursors && u !in s.receipts.callers
    case OtherCall(c, call) => c !in s.cursors && c !in s.receipts.callers && !InPlan(plan, call.requestId)
    case Serve(step) => !step.Begin? && Enabled(s.receipts, step)
  }

  /** A run moves on when its stage answered complete, and ends when it answered anything else or crashed. */
  function CursorsAfter(s: UpState, step: Step): map<nat, nat>
    requires !step.Begin? && Enabled(s.receipts, step)
  {
    if step.c !in s.cursors then s.cursors
    else if step.Crash? then s.cursors - {step.c}
    else
      var emitted := Emitted(s.receipts, step);
      if emitted == [] || !emitted[0].Returned? then s.cursors
      else if emitted[0].outcome.Success? && emitted[0].outcome.value.Complete() then
        s.cursors[step.c := s.cursors[step.c] + 1]
      else s.cursors - {step.c}
  }

  function UpDo(plan: seq<Call>, s: UpState, step: UpStep): UpState
    requires UpEnabled(plan, s, step)
  {
    match step
    case StartUp(u) => s.(cursors := s.cursors[u := 0])
    case CallStage(u) => s.(receipts := Do(s.receipts, Begin(u, plan[s.cursors[u]])))
    case Quit(u) => s.(cursors := s.cursors - {u})
    case OtherCall(c, call) => s.(receipts := Do(s.receipts, Begin(c, call)))
    case Serve(step) => UpState(Do(s.receipts, step), CursorsAfter(s, step))
  }

  predicate UpReaches(plan: seq<Call>, s: UpState, steps: seq<UpStep>, t: UpState)
    decreases |steps|
  {
    if steps == [] then s == t
    else UpEnabled(plan, s, steps[0]) && UpReaches(plan, UpDo(plan, s, steps[0]), steps[1..], t)
  }

  const UP_INIT := UpState(INIT, map[])

  /** Everything before this position of the plan is settled. */
  predicate SettledBefore(plan: seq<Call>, s: State, p: nat)
    requires p <= |plan|
  {
    forall j :: 0 <= j < p ==> Settled(s, plan[j].requestId)
  }

  predicate RunOk(plan: seq<Call>, s: UpState, u: nat)
    requires u in s.cursors
  {
    && s.cursors[u] <= |plan| && SettledBefore(plan, s.receipts, s.cursors[u])
    && (u in s.receipts.callers ==> s.cursors[u] < |plan| && s.receipts.callers[u].call == plan[s.cursors[u]])
  }

  /** The first position at which the plan uses a request id. */
  function First(plan: seq<Call>, id: string): (p: nat)
    requires InPlan(plan, id)
    ensures p < |plan| && plan[p].requestId == id && forall j :: 0 <= j < p ==> plan[j].requestId != id
  {
    if plan[0].requestId == id then 0
    else
      assert exists p :: 0 <= p < |plan[1..]| && plan[1..][p].requestId == id by {
        var p :| 0 <= p < |plan| && plan[p].requestId == id;
        assert plan[1..][p - 1] == plan[p];
      }
      First(plan[1..], id) + 1
  }

  predicate IsStageLaunch(plan: seq<Call>, e: Event) {
    e.Launched? && InPlan(plan, e.call.requestId)
  }

  predicate LaunchOk(plan: seq<Call>, s: State, e: Event) {
    IsStageLaunch(plan, e) ==> e.call in plan && SettledBefore(plan, s, First(plan, e.call.requestId))
  }

  predicate InOrder(plan: seq<Call>, history: seq<Event>) {
    forall i, k :: 0 <= i < k < |history| && IsStageLaunch(plan, history[i]) && IsStageLaunch(plan, history[k]) ==>
      First(plan, history[i].call.requestId) <= First(plan, history[k].call.requestId)
  }

  ghost predicate UpInv(plan: seq<Call>, s: UpState) {
    && Inv(s.receipts)
    && (forall u :: u in s.cursors ==> RunOk(plan, s, u))
    && (forall c :: c in s.receipts.callers && InPlan(plan, s.receipts.callers[c].call.requestId) ==> c in s.cursors)
    && (forall e :: e in s.receipts.history ==> LaunchOk(plan, s.receipts, e))
    && InOrder(plan, s.receipts.history)
  }

  /** The receipt step behind a step of the whole, if there is one. */
  function Underlying(plan: seq<Call>, s: UpState, step: UpStep): Option<Step>
    requires UpEnabled(plan, s, step)
  {
    match step
    case CallStage(u) => Some(Begin(u, plan[s.cursors[u]]))
    case OtherCall(c, call) => Some(Begin(c, call))
    case Serve(step) => Some(step)
    case _ => None
  }

  lemma SettledBeforeStays(plan: seq<Call>, s: State, step: Step, p: nat)
    requires Inv(s) && Enabled(s, step) && p <= |plan| && SettledBefore(plan, s, p)
    ensures SettledBefore(plan, Do(s, step), p)
  {
    forall j | 0 <= j < p ensures Settled(Do(s, step), plan[j].requestId) {
      SettledStep(s, step, plan[j].requestId);
    }
  }

  /** A call that returns complete leaves its receipt settled. */
  lemma CompleteReturnSettles(s: State, step: Step)
    requires Inv(s) && Enabled(s, step) && !step.Begin? && Emitted(s, step) != []
    requires var e := Emitted(s, step)[0]; e.Returned? && e.outcome.Success? && e.outcome.value.Complete()
    ensures Settled(Do(s, step), s.callers[step.c].call.requestId)
  {
    assert CallerOk(s, step.c);
  }

  lemma SameCall(s: State, step: Step, u: nat)
    requires Enabled(s, step) && !step.Begin?
    ensures u in Do(s, step).callers ==> u in s.callers && Do(s, step).callers[u].call == s.callers[u].call
  {
  }

  lemma RunMovesOn(plan: seq<Call>, s: UpState, step: Step)
    requires UpInv(plan, s) && !step.Begin? && Enabled(s.receipts, step) && step.c in s.cursors
    requires step.c in CursorsAfter(s, step) && CursorsAfter(s, step)[step.c] != s.cursors[step.c]
    ensures RunOk(plan, UpDo(plan, s, Serve(step)), step.c)
  {
    assert RunOk(plan, s, step.c);
    CompleteReturnSettles(s.receipts, step);
    SettledBeforeStays(plan, s.receipts, step, s.cursors[step.c]);
  }

  lemma RunStands(plan: seq<Call>, s: UpState, step: Step, u: nat)
    requires UpInv(plan, s) && !step.Begin? && Enabled(s.receipts, step) && u in s.cursors
    requires u in CursorsAfter(s, step) && CursorsAfter(s, step)[u] == s.cursors[u]
    ensures RunOk(plan, UpDo(plan, s, Serve(step)), u)
  {
    assert RunOk(plan, s, u);
    SettledBeforeStays(plan, s.receipts, step, s.cursors[u]);
    SameCall(s.receipts, step, u);
  }

  lemma ServeKeepsRuns(plan: seq<Call>, s: UpState, step: Step)
    requires UpInv(plan, s) && !step.Begin? && Enabled(s.receipts, step)
    ensures var t := UpDo(plan, s, Serve(step));
            && (forall u :: u in t.cursors ==> RunOk(plan, t, u))
            && (forall c :: c in t.receipts.callers && InPlan(plan, t.receipts.callers[c].call.requestId) ==>
                  c in t.cursors)
  {
    var t := UpDo(plan, s, Serve(step));
    forall u | u in t.cursors ensures RunOk(plan, t, u) {
      if t.cursors[u] == s.cursors[u] {
        RunStands(plan, s, step, u);
      } else {
        RunMovesOn(plan, s, step);
      }
    }
    forall c | c in t.receipts.callers && InPlan(plan, t.receipts.callers[c].call.requestId) ensures c in t.cursors {
      SameCall(s.receipts, step, c);
    }
  }

  /** A stage is launched only by a run that stands before it, with everything earlier settled and itself not. */
  lemma LaunchIsDue(plan: seq<Call>, s: UpState, c: nat)
    requires UpInv(plan, s) && Enabled(s.receipts, CallAdapter(c))
    requires InPlan(plan, s.receipts.callers[c].call.requestId)
    ensures var id := s.receipts.callers[c].call.requestId;
            && SettledBefore(plan, s.receipts, First(plan, id)) && !Settled(s.receipts, id)
            && s.receipts.callers[c].call in plan
  {
    var id := s.receipts.callers[c].call.requestId;
    assert CallerOk(s.receipts, c);
    assert RunOk(plan, s, c);
  }

  lemma LaunchesStayOk(plan: seq<Call>, s: UpState, step: Step, e: Event)
    requires UpInv(plan, s) && Enabled(s.receipts, step) && e in Do(s.receipts, step).history
    ensures LaunchOk(plan, Do(s.receipts, step), e)
  {
    if IsStageLaunch(plan, e) {
      var p := First(plan, e.call.requestId);
      if e in s.receipts.history {
        assert LaunchOk(plan, s.receipts, e);
      } else {
        assert e in Emitted(s.receipts, step);
        LaunchIsDue(plan, s, step.c);
      }
      SettledBeforeStays(plan, s.receipts, step, p);
    }
  }

  lemma LaunchesStayInOrder(plan: seq<Call>, s: UpState, step: Step)
    requires UpInv(plan, s) && Enabled(s.receipts, step)
    ensures InOrder(plan, Do(s.receipts, step).history)
  {
    var before, after := s.receipts.history, Do(s.receipts, step).history;
    forall i, k | 0 <= i < k < |after| && IsStageLaunch(plan, after[i]) && IsStageLaunch(plan, after[k])
      ensures First(plan, after[i].call.requestId) <= First(plan, after[k].call.requestId)
    {
      if k < |before| {
        assert after[i] == before[i] && after[k] == before[k];
      } else {
        assert |Emitted(s.receipts, step)| <= 1;
        assert after[i] == before[i] && after[i] in before;
        LaunchIsDue(plan, s, step.c);
        assert LaunchOk(plan, s.receipts, after[i]);
      }
    }
  }

  lemma UpStepKeepsInv(plan: seq<Call>, s: UpState, step: UpStep)
    requires UpInv(plan, s) && UpEnabled(plan, s, step)
    ensures UpInv(plan, UpDo(plan, s, step))
  {
    var t, under := UpDo(plan, s, step), Underlying(plan, s, step);
    if under.Some? {
      StepKeepsInv(s.receipts, under.value);
      forall e | e in t.receipts.history ensures LaunchOk(plan, t.receipts, e) {
        LaunchesStayOk(plan, s, under.value, e);
      }
      LaunchesStayInOrder(plan, s, under.value);
      if step.Serve? {
        ServeKeepsRuns(plan, s, step.step);
      } else {
        forall u | u in t.cursors ensures RunOk(plan, t, u) {
          assert RunOk(plan, s, u);
          SettledBeforeStays(plan, s.receipts, under.value, s.cursors[u]);
        }
      }
    } else {
      forall u | u in t.cursors ensures RunOk(plan, t, u) {
        assert u in s.cursors ==> RunOk(plan, s, u);
      }
    }
  }

  lemma {:induction false} UpRunKeepsInv(plan: seq<Call>, s: UpState, steps: seq<UpStep>, t: UpState)
    requires UpInv(plan, s) && UpReaches(plan, s, steps, t)
    ensures UpInv(plan, t)
    decreases |steps|
  {
    if steps != [] {
      UpStepKeepsInv(plan, s, steps[0]);
      UpRunKeepsInv(plan, UpDo(plan, s, steps[0]), steps[1..], t);
    }
  }

  /** Whatever the runs do, the receipts see a run of their own protocol. */
  lemma {:induction false} Projects(plan: seq<Call>, s: UpState, steps: seq<UpStep>, t: UpState)
    returns (served: seq<Step>)
    requires UpReaches(plan, s, steps, t)
    ensures Reaches(s.receipts, served, t.receipts)
    decreases |steps|
  {
    served := [];
    if steps != [] {
      var under := Underlying(plan, s, steps[0]);
      served := Projects(plan, UpDo(plan, s, steps[0]), steps[1..], t);
      if under.Some? {
        assert ([under.value] + served)[1..] == served;
        served := [under.value] + served;
      }
    }
  }

  /** Over any number of retries, crashes and concurrent runs, stages are launched in plan order only. */
  lemma StagesLaunchInOrder(plan: seq<Call>, steps: seq<UpStep>, t: UpState)
    requires UpReaches(plan, UP_INIT, steps, t)
    ensures InOrder(plan, t.receipts.history)
  {
    InitInv();
    UpRunKeepsInv(plan, UP_INIT, steps, t);
  }

  /** What is launched under a request id of the plan is a call of the plan. */
  lemma LaunchesAreOfThePlan(plan: seq<Call>, steps: seq<UpStep>, t: UpState, i: nat)
    requires UpReaches(plan, UP_INIT, steps, t)
    requires i < |t.receipts.history| && IsStageLaunch(plan, t.receipts.history[i])
    ensures t.receipts.history[i].call in plan
  {
    InitInv();
    UpRunKeepsInv(plan, UP_INIT, steps, t);
    assert LaunchOk(plan, t.receipts, t.receipts.history[i]);
  }

  /** At the moment a stage is launched, every earlier one is complete on record and it is not. */
  lemma StageStartsOnlyWhenDue(plan: seq<Call>, steps: seq<UpStep>, t: UpState, c: nat)
    requires UpReaches(plan, UP_INIT, steps, t) && UpEnabled(plan, t, Serve(CallAdapter(c)))
    requires InPlan(plan, t.receipts.callers[c].call.requestId)
    ensures var p := First(plan, t.receipts.callers[c].call.requestId);
            SettledBefore(plan, t.receipts, p) && !Settled(t.receipts, plan[p].requestId)
  {
    InitInv();
    UpRunKeepsInv(plan, UP_INIT, steps, t);
    LaunchIsDue(plan, t, c);
  }

  /** A stage once complete is never launched again, by any later run. */
  lemma CompletedStageIsNeverRelaunched(plan: seq<Call>, before: seq<UpStep>, s: UpState, after: seq<UpStep>,
                                        t: UpState, p: nat)
    requires UpReaches(plan, UP_INIT, before, s) && UpReaches(plan, s, after, t)
    requires p < |plan| && Settled(s.receipts, plan[p].requestId)
    ensures Settled(t.receipts, plan[p].requestId)
    ensures |s.receipts.history| <= |t.receipts.history|
    ensures forall e :: e in t.receipts.history[|s.receipts.history|..] ==>
              !(e.Launched? && e.call.requestId == plan[p].requestId)
  {
    InitInv();
    UpRunKeepsInv(plan, UP_INIT, before, s);
    var served := Projects(plan, s, after, t);
    SettledRun(s.receipts, served, t.receipts, plan[p].requestId);
    forall e | e in t.receipts.history[|s.receipts.history|..] && e.Launched?
      ensures e.call.requestId != plan[p].requestId
    {
      assert Honours(e, plan[p].requestId, s.receipts.files[plan[p].requestId]);
    }
  }
}
