/** The order of the stages of one environment, and how every run of the protocol keeps it. */
module LifecycleProtocol {
  import opened Receipts
  import opened ReceiptProtocol
  import opened UpProtocol
  import opened Dispatch
  import opened RequestIds

  /** Create, bootstrap, directory, prepare, shell, identity, apply, register. */
  function Rank(operation: string): nat {
    match operation
    case "create" => 0
    case "bootstrap" => 1
    case "directory" => 2
    case "prepare" => 3
    case "shell" => 4
    case "identity" => 5
    case "apply" => 6
    case _ => 7
  }

  predicate Ranked(calls: seq<Call>, low: nat, high: nat) {
    && (forall i :: 0 <= i < |calls| ==> low <= Rank(calls[i].identity.operation) <= high)
    && (forall i, k :: 0 <= i < k < |calls| ==> Rank(calls[i].identity.operation) <= Rank(calls[k].identity.operation))
  }

  lemma RankedAppends(a: seq<Call>, b: seq<Call>, low: nat, middle: nat, high: nat)
    requires Ranked(a, low, middle) && Ranked(b, middle, high) && low <= middle <= high
    ensures Ranked(a + b, low, high)
  {
  }

  lemma {:induction false} CallsAppend(site: Site, key: string, a: seq<L.Stage>, b: seq<L.Stage>)
    ensures Calls(site, key, a + b) == Calls(site, key, a) + Calls(site, key, b)
  {
    if a == [] {
      assert a + b == b;
    } else {
      assert (a + b)[1..] == a[1..] + b;
      CallsAppend(site, key, a[1..], b);
    }
  }

  predicate Integrates(stages: seq<L.Stage>, operation: string) {
    forall i :: 0 <= i < |stages| ==> (stages[i].Integrate? && stages[i].operation == operation) || stages[i].Abort?
  }

  lemma {:induction false} IntegratesRanked(site: Site, key: string, stages: seq<L.Stage>, operation: string)
    requires Integrates(stages, operation)
    ensures Ranked(Calls(site, key, stages), Rank(operation), Rank(operation))
  {
    if stages != [] {
      IntegratesRanked(site, key, stages[1..], operation);
    }
  }

  lemma {:induction false} StagesIntegrate(m: Manifest, operation: string, i: nat)
    requires i <= |m.integrations|
    ensures Integrates(L.Stages(m, operation, i), operation)
    decreases |m.integrations| - i
  {
    if i < |m.integrations| {
      StagesIntegrate(m, operation, i + 1);
    }
  }

  lemma RowRanked(site: Site, key: string, operation: string)
    ensures Ranked(Calls(site, key, L.Stages(site.manifest, operation, 0)), Rank(operation), Rank(operation))
  {
    StagesIntegrate(site.manifest, operation, 0);
    IntegratesRanked(site, key, L.Stages(site.manifest, operation, 0), operation);
  }

  lemma OneRanked(site: Site, key: string, stage: L.Stage, low: nat, high: nat)
    requires Ranked(StageCalls(site, key, stage), low, high)
    ensures Ranked(Calls(site, key, [stage]), low, high)
  {
    assert StageCalls(site, key, stage) + [] == StageCalls(site, key, stage);
  }

  lemma TwoRanked(site: Site, key: string, a: seq<L.Stage>, b: seq<L.Stage>, low: nat, middle: nat, high: nat)
    requires && Ranked(Calls(site, key, a), low, middle) && Ranked(Calls(site, key, b), middle, high)
             && low <= middle <= high
    ensures Ranked(Calls(site, key, a + b), low, high)
  {
    CallsAppend(site, key, a, b);
    RankedAppends(Calls(site, key, a), Calls(site, key, b), low, middle, high);
  }

  lemma Widened(calls: seq<Call>, low: nat, high: nat, lower: nat, higher: nat)
    requires Ranked(calls, low, high) && lower <= low && high <= higher
    ensures Ranked(calls, lower, higher)
  {
  }

  lemma RealizeRanked(site: Site, key: string)
    ensures Ranked(Calls(site, key, [L.Realize] + L.Stages(site.manifest, "apply", 0)), 4, 6)
  {
    OneRanked(site, key, L.Realize, 4, 5);
    Widened(Calls(site, key, [L.Realize]), 4, 5, 4, 6);
    RowRanked(site, key, "apply");
    TwoRanked(site, key, [L.Realize], L.Stages(site.manifest, "apply", 0), 4, 6, 6);
  }

  lemma ApplyRanked(site: Site, key: string)
    ensures Ranked(Calls(site, key, L.ApplyStages(site.manifest)), 1, 6)
  {
    var m := site.manifest;
    var realizing := [L.Realize] + L.Stages(m, "apply", 0);
    RealizeRanked(site, key);
    RowRanked(site, key, "prepare");
    Widened(Calls(site, key, L.Stages(m, "prepare", 0)), 3, 3, 3, 4);
    TwoRanked(site, key, L.Stages(m, "prepare", 0), realizing, 3, 4, 6);
    OneRanked(site, key, L.Directory, 2, 3);
    TwoRanked(site, key, [L.Directory], L.Stages(m, "prepare", 0) + realizing, 2, 3, 6);
    IntegratesRanked(site, key, L.BootstrapStages(m), "bootstrap");
    Widened(Calls(site, key, L.BootstrapStages(m)), 1, 1, 1, 2);
    TwoRanked(site, key, L.BootstrapStages(m), [L.Directory] + (L.Stages(m, "prepare", 0) + realizing), 1, 2, 6);
  }

  /** The receipts of `up` come in the order of the lifecycle. */
  lemma UpCallsRanked(site: Site, key: string)
    ensures Ranked(UpCalls(site, key), 0, 7)
  {
    var m := site.manifest;
    ApplyRanked(site, key);
    RowRanked(site, key, "register");
    Widened(Calls(site, key, L.ApplyStages(m)), 1, 6, 1, 7);
    TwoRanked(site, key, L.ApplyStages(m), L.Stages(m, "register", 0), 1, 7, 7);
    IntegratesRanked(site, key, L.CreateStages(m), "create");
    Widened(Calls(site, key, L.CreateStages(m)), 0, 0, 0, 1);
    TwoRanked(site, key, L.CreateStages(m), L.ApplyStages(m) + L.Stages(m, "register", 0), 0, 1, 7);
    IntegratesRanked(site, key, L.GateStages(m), "create");
    TwoRanked(site, key, L.GateStages(m), L.CreateStages(m) + (L.ApplyStages(m) + L.Stages(m, "register", 0)), 0, 0, 7);
  }

  /** Of two launches of the plan, the earlier one is no later in the lifecycle. */
  predicate FollowsLifecycle(plan: seq<Call>, history: seq<Event>) {
    forall i, k :: 0 <= i < k < |history| && IsStageLaunch(plan, history[i]) && IsStageLaunch(plan, history[k]) ==>
      Rank(history[i].call.identity.operation) <= Rank(history[k].call.identity.operation)
  }

  lemma LaunchRank(site: Site, key: string, steps: seq<UpStep>, t: UpState, i: nat) returns (p: nat)
    requires UpReaches(UpCalls(site, key), UP_INIT, steps, t)
    requires i < |t.receipts.history| && IsStageLaunch(UpCalls(site, key), t.receipts.history[i])
    ensures p == First(UpCalls(site, key), t.receipts.history[i].call.requestId)
    ensures UpCalls(site, key)[p] == t.receipts.history[i].call
  {
    var plan, call := UpCalls(site, key), t.receipts.history[i].call;
    p := First(plan, call.requestId);
    LaunchesAreOfThePlan(plan, steps, t, i);
    RequestIdNamesOneCall(site, key, call, plan[p]);
  }

  /** Whatever retries, crashes and concurrent runs of `up` do, adapters are launched in the order of the lifecycle. */
  lemma LaunchesFollowTheLifecycle(site: Site, key: string, steps: seq<UpStep>, t: UpState)
    requires UpReaches(UpCalls(site, key), UP_INIT, steps, t)
    ensures FollowsLifecycle(UpCalls(site, key), t.receipts.history)
  {
    var plan, history := UpCalls(site, key), t.receipts.history;
    UpCallsRanked(site, key);
    StagesLaunchInOrder(plan, steps, t);
    forall i, k | 0 <= i < k < |history| && IsStageLaunch(plan, history[i]) && IsStageLaunch(plan, history[k])
      ensures Rank(history[i].call.identity.operation) <= Rank(history[k].call.identity.operation)
    {
      var p := LaunchRank(site, key, steps, t, i);
      var q := LaunchRank(site, key, steps, t, k);
      assert p <= q;
    }
  }
}
