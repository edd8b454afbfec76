/** What a finished `up` leaves on record and reports, what a refused one does, and what realizing a shell comes to. */
module UpResults {
  import opened Wrappers
  import opened Protocol
  import opened Text
  import opened Receipts
  import opened Dispatch
  import opened LifecycleRetries
  import opened RequestIds
  import opened PlanContents

  /* A finished plan */

  /** The stage is settled, and this is what it was answered. */
  predicate Answers(site: Site, key: string, w: World, stage: L.Stage, response: AdapterResponse) {
    && StageSettled(site, key, w, stage)
    && match stage
       case Integrate(binding, operation, index) =>
         response == ResponseOf(w.files, BindingCall(site, key, binding, operation, index, NO_INPUT, None))
       case Directory => IsPrepared(response, ResponseOf(w.files, StageCall(site, key, "directory")))
       case Realize => w.applied == Some(response.data)
       case Abort(_) => false
  }

  /** The directory's own answer, but changed if its command says so. */
  predicate IsPrepared(response: AdapterResponse, recorded: AdapterResponse) {
    response == recorded.(status := if recorded.data.At("stdout") == String("changed") then Changed
                                    else recorded.status)
  }

  lemma PassedAnswers(site: Site, key: string, w: World, stage: L.Stage)
    requires MutationKey(Some(key)).Success? && IsSaved(site.manifest, stage)
    requires L.Passes(L.Performed(site, w, Some(key), stage).1)
    ensures Answers(site, key, L.Performed(site, w, Some(key), stage).0, stage,
                    L.Performed(site, w, Some(key), stage).1.value)
  {
    PassedStageIsSettled(site, key, w, stage);
    match stage
    case Integrate(_, _, _) => PassingIsSettled(site, w, SetupInvocation(site, key, stage));
    case Directory => PassingIsSettled(site, w, StageInvocation(site, key, "directory"));
    case Realize =>
    case Abort(_) =>
  }

  lemma SaveKeepsResponse(site: Site, w: World, inv: Invocation, call: Call)
    requires CallSettled(w.files, call)
    ensures CallSettled(Saved(site, w, inv).0.files, call)
    ensures ResponseOf(Saved(site, w, inv).0.files, call) == ResponseOf(w.files, call)
  {
    SavedKeepsSettled(site, w, inv, call);
  }

  lemma StageKeepsResponse(site: Site, key: string, w: World, stage: L.Stage, call: Call)
    requires MutationKey(Some(key)).Success? && CallSettled(w.files, call)
    ensures CallSettled(L.Performed(site, w, Some(key), stage).0.files, call)
    ensures ResponseOf(L.Performed(site, w, Some(key), stage).0.files, call) == ResponseOf(w.files, call)
  {
    match stage
    case Integrate(binding, operation, _) =>
      if site.manifest.Mutating(binding.extension, operation) {
        SaveKeepsResponse(site, w, SetupInvocation(site, key, stage), call);
      }
    case Directory => SaveKeepsResponse(site, w, StageInvocation(site, key, "directory"), call);
    case Realize =>
      SaveKeepsResponse(site, w, StageInvocation(site, key, "shell"), call);
      SaveKeepsResponse(site, Saved(site, w, StageInvocation(site, key, "shell")).0,
                        StageInvocation(site, key, "identity"), call);
    case Abort(_) =>
  }

  lemma AnswerStays(site: Site, key: string, w: World, stage: L.Stage, other: L.Stage, response: AdapterResponse)
    requires MutationKey(Some(key)).Success? && Answers(site, key, w, other, response)
    ensures Answers(site, key, L.Performed(site, w, Some(key), stage).0, other, response)
  {
    StagesStaySettled(site, key, w, stage, other);
    match other
    case Integrate(binding, operation, index) =>
      StageKeepsResponse(site, key, w, stage, BindingCall(site, key, binding, operation, index, NO_INPUT, None));
    case Directory => StageKeepsResponse(site, key, w, stage, StageCall(site, key, "directory"));
    case Realize => AppliedStays(site, key, w, stage);
  }

  lemma AppliedStays(site: Site, key: string, w: World, stage: L.Stage)
    requires MutationKey(Some(key)).Success? && RealizeSettled(site, w, key)
    ensures L.Performed(site, w, Some(key), stage).0.applied == w.applied
  {
    if stage.Realize? {
      RealizeIsReplayed(site, key, w);
    }
  }

  lemma {:induction false} WalkKeepsAnswer(site: Site, key: string, w: World, stages: seq<L.Stage>, other: L.Stage,
                                           response: AdapterResponse)
    requires MutationKey(Some(key)).Success? && Answers(site, key, w, other, response)
    ensures Answers(site, key, L.Walk(L.Performing(site, Some(key)), w, stages).world, other, response)
    decreases |stages|
  {
    if stages != [] {
      AnswerStays(site, key, w, stages[0], other, response);
      WalkKeepsAnswer(site, key, L.Performed(site, w, Some(key), stages[0]).0, stages[1..], other, response);
    }
  }

  /** In a walk that finished, every stage has its answer, and still has when the walk ends. */
  lemma {:induction false} FinishedAnswers(site: Site, key: string, w: World, stages: seq<L.Stage>, i: nat)
    requires MutationKey(Some(key)).Success? && i < |stages|
    requires forall k :: 0 <= k < |stages| ==> IsSaved(site.manifest, stages[k])
    requires L.Walk(L.Performing(site, Some(key)), w, stages).stop.Finished?
    ensures var r := L.Walk(L.Performing(site, Some(key)), w, stages);
            |r.answers| == |stages| && Answers(site, key, r.world, stages[i], r.answers[i])
    decreases |stages|
  {
    var perform := L.Performing(site, Some(key));
    var (after, reply) := perform(w, stages[0]);
    L.WalkAnswers(perform, w, stages);
    if i == 0 {
      PassedAnswers(site, key, w, stages[0]);
      WalkKeepsAnswer(site, key, after, stages[1..], stages[0], reply.value);
    } else {
      FinishedAnswers(site, key, after, stages[1..], i - 1);
    }
  }

  /** The report of an `up` that came through. */
  ghost predicate CameThrough(site: Site, key: string, w: World, now: World, r: L.Reported) {
    && SetupIsSaved(site.manifest) && MutationKey(Some(key)).Success?
    && L.Reports(L.Performing(site, Some(key)), w, L.UpStages(site.manifest), L.Preamble(site.manifest), now, r)
    && r.Success? && r.value.ok
  }

  lemma CameThroughFinished(site: Site, key: string, w: World, now: World, r: L.Reported)
    requires CameThrough(site, key, w, now, r)
    ensures var walked := L.Walk(L.Performing(site, Some(key)), w, L.UpStages(site.manifest));
            && walked.stop.Finished? && walked.world == now
            && r.value.results == L.Preamble(site.manifest) + L.Shown(L.UpStages(site.manifest), walked.answers)
  {
    UpIsOkIffFinished(site, Some(key), w);
  }

  lemma PlannedStage(site: Site, key: string, w: World, now: World, r: L.Reported, i: nat)
    requires CameThrough(site, key, w, now, r) && i < |L.UpStages(site.manifest)|
    ensures exists response ::
              Answers(site, key, now, L.UpStages(site.manifest)[i], response)
              && L.Step(L.Label(L.UpStages(site.manifest)[i]), response) in r.value.results
  {
    var plan := L.UpStages(site.manifest);
    var walked := L.Walk(L.Performing(site, Some(key)), w, plan);
    CameThroughFinished(site, key, w, now, r);
    UpIsSaved(site.manifest);
    forall k | 0 <= k < |plan| ensures IsSaved(site.manifest, plan[k]) {
      assert Saving(site.manifest)(plan[k]);
    }
    FinishedAnswers(site, key, w, plan, i);
    var shown := L.Shown(plan, walked.answers);
    assert shown[i] == L.Step(L.Label(plan[i]), walked.answers[i]);
    assert r.value.results[|L.Preamble(site.manifest)| + i] == shown[i];
  }

  lemma {:induction false} CallHasStage(site: Site, key: string, stages: seq<L.Stage>, call: Call) returns (i: nat)
    requires call in Calls(site, key, stages)
    ensures i < |stages| && call in StageCalls(site, key, stages[i])
  {
    i := 0;
    if call !in StageCalls(site, key, stages[0]) {
      i := CallHasStage(site, key, stages[1..], call);
      i := i + 1;
    }
  }

  lemma {:induction false} BootstrapCount(m: Manifest, from: nat, i: nat)
    requires from <= i < |m.integrations| && Boots(m, i)
    ensures |L.Bootstraps(m, m.integrations[from..])| >= 1 + |L.Bootstraps(m, m.integrations[i + 1..])|
    decreases i - from
  {
    assert m.integrations[from..][1..] == m.integrations[from + 1..];
    if from < i {
      BootstrapCount(m, from + 1, i);
    }
  }

  lemma TwoBootstrapsFound(m: Manifest, i: nat, k: nat)
    requires i < k < |m.integrations| && Boots(m, i) && Boots(m, k)
    ensures |L.Bootstraps(m, m.integrations)| >= 2
  {
    BootstrapCount(m, 0, i);
    BootstrapCount(m, i + 1, k);
    assert m.integrations[0..] == m.integrations;
  }

  /** A plan that is refused has a place at which it is. */
  lemma RefusedHasAbort(m: Manifest) returns (n: nat)
    requires !Stands(m)
    ensures n < |L.UpStages(m)| && L.UpStages(m)[n].Abort?
  {
    var plan := L.UpStages(m);
    if !L.ConnectionIntegrated(m) {
      n := 0;
      assert plan[0] == L.Abort(ConnectionNotIntegrated);
    } else {
      var i, k :| 0 <= i < k < |m.integrations| && Boots(m, i) && Boots(m, k);
      TwoBootstrapsFound(m, i, k);
      n := |L.GateStages(m) + L.CreateStages(m)|;
      assert L.BootstrapStages(m)[0] == L.Abort(MultipleBootstrap);
      assert L.ApplyStages(m)[0] == L.Abort(MultipleBootstrap);
      assert plan[n] == L.ApplyStages(m)[0];
    }
  }

  /** An `up` that came through was not refused. */
  lemma CameThroughStands(site: Site, key: string, w: World, now: World, r: L.Reported)
    requires CameThrough(site, key, w, now, r)
    ensures Stands(site.manifest)
  {
    if !Stands(site.manifest) {
      var n := RefusedHasAbort(site.manifest);
      PlannedStage(site, key, w, now, r, n);
      assert false;
    }
  }

  lemma SettledCall(site: Site, key: string, w: World, stage: L.Stage, call: Call)
    requires StageSettled(site, key, w, stage) && call in StageCalls(site, key, stage)
    ensures CallSettled(w.files, call)
  {
  }

  /** After an `up` that came through, everything that belongs to an `up` is complete on record. */
  lemma FinishedUpIsComplete(site: Site, key: string, w: World, now: World, r: L.Reported, call: Call)
    requires CameThrough(site, key, w, now, r) && call in UpCalls(site, key)
    ensures CallSettled(now.files, call)
  {
    var i := CallHasStage(site, key, L.UpStages(site.manifest), call);
    PlannedStage(site, key, w, now, r, i);
    SettledCall(site, key, now, L.UpStages(site.manifest)[i], call);
  }

  /** That is the directory, the shell and its identity, the create, and every integration that takes part. */
  lemma FinishedUpIsWhole(site: Site, key: string, w: World, now: World, r: L.Reported)
    requires CameThrough(site, key, w, now, r)
    ensures Stands(site.manifest)
    ensures CallSettled(now.files, StageCall(site, key, "directory"))
    ensures CallSettled(now.files, StageCall(site, key, "shell"))
    ensures CallSettled(now.files, StageCall(site, key, "identity"))
    ensures forall call :: call in CreateCalls(site, key) ==> CallSettled(now.files, call)
  {
    CameThroughStands(site, key, w, now, r);
    DirectoryIsMade(site, key);
    ShellIsBuilt(site, key);
    ProviderCreates(site, key);
    forall operation: string, call | call in OfOperation(UpCalls(site, key), operation)
      ensures CallSettled(now.files, call)
    {
      OperationIsMember(UpCalls(site, key), operation, call);
      FinishedUpIsComplete(site, key, w, now, r, call);
    }
    assert StageCall(site, key, "directory") in OfOperation(UpCalls(site, key), "directory");
    assert StageCall(site, key, "shell") in OfOperation(UpCalls(site, key), "shell");
    assert StageCall(site, key, "identity") in OfOperation(UpCalls(site, key), "identity");
    assert forall call :: call in CreateCalls(site, key) ==> call in OfOperation(UpCalls(site, key), "create");
  }

  lemma TakerAnswers(site: Site, key: string, w: World, stage: L.Stage, response: AdapterResponse, call: Call)
    requires Answers(site, key, w, stage, response) && call in StageCalls(site, key, stage)
    requires call.identity.operation != "directory" && call.identity.operation != "shell"
    requires call.identity.operation != "identity"
    ensures CallSettled(w.files, call) && response == ResponseOf(w.files, call)
    ensures L.Label(stage) == call.identity.extension
  {
  }

  lemma FinishedUpIntegrates(site: Site, key: string, w: World, now: World, r: L.Reported, operation: string, i: nat)
    requires CameThrough(site, key, w, now, r) && TakesPart(site.manifest, operation, i)
    requires operation == "bootstrap" || operation == "prepare" || operation == "apply" || operation == "register"
    ensures CallSettled(now.files, CallOf(site, key, operation, i))
    ensures L.Step(site.manifest.integrations[i].extension, ResponseOf(now.files, CallOf(site, key, operation, i)))
         in r.value.results
  {
    var call, plan := CallOf(site, key, operation, i), L.UpStages(site.manifest);
    CameThroughStands(site, key, w, now, r);
    TakerIsPlanned(site, key, operation, i);
    var n := CallHasStage(site, key, plan, call);
    PlannedStage(site, key, w, now, r, n);
    forall response | Answers(site, key, now, plan[n], response)
      ensures CallSettled(now.files, call) && response == ResponseOf(now.files, call)
      ensures L.Label(plan[n]) == site.manifest.integrations[i].extension
    {
      TakerAnswers(site, key, now, plan[n], response, call);
    }
  }

  lemma PlanHasCommands(m: Manifest) returns (d: nat, s: nat)
    ensures d < |L.UpStages(m)| && L.UpStages(m)[d] == L.Directory
    ensures s < |L.UpStages(m)| && L.UpStages(m)[s] == L.Realize
  {
    var before := L.GateStages(m) + L.CreateStages(m);
    d := |L.BootstrapStages(m)|;
    s := d + 1 + |L.Stages(m, "prepare", 0)|;
    assert L.ApplyStages(m)[d] == L.Directory && L.ApplyStages(m)[s] == L.Realize;
    assert L.UpStages(m)[|before| + d] == L.ApplyStages(m)[d] && L.UpStages(m)[|before| + s] == L.ApplyStages(m)[s];
    d, s := |before| + d, |before| + s;
  }

  /** The report begins with the host where there is no provider to create one. */
  lemma FinishedUpShowsHost(site: Site, key: string, w: World, now: World, r: L.Reported)
    requires CameThrough(site, key, w, now, r)
    ensures L.ExistingHost in r.value.results <==> site.manifest.provider.None?
    ensures site.manifest.provider.None? ==> r.value.results != [] && r.value.results[0] == L.ExistingHost
  {
    CameThroughFinished(site, key, w, now, r);
    var walked := L.Walk(L.Performing(site, Some(key)), w, L.UpStages(site.manifest));
    var shown := L.Shown(L.UpStages(site.manifest), walked.answers);
    forall item | item in shown ensures item.Step? {
      var i :| 0 <= i < |shown| && shown[i] == item;
    }
    if site.manifest.provider.None? {
      assert r.value.results == [L.ExistingHost] + shown;
      assert r.value.results[0] == L.ExistingHost;
    } else {
      assert r.value.results == [] + shown;
    }
  }

  /** The report shows the directory, changed if it had to be made. */
  lemma FinishedUpShowsDirectory(site: Site, key: string, w: World, now: World, r: L.Reported)
    requires CameThrough(site, key, w, now, r)
    ensures CallSettled(now.files, StageCall(site, key, "directory"))
    ensures exists response :: L.Step("directory", response) in r.value.results
              && IsPrepared(response, ResponseOf(now.files, StageCall(site, key, "directory")))
  {
    var d, s := PlanHasCommands(site.manifest);
    PlannedStage(site, key, w, now, r, d);
  }

  /** And the shell, with the state that is then applied. */
  lemma FinishedUpShowsShell(site: Site, key: string, w: World, now: World, r: L.Reported)
    requires CameThrough(site, key, w, now, r)
    ensures exists response :: L.Step("devenv", response) in r.value.results && now.applied == Some(response.data)
  {
    var d, s := PlanHasCommands(site.manifest);
    PlannedStage(site, key, w, now, r, s);
  }

  /* A refused plan */

  /** A connection that is to be registered but is no integration: nothing happens. */
  lemma UnintegratedIsRefused(site: Site, key: Option<string>, w: World)
    requires var m := site.manifest;
             m.connection.Some? && m.Supports(m.connection.value.extension, "register")
             && m.connection.value !in m.integrations
    ensures L.Walk(L.Performing(site, key), w, L.UpStages(site.manifest))
         == L.Walked(w, [], L.Broken(ConnectionNotIntegrated))
  {
    assert L.UpStages(site.manifest)[0] == L.Abort(ConnectionNotIntegrated);
  }

  /** Two bootstraps: the provider creates, and nothing else happens. */
  lemma TwoBootstrapsAreRefused(site: Site, key: Option<string>, w: World, i: nat, k: nat)
    requires i < k < |site.manifest.integrations| && Boots(site.manifest, i) && Boots(site.manifest, k)
    requires var m := site.manifest;
             m.connection.Some? && m.Supports(m.connection.value.extension, "register") ==>
               m.connection.value in m.integrations
    ensures var m, walked := site.manifest, L.Walk(L.Performing(site, key), w, L.UpStages(site.manifest));
            match m.provider
            case None => walked == L.Walked(w, [], L.Broken(MultipleBootstrap))
            case Some(binding) =>
              var (created, reply) := Called(site, w, key, binding, "create", Position(m.integrations, binding),
                                             NO_INPUT, None);
              && walked.world == created
              && (L.Passes(reply) ==> walked.stop == L.Broken(MultipleBootstrap) && walked.answers == [reply.value])
              && (reply.Success? && !L.Passes(reply) ==> walked.stop.Incomplete?)
              && (reply.Failure? ==> walked.stop == L.Broken(reply.error))
  {
    var m, perform, plan := site.manifest, L.Performing(site, key), L.UpStages(site.manifest);
    TwoBootstrapsFound(m, i, k);
    assert L.GateStages(m) == [];
    assert L.ApplyStages(m)[0] == L.Abort(MultipleBootstrap);
    if m.provider.None? {
      assert plan[0] == L.Abort(MultipleBootstrap);
    } else {
      assert plan[0] == L.Integrate(m.provider.value, "create", Position(m.integrations, m.provider.value));
      assert plan[1..][0] == L.Abort(MultipleBootstrap);
    }
  }

  /* Realizing the shell */

  /** The profile the shell was built as, and the derivation its identity names. */
  predicate Realizes(site: Site, shell: AdapterResponse, identity: AdapterResponse, profile: string, path: string) {
    && shell.data.At("stdout").String? && profile == Trim(shell.data.At("stdout").s)
    && StartsWith(profile, "/nix/store/") && '\n' !in profile
    && identity.data.At("stdout").String? && site.parse(Trim(identity.data.At("stdout").s)).Some?
    && site.parse(Trim(identity.data.At("stdout").s)).value.At("shell.drvPath") == String(path)
  }

  /**
   * Realizing passes exactly if shell and identity are complete on record and say a store path and a derivation; both
   * become the applied state, and the shell's answer counts as changed exactly if they were not that already.
   */
  lemma RealizedIsApplied(site: Site, w: World, key: string)
    requires MutationKey(Some(key)).Success? && L.Passes(L.Realized(site, w, Some(key)).1)
    ensures var (after, reply) := L.Realized(site, w, Some(key));
            var shell, identity := StageCall(site, key, "shell"), StageCall(site, key, "identity");
            && CallSettled(after.files, shell) && CallSettled(after.files, identity)
            && after.applied.Some? && reply.value.data == after.applied.value
            && reply.value.status == (if w.applied == after.applied then Ready else Changed)
            && reply.value.requestId == ResponseOf(after.files, shell).requestId
            && after.applied.value.At("package_profile").String? && after.applied.value.At("shell_derivation").String?
            && Realizes(site, ResponseOf(after.files, shell), ResponseOf(after.files, identity),
                        after.applied.value.At("package_profile").s, after.applied.value.At("shell_derivation").s)
  {
    var shelling, identifying := StageInvocation(site, key, "shell"), StageInvocation(site, key, "identity");
    var (shelled, shell) := Saved(site, w, shelling);
    var (identified, identity) := Saved(site, shelled, identifying);
    PassingIsSettled(site, w, shelling);
    PassingIsSettled(site, shelled, identifying);
    SavedKeepsSettled(site, shelled, identifying, shelling.call);
    SavedKeepsApplied(site, w, shelling);
    SavedKeepsApplied(site, shelled, identifying);
    ConcludedSays(site, identified, shell.value, identity.value);
  }

  /** What shell and identity come to, once both passed. */
  lemma ConcludedSays(site: Site, w: World, shell: AdapterResponse, identity: AdapterResponse)
    requires L.Profile(shell).Success?
    requires L.Concluded(site, w, shell, L.Profile(shell).value, identity).1.Success?
    ensures var (after, reply) := L.Concluded(site, w, shell, L.Profile(shell).value, identity);
            && after.files == w.files && after.applied.Some? && reply.value.data == after.applied.value
            && reply.value.status == (if w.applied == after.applied then Ready else Changed)
            && reply.value.requestId == shell.requestId
            && after.applied.value.At("package_profile").String? && after.applied.value.At("shell_derivation").String?
            && Realizes(site, shell, identity, after.applied.value.At("package_profile").s,
                        after.applied.value.At("shell_derivation").s)
  {
  }

  /** What does not pass leaves the applied state alone. */
  lemma UnrealizedIsNotApplied(site: Site, w: World, key: string)
    requires MutationKey(Some(key)).Success? && !L.Passes(L.Realized(site, w, Some(key)).1)
    ensures L.Realized(site, w, Some(key)).0.applied == w.applied
  {
    var shelling := StageInvocation(site, key, "shell");
    SavedKeepsApplied(site, w, shelling);
    SavedKeepsApplied(site, Saved(site, w, shelling).0, StageInvocation(site, key, "identity"));
  }

  /* The status of a report */

  function Severity(status: Status): nat {
    match status
    case Ready => 0
    case Changed => 1
    case Pending => 2
    case Unsupported => 3
    case Failed => 4
  }

  /** A report has the worst status of its answers, and is ready without any. */
  lemma StatusIsWorst(results: seq<L.Item>)
    ensures var report := L.Aggregate(results);
            && report.results == results
            && (forall i :: 0 <= i < |results| && results[i].Step? ==>
                  Severity(results[i].response.status) <= Severity(report.status))
            && (report.status == Ready
                || exists i :: 0 <= i < |results| && results[i].Step? && results[i].response.status == report.status)
  {
    var report := L.Aggregate(results);
    forall i | 0 <= i < |results| && results[i].Step?
      ensures Severity(results[i].response.status) <= Severity(report.status)
    {
      assert L.SomeStatus(results, results[i].response.status);
    }
  }
}
