/** What retrying `up` under the same key does: complete stages are passed over, the rest is taken up again. */
module LifecycleRetries {
  import opened Wrappers
  import opened Protocol
  import opened Receipts
  import opened Dispatch
  import opened Lifecycle

  /** Every operation the lifecycle uses leaves a receipt. */
  predicate IsSaved(m: Manifest, stage: Stage) {
    match stage
    case Integrate(binding, operation, _) => m.Supports(binding.extension, operation) ==>
      m.Mutating(binding.extension, operation)
    case _ => true
  }

  predicate CallSettled(files: Files, call: Call) {
    && call.requestId in files && files[call.requestId].fingerprint == call.fingerprint
    && files[call.requestId].response.Some? && files[call.requestId].response.value.Complete()
  }

  function ResponseOf(files: Files, call: Call): AdapterResponse
    requires CallSettled(files, call)
  {
    files[call.requestId].response.value
  }

  predicate RealizeSettled(site: Site, w: World, key: string) {
    var shell, identity := StageCall(site, key, "shell"), StageCall(site, key, "identity");
    && CallSettled(w.files, shell) && CallSettled(w.files, identity)
    && var profile, derivation := Profile(ResponseOf(w.files, shell)), Derivation(site, ResponseOf(w.files, identity));
       profile.Success? && derivation.Success? && w.applied == Some(AppliedState(profile.value, derivation.value))
  }

  /** The stage is complete on record. */
  predicate StageSettled(site: Site, key: string, w: World, stage: Stage) {
    match stage
    case Integrate(binding, operation, index) =>
      && site.manifest.Mutating(binding.extension, operation)
      && CallSettled(w.files, BindingCall(site, key, binding, operation, index, NO_INPUT, None))
    case Directory => CallSettled(w.files, StageCall(site, key, "directory"))
    case Realize => RealizeSettled(site, w, key)
    case Abort(_) => false
  }

  lemma SettledIsReplayed(site: Site, w: World, inv: Invocation)
    requires CallSettled(w.files, inv.call)
    ensures Saved(site, w, inv) == (w, Success(ResponseOf(w.files, inv.call)))
  {
  }

  lemma SavedKeepsSettled(site: Site, w: World, inv: Invocation, call: Call)
    requires CallSettled(w.files, call)
    ensures var after := Saved(site, w, inv).0;
            && CallSettled(after.files, call) && ResponseOf(after.files, call) == ResponseOf(w.files, call)
            && after.applied == w.applied
  {
  }

  lemma SavedKeepsApplied(site: Site, w: World, inv: Invocation)
    ensures Saved(site, w, inv).0.applied == w.applied
  {
  }

  lemma PassingIsSettled(site: Site, w: World, inv: Invocation)
    requires Passes(Saved(site, w, inv).1)
    ensures var (after, reply) := Saved(site, w, inv);
            CallSettled(after.files, inv.call) && ResponseOf(after.files, inv.call) == reply.value
  {
  }

  lemma RealizeIsReplayed(site: Site, key: string, w: World)
    requires Dispatch.MutationKey(Some(key)).Success? && RealizeSettled(site, w, key)
    ensures Realized(site, w, Some(key)).0 == w && Passes(Realized(site, w, Some(key)).1)
  {
    SettledIsReplayed(site, w, Invocation(StageCall(site, key, "shell"), NO_INPUT, NO_INPUT, None));
    SettledIsReplayed(site, w, Invocation(StageCall(site, key, "identity"), NO_INPUT, NO_INPUT, None));
  }

  function StageInvocation(site: Site, key: string, stage: string): Invocation {
    Invocation(StageCall(site, key, stage), NO_INPUT, NO_INPUT, None)
  }

  function SetupInvocation(site: Site, key: string, stage: Stage): Invocation
    requires stage.Integrate?
  {
    Invocation(BindingCall(site, key, stage.binding, stage.operation, stage.index, NO_INPUT, None),
               stage.binding.config, NO_INPUT, None)
  }

  /** Where a settled stage stands in the files, whatever else the world holds. */
  lemma SettledByFiles(site: Site, key: string, w: World, after: World, stage: Stage)
    requires StageSettled(site, key, w, stage) && after.applied == w.applied
    requires forall call :: CallSettled(w.files, call) ==>
               CallSettled(after.files, call) && ResponseOf(after.files, call) == ResponseOf(w.files, call)
    ensures StageSettled(site, key, after, stage)
  {
  }

  lemma SaveKeepsStages(site: Site, key: string, w: World, inv: Invocation, stage: Stage)
    requires StageSettled(site, key, w, stage)
    ensures StageSettled(site, key, Saved(site, w, inv).0, stage)
  {
    var after := Saved(site, w, inv).0;
    forall call | CallSettled(w.files, call)
      ensures CallSettled(after.files, call) && ResponseOf(after.files, call) == ResponseOf(w.files, call)
    {
      SavedKeepsSettled(site, w, inv, call);
    }
    SavedKeepsApplied(site, w, inv);
    SettledByFiles(site, key, w, after, stage);
  }

  lemma RealizeKeepsOthers(site: Site, key: string, w: World, other: Stage)
    requires MutationKey(Some(key)).Success? && StageSettled(site, key, w, other) && !other.Realize?
    ensures StageSettled(site, key, Realized(site, w, Some(key)).0, other)
  {
    var (shelled, shell) := Saved(site, w, StageInvocation(site, key, "shell"));
    SaveKeepsStages(site, key, w, StageInvocation(site, key, "shell"), other);
    SaveKeepsStages(site, key, shelled, StageInvocation(site, key, "identity"), other);
  }

  /** No stage unsettles another. */
  lemma StagesStaySettled(site: Site, key: string, w: World, stage: Stage, other: Stage)
    requires MutationKey(Some(key)).Success? && StageSettled(site, key, w, other)
    ensures StageSettled(site, key, Performed(site, w, Some(key), stage).0, other)
  {
    match stage
    case Integrate(binding, operation, index) =>
      if site.manifest.Mutating(binding.extension, operation) {
        SaveKeepsStages(site, key, w, SetupInvocation(site, key, stage), other);
      } else {
        SettledByFiles(site, key, w, Performed(site, w, Some(key), stage).0, other);
      }
    case Directory => SaveKeepsStages(site, key, w, StageInvocation(site, key, "directory"), other);
    case Realize =>
      if other.Realize? {
        RealizeIsReplayed(site, key, w);
      } else {
        RealizeKeepsOthers(site, key, w, other);
      }
    case Abort(_) =>
  }

  lemma PassedRealizeIsSettled(site: Site, key: string, w: World)
    requires MutationKey(Some(key)).Success? && Passes(Realized(site, w, Some(key)).1)
    ensures RealizeSettled(site, Realized(site, w, Some(key)).0, key)
  {
    var shelling, identifying := StageInvocation(site, key, "shell"), StageInvocation(site, key, "identity");
    var shelled := Saved(site, w, shelling).0;
    PassingIsSettled(site, w, shelling);
    PassingIsSettled(site, shelled, identifying);
    SavedKeepsSettled(site, shelled, identifying, shelling.call);
  }

  /** A stage that passed is settled. */
  lemma PassedStageIsSettled(site: Site, key: string, w: World, stage: Stage)
    requires MutationKey(Some(key)).Success? && IsSaved(site.manifest, stage)
    requires Passes(Performed(site, w, Some(key), stage).1)
    ensures StageSettled(site, key, Performed(site, w, Some(key), stage).0, stage)
  {
    match stage
    case Integrate(binding, operation, index) => PassingIsSettled(site, w, SetupInvocation(site, key, stage));
    case Directory => PassingIsSettled(site, w, StageInvocation(site, key, "directory"));
    case Realize => PassedRealizeIsSettled(site, key, w);
    case Abort(_) =>
  }

  lemma SettledStageIsReplayed(site: Site, key: string, w: World, stage: Stage)
    requires MutationKey(Some(key)).Success? && StageSettled(site, key, w, stage)
    ensures Performed(site, w, Some(key), stage).0 == w && Passes(Performed(site, w, Some(key), stage).1)
  {
    match stage
    case Integrate(binding, operation, index) => SettledIsReplayed(site, w, SetupInvocation(site, key, stage));
    case Directory => SettledIsReplayed(site, w, StageInvocation(site, key, "directory"));
    case Realize => RealizeIsReplayed(site, key, w);
  }

  /* Rows of stages */

  /** What a stage does to the record, whichever stage and record it is. */
  ghost predicate Resumable(perform: Perform, settled: (World, Stage) -> bool, saved: Stage -> bool) {
    && (forall w, stage :: settled(w, stage) ==> perform(w, stage).0 == w && Passes(perform(w, stage).1))
    && (forall w, stage, other :: settled(w, other) ==> settled(perform(w, stage).0, other))
    && (forall w, stage :: saved(stage) && Passes(perform(w, stage).1) ==> settled(perform(w, stage).0, stage))
  }

  function Settling(site: Site, key: string): (World, Stage) -> bool {
    (w: World, stage: Stage) => StageSettled(site, key, w, stage)
  }

  function Saving(m: Manifest): Stage -> bool {
    (stage: Stage) => IsSaved(m, stage)
  }

  lemma LifecycleIsResumable(site: Site, key: string)
    requires MutationKey(Some(key)).Success?
    ensures Resumable(Performing(site, Some(key)), Settling(site, key), Saving(site.manifest))
  {
    var perform, settled, saved := Performing(site, Some(key)), Settling(site, key), Saving(site.manifest);
    forall w, stage | settled(w, stage) ensures perform(w, stage).0 == w && Passes(perform(w, stage).1) {
      SettledStageIsReplayed(site, key, w, stage);
    }
    forall w, stage, other | settled(w, other) ensures settled(perform(w, stage).0, other) {
      StagesStaySettled(site, key, w, stage, other);
    }
    forall w, stage | saved(stage) && Passes(perform(w, stage).1) ensures settled(perform(w, stage).0, stage) {
      PassedStageIsSettled(site, key, w, stage);
    }
  }

  predicate AllSettled(settled: (World, Stage) -> bool, w: World, stages: seq<Stage>) {
    forall i :: 0 <= i < |stages| ==> settled(w, stages[i])
  }

  lemma {:induction false} WalkKeepsSettled(perform: Perform, settled: (World, Stage) -> bool, saved: Stage -> bool,
                                            w: World, stages: seq<Stage>, other: Stage)
    requires Resumable(perform, settled, saved) && settled(w, other)
    ensures settled(Walk(perform, w, stages).world, other)
    decreases |stages|
  {
    if stages != [] {
      WalkKeepsSettled(perform, settled, saved, perform(w, stages[0]).0, stages[1..], other);
    }
  }

  /** The stages a walk passed. */
  function Passed(perform: Perform, w: World, stages: seq<Stage>): (k: nat)
    ensures k <= |stages|
  {
    var walked := Walk(perform, w, stages);
    if walked.stop.Incomplete? && walked.answers != [] then |walked.answers| - 1 else |walked.answers|
  }

  /** Everything a walk passed is settled when it ends, however it ends. */
  lemma {:induction false} WalkSettles(perform: Perform, settled: (World, Stage) -> bool, saved: Stage -> bool,
                                       w: World, stages: seq<Stage>)
    requires Resumable(perform, settled, saved) && forall i :: 0 <= i < |stages| ==> saved(stages[i])
    ensures AllSettled(settled, Walk(perform, w, stages).world, stages[..Passed(perform, w, stages)])
    decreases |stages|
  {
    if stages != [] && Passes(perform(w, stages[0]).1) {
      var after := perform(w, stages[0]).0;
      assert saved(stages[0]);
      WalkSettles(perform, settled, saved, after, stages[1..]);
      WalkKeepsSettled(perform, settled, saved, after, stages[1..], stages[0]);
      WalkAnswers(perform, after, stages[1..]);
      var k := Passed(perform, after, stages[1..]);
      assert Passed(perform, w, stages) == k + 1;
      assert stages[..k + 1] == [stages[0]] + stages[1..][..k];
    }
  }

  /** A settled row is passed over: the world stays and the walk goes on behind it. */
  lemma {:induction false} SettledRowIsSkipped(perform: Perform, settled: (World, Stage) -> bool, saved: Stage -> bool,
                                               w: World, stages: seq<Stage>, k: nat)
    requires Resumable(perform, settled, saved) && k <= |stages| && AllSettled(settled, w, stages[..k])
    ensures Walk(perform, w, stages).world == Walk(perform, w, stages[k..]).world
    ensures Walk(perform, w, stages).stop == Walk(perform, w, stages[k..]).stop
    decreases k
  {
    if k == 0 {
      assert stages[0..] == stages;
    } else {
      assert stages[..k][0] == stages[0];
      assert stages[1..][..k - 1] == stages[..k][1..];
      assert stages[1..][k - 1..] == stages[k..];
      assert perform(w, stages[0]).0 == w;
      SettledRowIsSkipped(perform, settled, saved, w, stages[1..], k - 1);
    }
  }

  predicate SetupIsSaved(m: Manifest) {
    forall extension :: extension in m.extensions ==>
      forall operation :: operation in SETUP_OPERATIONS && m.Supports(extension, operation) ==>
        m.Mutating(extension, operation)
  }

  const SETUP_OPERATIONS: set<string> := {"create", "bootstrap", "prepare", "apply", "register"}

  lemma {:induction false} StagesAreSetup(m: Manifest, operation: string, i: nat)
    requires i <= |m.integrations| && operation in SETUP_OPERATIONS && SetupIsSaved(m)
    ensures forall stage :: stage in Stages(m, operation, i) ==> IsSaved(m, stage)
    decreases |m.integrations| - i
  {
    if i < |m.integrations| {
      StagesAreSetup(m, operation, i + 1);
    }
  }

  lemma {:induction false} BootstrapsAreSupported(m: Manifest, bindings: seq<Binding>)
    ensures forall binding :: binding in Bootstraps(m, bindings) ==> IsBootstrap(m, binding)
  {
    if bindings != [] {
      BootstrapsAreSupported(m, bindings[1..]);
    }
  }

  lemma UpIsSaved(m: Manifest)
    requires SetupIsSaved(m)
    ensures forall i :: 0 <= i < |UpStages(m)| ==> Saving(m)(UpStages(m)[i])
  {
    StagesAreSetup(m, "prepare", 0);
    StagesAreSetup(m, "apply", 0);
    StagesAreSetup(m, "register", 0);
    BootstrapsAreSupported(m, m.integrations);
    var found := Bootstraps(m, m.integrations);
    assert |found| > 0 ==> found[0] in found;
    assert forall stage :: stage in BootstrapStages(m) ==> IsSaved(m, stage);
    assert forall stage :: stage in CreateStages(m) ==> IsSaved(m, stage);
    assert forall stage :: stage in UpStages(m) ==> IsSaved(m, stage);
  }

  /** The report of `up` is ok exactly when every stage of the plan was complete. */
  lemma UpIsOkIffFinished(site: Site, key: Option<string>, w: World)
    ensures var walked := Walk(Performing(site, key), w, UpStages(site.manifest));
            var r := Told(UpStages(site.manifest), walked, Preamble(site.manifest));
            r.Success? && r.value.ok <==> walked.stop.Finished?
  {
    var walked := Walk(Performing(site, key), w, UpStages(site.manifest));
    if !walked.stop.Broken? {
      ReportOk(Performing(site, key), w, UpStages(site.manifest), Preamble(site.manifest));
    }
  }

  /** A retry goes straight to the first stage that was not complete, without calling any adapter before it. */
  lemma RetryResumes(site: Site, key: string, w: World)
    requires SetupIsSaved(site.manifest) && MutationKey(Some(key)).Success?
    ensures var perform, plan := Performing(site, Some(key)), UpStages(site.manifest);
            var left, k := Walk(perform, w, plan).world, Passed(perform, w, plan);
            && Walk(perform, left, plan).world == Walk(perform, left, plan[k..]).world
            && Walk(perform, left, plan).stop == Walk(perform, left, plan[k..]).stop
  {
    var perform, plan := Performing(site, Some(key)), UpStages(site.manifest);
    LifecycleIsResumable(site, key);
    UpIsSaved(site.manifest);
    WalkSettles(perform, Settling(site, key), Saving(site.manifest), w, plan);
    SettledRowIsSkipped(perform, Settling(site, key), Saving(site.manifest), Walk(perform, w, plan).world, plan,
                        Passed(perform, w, plan));
  }

  /** After an `up` that finished, `up` again finishes too and leaves every receipt, adapter and record alone. */
  lemma UpAgainDoesNothing(site: Site, key: string, w: World)
    requires SetupIsSaved(site.manifest) && MutationKey(Some(key)).Success?
    requires Walk(Performing(site, Some(key)), w, UpStages(site.manifest)).stop.Finished?
    ensures var perform, plan := Performing(site, Some(key)), UpStages(site.manifest);
            var left := Walk(perform, w, plan).world;
            Walk(perform, left, plan).world == left && Walk(perform, left, plan).stop.Finished?
  {
    var perform, plan := Performing(site, Some(key)), UpStages(site.manifest);
    RetryResumes(site, key, w);
    WalkAnswers(perform, w, plan);
    assert plan[|plan|..] == [];
  }
}
