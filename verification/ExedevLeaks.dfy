/** What becomes of an exe.dev VM once the provider's answers go through the receipt store and on to `destroy`. */
module ExedevLeaks {
  import opened Wrappers
  import opened Protocol
  import opened Receipts
  import opened Dispatch
  import opened Teardown
  import opened TeardownSafety
  import opened StuckCreates
  import opened CreateThenDestroy
  import P = ExedevCreate
  import D = ExedevDestroy

  /* A create that answers pending */

  /** The store refuses every retry of a create that answered pending, so no retry can finish it. */
  lemma PendingCreateIsADeadEnd(files: Files, call: Call, spec: P.Spec, answer: P.Answer)
    requires answer.status.Pending? && Decide(files, call).Invoke?
    ensures var recorded := Applied(files, call, Says(P.AsResponse(call.requestId, spec, answer))).0;
            && call.requestId in recorded && R.DeadEnd(recorded[call.requestId])
            && Decide(recorded, call) == Refuse(PendingWithoutExecution)
  {
  }

  /** Of all that may be seen after a `new`, only a VM with differences lets the create be tried again. */
  lemma CreatedIsRetriedIff(files: Files, call: Call, spec: P.Spec, after: P.Observed)
    requires Decide(files, call).Invoke?
    ensures var recorded := Applied(files, call, Says(P.AsResponse(call.requestId, spec, P.CreatedAnswer(after)))).0;
            Decide(recorded, call).Invoke? <==> after.Drift?
  {
  }

  /** What a create leaves on record whose VM is still booting when its budget ends. */
  function SlowReceipt(call: Call, spec: P.Spec, vm: P.Identity): ReceiptRecord {
    Record(call, Response, Some(P.AsResponse(call.requestId, spec, P.Answer(Pending, true, Some(vm)))))
  }

  /** The provider really answers so, and the store records it. */
  lemma SlowCreateLeaves(files: Files, call: Call, spec: P.Spec, vm: P.Identity)
    requires !spec.adopt && call.requestId !in files
    ensures exists steps, t, answer ::
              && P.Reaches(P.INIT, steps, t) && P.HasNew(t.log) && t.log[|t.log| - 1] == P.Replied(answer)
              && Applied(files, call, Says(P.AsResponse(call.requestId, spec, answer))).0
                 == files[call.requestId := SlowReceipt(call, spec, vm)]
  {
    var made := P.Made(spec, P.NotReady(vm));
    var steps := P.MakeReaches(spec, P.NotReady(vm));
    assert made.log[1] == P.New(spec) && made.log[3] == P.Replied(P.Answer(Pending, true, Some(vm)));
  }

  /**
   * A VM that was slow to boot is stuck: whatever is called how often, the store hands no retry of that create to the
   * provider again, and no `destroy` acts on it.
   */
  lemma SlowVmIsStuck(s: R.State, steps: seq<R.Step>, t: R.State, call: Call, spec: P.Spec, vm: P.Identity,
                      site: Site, w: World, key: Option<string>, binding: Binding, k: nat)
    requires R.Inv(s) && R.Reaches(s, steps, t) && R.Quiet(s, call.requestId)
    requires call.requestId in s.files && s.files[call.requestId] == SlowReceipt(call, spec, vm)
    requires site.manifest.ephemeral && site.manifest.provider == Some(binding)
    requires call.identity == CreateIdentity(site.manifest, binding)
    requires call.fingerprint == CreateFingerprint(site, binding)
    requires NewestOwned(Listing(site, w), call.identity, k)
    requires Listing(site, w)[k].content.record == SlowReceipt(call, spec, vm)
    ensures call.requestId in t.files && t.files[call.requestId] == SlowReceipt(call, spec, vm)
    ensures |s.history| <= |t.history|
    ensures forall e :: e in t.history[|s.history|..] && e.call.requestId == call.requestId ==>
              e.Returned? && e.outcome.Failure?
    ensures Destroyed(site, w, key).0 == w
    ensures Destroyed(site, w, key).1.Success? && !Destroyed(site, w, key).1.value.ok
  {
    var response := P.AsResponse(call.requestId, spec, P.Answer(Pending, true, Some(vm)));
    StuckForGood(s, steps, t, call, response, site, w, key, binding, k);
  }

  /* A create that sees another shape first */

  /** What a retry that the provider answers `failed` may have seen. */
  predicate Fails(observed: P.Observed) {
    observed.Drift? || observed.Unknown?
  }

  predicate AllFail(seen: seq<P.Observed>) {
    forall i :: 0 <= i < |seen| ==> Fails(seen[i])
  }

  /** The provider after retries that saw these. */
  function RetriedAll(s: P.State, spec: P.Spec, seen: seq<P.Observed>): P.State {
    if seen == [] then s else P.Retried(RetriedAll(s, spec, seen[..|seen| - 1]), spec, seen[|seen| - 1])
  }

  /** A create that sees a VM with differences after its `new`, retries that see these, one that sees it as asked. */
  function Drifted(spec: P.Spec, vm: P.Identity, seen: seq<P.Observed>): P.State {
    P.Retried(RetriedAll(P.Made(spec, P.Drift(vm)), spec, seen), spec, P.Present(vm))
  }

  lemma {:induction false} RetriesReach(spec: P.Spec, vm: P.Identity, seen: seq<P.Observed>)
    returns (steps: seq<P.Step>)
    requires !spec.adopt && AllFail(seen)
    ensures P.Reaches(P.INIT, steps, RetriedAll(P.Made(spec, P.Drift(vm)), spec, seen))
    ensures var m := RetriedAll(P.Made(spec, P.Drift(vm)), spec, seen);
            m.pc.Idle? && m.file == P.Receipt(P.FingerprintOf(spec), if seen == [] then P.Created else P.ObservedPhase)
    decreases |seen|
  {
    if seen == [] {
      steps := P.MakeReaches(spec, P.Drift(vm));
    } else {
      var before, last := seen[..|seen| - 1], seen[|seen| - 1];
      assert Fails(last);
      steps := RetriesReach(spec, vm, before);
      steps := P.RetryReaches(P.INIT, steps, RetriedAll(P.Made(spec, P.Drift(vm)), spec, before), spec, last);
    }
  }

  function Replies(log: seq<P.Event>): seq<P.Answer> {
    if log == [] then []
    else
      var e := log[|log| - 1];
      Replies(log[..|log| - 1]) + if e.Replied? then [e.answer] else []
  }

  lemma OneMore(log: seq<P.Event>, e: P.Event)
    ensures Replies(log + [e]) == Replies(log) + if e.Replied? then [e.answer] else []
  {
    assert (log + [e])[..|log|] == log;
  }

  lemma RepliesGrow(log: seq<P.Event>, observed: P.Observed, answer: P.Answer)
    ensures Replies(log + [P.Saw(observed), P.Replied(answer)]) == Replies(log) + [answer]
  {
    OneMore(log, P.Saw(observed));
    OneMore(log + [P.Saw(observed)], P.Replied(answer));
    assert log + [P.Saw(observed), P.Replied(answer)] == log + [P.Saw(observed)] + [P.Replied(answer)];
  }

  lemma MadeReplies(spec: P.Spec, vm: P.Identity)
    ensures Replies(P.Made(spec, P.Drift(vm)).log) == [P.Answer(Status.Failed, false, Some(vm))]
  {
    var answer := P.Answer(Status.Failed, false, Some(vm));
    OneMore([], P.Saw(P.Missing));
    OneMore([P.Saw(P.Missing)], P.New(spec));
    OneMore([P.Saw(P.Missing)] + [P.New(spec)], P.SawAfter(P.Drift(vm)));
    OneMore([P.Saw(P.Missing)] + [P.New(spec)] + [P.SawAfter(P.Drift(vm))], P.Replied(answer));
    assert [] + [P.Saw(P.Missing)] == [P.Saw(P.Missing)];
    assert P.Made(spec, P.Drift(vm)).log
        == [P.Saw(P.Missing)] + [P.New(spec)] + [P.SawAfter(P.Drift(vm))] + [P.Replied(answer)];
  }

  predicate AllFailed(answers: seq<P.Answer>) {
    forall i :: 0 <= i < |answers| ==> answers[i].status.Failed?
  }

  lemma {:induction false} RetriesFail(spec: P.Spec, vm: P.Identity, seen: seq<P.Observed>)
    requires !spec.adopt && AllFail(seen)
    ensures var m := RetriedAll(P.Made(spec, P.Drift(vm)), spec, seen);
            AllFailed(Replies(m.log)) && |Replies(m.log)| == |seen| + 1
    decreases |seen|
  {
    if seen == [] {
      MadeReplies(spec, vm);
    } else {
      var before, last := seen[..|seen| - 1], seen[|seen| - 1];
      assert Fails(last);
      var m := RetriedAll(P.Made(spec, P.Drift(vm)), spec, before);
      RetriesFail(spec, vm, before);
      RepliesGrow(m.log, last, P.ObservedAnswer(last, m.file));
    }
  }

  /** The provider claims the VM it made in the end exactly if no retry saw anything else in between. */
  lemma DriftingVmAnswers(spec: P.Spec, vm: P.Identity, seen: seq<P.Observed>)
    requires !spec.adopt && AllFail(seen)
    ensures exists steps :: P.Reaches(P.INIT, steps, Drifted(spec, vm, seen))
    ensures var answers := Replies(Drifted(spec, vm, seen).log);
            && |answers| == |seen| + 2 && AllFailed(answers[..|seen| + 1])
            && answers[|seen| + 1] == P.Answer(Ready, seen == [], Some(vm))
  {
    var m := RetriedAll(P.Made(spec, P.Drift(vm)), spec, seen);
    var steps := RetriesReach(spec, vm, seen);
    steps := P.RetryReaches(P.INIT, steps, m, spec, P.Present(vm));
    RetriesFail(spec, vm, seen);
    RepliesGrow(m.log, P.Present(vm), P.ObservedAnswer(P.Present(vm), m.file));
    assert Replies(Drifted(spec, vm, seen).log)[..|seen| + 1] == Replies(m.log);
  }

  /** The receipts after attempts that are answered so. */
  function AfterAttempts(files: Files, call: Call, spec: P.Spec, answers: seq<P.Answer>): Files {
    if answers == [] then files
    else
      var last := answers[|answers| - 1];
      Applied(AfterAttempts(files, call, spec, answers[..|answers| - 1]), call,
              Says(P.AsResponse(call.requestId, spec, last))).0
  }

  function LastReceipt(call: Call, spec: P.Spec, answers: seq<P.Answer>): ReceiptRecord
    requires answers != []
  {
    Record(call, Response, Some(P.AsResponse(call.requestId, spec, answers[|answers| - 1])))
  }

  /** The store hands on every attempt that follows failed ones only, and the last answer is what stays. */
  lemma {:induction false} AttemptsAreRecorded(files: Files, call: Call, spec: P.Spec, answers: seq<P.Answer>)
    requires call.requestId !in files && (answers != [] ==> AllFailed(answers[..|answers| - 1]))
    ensures answers == [] || answers[|answers| - 1].status.Failed? ==>
              Decide(AfterAttempts(files, call, spec, answers), call).Invoke?
    ensures AfterAttempts(files, call, spec, answers)
         == if answers == [] then files else files[call.requestId := LastReceipt(call, spec, answers)]
    decreases |answers|
  {
    if answers != [] {
      var before, response := answers[..|answers| - 1], P.AsResponse(call.requestId, spec, answers[|answers| - 1]);
      if before != [] {
        assert before[|before| - 1].status.Failed?;
        assert AllFailed(before[..|before| - 1]);
      }
      AttemptsAreRecorded(files, call, spec, before);
      var earlier := AfterAttempts(files, call, spec, before);
      FailedAttemptIsRetried(earlier, call, response);
      assert earlier[call.requestId := LastReceipt(call, spec, answers)]
          == files[call.requestId := LastReceipt(call, spec, answers)];
    }
    var now := AfterAttempts(files, call, spec, answers);
    if answers == [] || answers[|answers| - 1].status.Failed? {
      FailedAttemptIsRetried(now, call, P.AsResponse(call.requestId, spec, P.UNCERTAIN));
    }
  }

  /**
   * Such a VM can be torn down exactly if the first retry saw it as asked: otherwise its one create receipt disclaims
   * it, and every `destroy` from then on answers that nothing is owned and calls nobody.
   */
  lemma DriftingVmIsTornDownIff(site: Site, w: World, key: Option<string>, binding: Binding, call: Call, files: Files,
                                spec: P.Spec, vm: P.Identity, seen: seq<P.Observed>)
    requires site.manifest.ephemeral && site.manifest.provider == Some(binding) && !spec.adopt && AllFail(seen)
    requires call.identity == CreateIdentity(site.manifest, binding)
    requires call.fingerprint == CreateFingerprint(site, binding)
    requires call.requestId !in files
    requires w.files == AfterAttempts(files, call, spec, Replies(Drifted(spec, vm, seen).log))
    requires AloneWith(site, w, call)
    ensures Gate(site, w).Success? <==> seen == []
    ensures seen != [] ==> Destroyed(site, w, key) == (w, Failure(NotOwned))
  {
    var answers := Replies(Drifted(spec, vm, seen).log);
    DriftingVmAnswers(spec, vm, seen);
    assert answers[..|answers| - 1] == answers[..|seen| + 1];
    AttemptsAreRecorded(files, call, spec, answers);
    var response := P.AsResponse(call.requestId, spec, P.Answer(Ready, seen == [], Some(vm)));
    AloneSaysOnly(site, w, binding, call, response);
    ClaimsIffOwned(call.requestId, spec, P.Answer(Ready, seen == [], Some(vm)));
    OnlyCreateDecides(site, w, binding, response);
  }

  lemma ClaimsIffOwned(requestId: string, spec: P.Spec, answer: P.Answer)
    ensures ClaimsResource(P.AsResponse(requestId, spec, answer)) <==> answer.owned
  {
    var data := P.AsResponse(requestId, spec, answer).data;
    assert data.At("owned") == Bool(answer.owned) && data.At("resource_id") == String(spec.name);
  }

  /* A `new` that was refused */

  /** The name was taken between look and `new`: the create claims the VM that took it, and its destroy removes it. */
  lemma RefusedNewRemovesAnothersVm(spec: P.Spec, other: P.Identity, s: D.Removal)
    requires !spec.adopt && D.Fresh(s) && s.name == spec.name
    requires s.created == D.Resource(true, Some(spec.name), Some(other))
    ensures exists steps, t, answer ::
              && P.Reaches(P.INIT, steps, t) && P.Refused in t.log && t.log[|t.log| - 1] == P.Replied(answer)
              && answer == P.Answer(Changed, true, Some(other))
    ensures exists steps, t :: D.Follows(s, steps, t) && t.log == [D.Removed(D.Request(None, s.created), other)]
  {
    P.RefusedNewIsClaimed(spec, other);
    var steps, t :| P.Reaches(P.INIT, steps, t)
                    && t.log == [P.Saw(P.Missing), P.New(spec), P.Refused, P.SawAfter(P.Present(other)),
                                 P.Replied(P.Answer(Changed, true, Some(other)))];
    assert t.log[2] == P.Refused;
    D.ClaimedVmIsRemoved(s, other);
  }
}
