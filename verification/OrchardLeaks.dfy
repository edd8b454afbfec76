/** What becomes of an Orchard guest whose create ends before its setup does. */
module OrchardLeaks {
  import opened Wrappers
  import opened Protocol
  import opened Receipts
  import opened Dispatch
  import opened Teardown
  import opened TeardownSafety
  import opened StuckCreates
  import opened CreateThenDestroy
  import O = OrchardCreate

  /** A create as the adapter answers it: every guest is claimed under its name, and no answer names an execution. */
  function AsResponse(requestId: string, name: string, created: O.Created): AdapterResponse {
    var guest := Object(map["name" := String(name), "owned" := Bool(true), "resource_id" := String(name)]);
    match created
    case Existing => AdapterResponse(PROTOCOL_VERSION, requestId, Ready, guest, None, None)
    case Running => AdapterResponse(PROTOCOL_VERSION, requestId, Changed, guest, None, None)
    case Pending => AdapterResponse(PROTOCOL_VERSION, requestId, Pending, guest, Some("not finished"), None)
    case Error => AdapterResponse(PROTOCOL_VERSION, requestId, Failed, Object(map[]), Some("failed"), None)
  }

  /** A guest found running is ready, one that had to be made is a change, and each is claimed under its name. */
  lemma AnswersClaimGuests(requestId: string, name: string, created: O.Created)
    ensures var response := AsResponse(requestId, name, created);
            && response.requestId == requestId
            && (response.status.Ready? <==> created.Existing?) && (response.status.Changed? <==> created.Running?)
            && (response.status.Pending? <==> created.Pending?) && (response.status.Failed? <==> created.Error?)
            && (ClaimsResource(response) <==> !created.Error?)
            && (ClaimsResource(response) ==> response.data.At("resource_id") == String(name))
  {
    if !created.Error? {
      var response := AsResponse(requestId, name, created);
      assert response.data.At("owned") == Bool(true) && response.data.At("resource_id") == String(name);
    }
  }

  /** Once its create is all there is on record, a guest can be torn down exactly if that found or left it running. */
  lemma GuestIsTornDownIff(site: Site, w: World, binding: Binding, call: Call, name: string, created: O.Created)
    requires site.manifest.ephemeral && site.manifest.provider == Some(binding)
    requires call.identity == CreateIdentity(site.manifest, binding)
    requires call.fingerprint == CreateFingerprint(site, binding)
    requires AloneWith(site, w, call)
    requires w.files[call.requestId] == Record(call, Response, Some(AsResponse(call.requestId, name, created)))
    ensures Gate(site, w).Success? <==> created.Existing? || created.Running?
  {
    var response := AsResponse(call.requestId, name, created);
    AloneSaysOnly(site, w, binding, call, response);
    AnswersClaimGuests(call.requestId, name, created);
    OnlyCreateDecides(site, w, binding, response);
  }

  /** A create can be tried again exactly if it failed, and never again exactly if it was still pending. */
  lemma RetriedIff(files: Files, call: Call, name: string, created: O.Created)
    requires Decide(files, call).Invoke?
    ensures var response := AsResponse(call.requestId, name, created);
            var recorded := Applied(files, call, Says(response)).0;
            && (Decide(recorded, call).Invoke? <==> created.Error?)
            && (R.DeadEnd(recorded[call.requestId]) <==> created.Pending?)
            && (created.Pending? <==> IsStuck(response))
  {
  }

  /** And it does stay pending: a guest whose setup outlasts the budget is answered so, within the time bound. */
  lemma SlowSetupIsPending(f: real)
    requires 0.0 <= f < 1.0
    ensures O.Run(O.SlowSetup(f), true).1.Pending? && O.Run(O.SlowSetup(f), true).0.now < 281.0
  {
    O.SlowSetupRuns(f);
  }

  /** Against the advice to run `up` again: no retry reaches the adapter in any run, and no `destroy` acts. */
  lemma PendingGuestIsStuck(s: R.State, steps: seq<R.Step>, t: R.State, call: Call, name: string,
                            site: Site, w: World, key: Option<string>, binding: Binding, k: nat)
    requires R.Inv(s) && R.Reaches(s, steps, t) && R.Quiet(s, call.requestId)
    requires var record := Record(call, Response, Some(AsResponse(call.requestId, name, O.Pending)));
             && call.requestId in s.files && s.files[call.requestId] == record
             && NewestOwned(Listing(site, w), call.identity, k) && Listing(site, w)[k].content.record == record
    requires site.manifest.ephemeral && site.manifest.provider == Some(binding)
    requires call.identity == CreateIdentity(site.manifest, binding)
    requires call.fingerprint == CreateFingerprint(site, binding)
    ensures |s.history| <= |t.history|
    ensures forall e :: e in t.history[|s.history|..] && e.call.requestId == call.requestId ==>
              e.Returned? && e.outcome.Failure?
    ensures Destroyed(site, w, key).0 == w
    ensures Destroyed(site, w, key).1.Success? && !Destroyed(site, w, key).1.value.ok
  {
    StuckForGood(s, steps, t, call, AsResponse(call.requestId, name, O.Pending), site, w, key, binding, k);
  }
}
