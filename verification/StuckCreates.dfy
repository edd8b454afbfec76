/** A create that answered `pending` without an execution to look at: no retry finishes it and no `destroy` takes it. */
module StuckCreates {
  import opened Wrappers
  import opened Protocol
  import opened Receipts
  import opened Dispatch
  import opened Teardown
  import opened TeardownSafety
  import R = ReceiptProtocol

  /** An owned create that is not complete keeps `destroy` from anything: it reports that answer and calls nobody. */
  lemma IncompleteCreateIsNotTornDown(site: Site, w: World, key: Option<string>, binding: Binding, k: nat)
    requires site.manifest.ephemeral && site.manifest.provider == Some(binding)
    requires NewestOwned(Listing(site, w), CreateIdentity(site.manifest, binding), k)
    requires Listing(site, w)[k].content.record.fingerprint == CreateFingerprint(site, binding)
    requires !Listing(site, w)[k].content.record.response.value.Complete()
    ensures Destroyed(site, w, key).0 == w
    ensures Destroyed(site, w, key).1.Success? && !Destroyed(site, w, key).1.value.ok
  {
    NewestOwnedIsFound(site, w, binding, k);
    var items := [L.Step(binding.extension, Listing(site, w)[k].content.record.response.value)];
    L.AggregateOk(items);
    assert !items[0].response.Complete();
  }

  predicate IsStuck(response: AdapterResponse) {
    response.status.Pending? && response.executionId.None?
  }

  /**
   * Whatever is called how often, the store hands no retry of such a create to its adapter again, and no `destroy`
   * that goes by its receipt acts.
   */
  lemma StuckForGood(s: R.State, steps: seq<R.Step>, t: R.State, call: Call, response: AdapterResponse,
                     site: Site, w: World, key: Option<string>, binding: Binding, k: nat)
    requires R.Inv(s) && R.Reaches(s, steps, t) && R.Quiet(s, call.requestId) && IsStuck(response)
    requires call.requestId in s.files && s.files[call.requestId] == Record(call, Response, Some(response))
    requires site.manifest.ephemeral && site.manifest.provider == Some(binding)
    requires call.identity == CreateIdentity(site.manifest, binding)
    requires call.fingerprint == CreateFingerprint(site, binding)
    requires NewestOwned(Listing(site, w), call.identity, k)
    requires Listing(site, w)[k].content.record == Record(call, Response, Some(response))
    ensures call.requestId in t.files && t.files[call.requestId] == Record(call, Response, Some(response))
    ensures |s.history| <= |t.history|
    ensures forall e :: e in t.history[|s.history|..] && e.call.requestId == call.requestId ==>
              e.Returned? && e.outcome.Failure?
    ensures Destroyed(site, w, key).0 == w
    ensures Destroyed(site, w, key).1.Success? && !Destroyed(site, w, key).1.value.ok
  {
    assert R.DeadEnd(s.files[call.requestId]);
    R.DeadEndIsRefusedForever(s, steps, t, call.requestId);
    IncompleteCreateIsNotTornDown(site, w, key, binding, k);
  }
}
