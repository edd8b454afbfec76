/** What holds of every `destroy`: the receipt behind it, the order of its calls, and what each cleanup is told. */
module TeardownSafety {
  import opened Wrappers
  import opened Protocol
  import opened Receipts
  import opened Selection
  import opened Dispatch
  import opened Teardown
  import opened Text

  /* The receipt behind the gate */

  /** The directory entry this response was read from. */
  predicate Backs(e: Entry, id: ReceiptIdentity, fingerprint: string, recorded: RecordedResponse) {
    && e.isJson && Answers(e, id) && e.content.record.fingerprint == fingerprint
    && e.content.record.response.value == recorded.response && e.modified == recorded.modified
  }

  /** The owned receipt that comes before every other owned one, and before any that cannot be read. */
  predicate NewestOwned(listing: seq<Entry>, id: ReceiptIdentity, k: nat) {
    && k < |listing| && OwnedAt(listing, id, k)
    && forall i :: 0 <= i < |listing| && i != k && (OwnedAt(listing, id, i) || UnreadableAt(listing, i)) ==>
      Precedes(listing, k, i)
  }

  predicate SomeOwned(listing: seq<Entry>, id: ReceiptIdentity) {
    exists i :: 0 <= i < |listing| && OwnedAt(listing, id, i)
  }

  lemma OwnedCreateIsBacked(site: Site, w: World, binding: Binding) returns (k: nat)
    requires OwnedCreate(site, w, binding).Success?
    ensures var listing, id := Listing(site, w), CreateIdentity(site.manifest, binding);
            && (OwnedCreate(site, w, binding).value.None? ==> !SomeOwned(listing, id))
            && (OwnedCreate(site, w, binding).value.Some? ==>
                  NewestOwned(listing, id, k)
                  && Backs(listing[k], id, CreateFingerprint(site, binding), OwnedCreate(site, w, binding).value.value))
  {
    var listing, id := Listing(site, w), CreateIdentity(site.manifest, binding);
    var found := OwnedSelection(listing, id);
    k := 0;
    if found.Success? && found.value.Some? {
      k :| 0 <= k < |listing| && found.value.value == listing[k] && OwnedAt(listing, id, k)
           && forall i :: 0 <= i < |listing| && i != k && (OwnedAt(listing, id, i) || UnreadableAt(listing, i)) ==>
                            Precedes(listing, k, i);
    }
  }

  lemma LatestCreateIsBacked(site: Site, w: World, binding: Binding) returns (k: nat)
    requires LatestCreate(site, w, binding).Success? && LatestCreate(site, w, binding).value.Some?
    ensures k < |Listing(site, w)|
    ensures Backs(Listing(site, w)[k], CreateIdentity(site.manifest, binding), CreateFingerprint(site, binding),
                  LatestCreate(site, w, binding).value.value)
  {
    var p := StopsAtAnswer(CreateIdentity(site.manifest, binding));
    NewestIsNewest(Listing(site, w), p);
    k := Newest(Listing(site, w), p).value;
  }

  /**
   * `destroy` acts only for an ephemeral environment with a provider, on a complete create receipt with the current
   * fingerprint that claims a resource; the resource has a name exactly when some receipt is owned, and then the
   * receipt is the newest of those.
   */
  lemma GateIsBacked(site: Site, w: World) returns (k: nat)
    requires Gate(site, w).Success?
    ensures var (binding, create) := Gate(site, w).value;
            var listing, id := Listing(site, w), CreateIdentity(site.manifest, binding);
            && site.manifest.ephemeral && site.manifest.provider == Some(binding)
            && create.response.Complete() && ClaimsResource(create.response)
            && k < |listing| && Backs(listing[k], id, CreateFingerprint(site, binding), create)
            && (create.response.data.At("resource_id") != String("") <==> SomeOwned(listing, id))
            && (SomeOwned(listing, id) ==> NewestOwned(listing, id, k))
  {
    var (binding, create) := Gate(site, w).value;
    var listing, id := Listing(site, w), CreateIdentity(site.manifest, binding);
    k := OwnedCreateIsBacked(site, w, binding);
    if OwnedCreate(site, w, binding).value.None? {
      k := LatestCreateIsBacked(site, w, binding);
      assert !OwnedAt(listing, id, k);
    }
  }

  /** The owned create that is picked. */
  lemma NewestOwnedIsFound(site: Site, w: World, binding: Binding, k: nat)
    requires NewestOwned(Listing(site, w), CreateIdentity(site.manifest, binding), k)
    requires Listing(site, w)[k].content.record.fingerprint == CreateFingerprint(site, binding)
    ensures var e := Listing(site, w)[k];
            Created(site, w, binding) == Success(RecordedResponse(e.content.record.response.value, e.modified))
  {
    var listing, id := Listing(site, w), CreateIdentity(site.manifest, binding);
    NewestIsNewest(listing, StopsAtOwned(id));
    assert StopsAtOwned(id)(listing[k]);
    var found := Newest(listing, StopsAtOwned(id)).value;
    assert OwnedAt(listing, id, found) || UnreadableAt(listing, found);
    assert found != k ==> Precedes(listing, k, found);
  }

  /** An owned create on record opens the gate, whatever later creates failed or answered. */
  lemma OwnedReceiptOpensGate(site: Site, w: World, binding: Binding, k: nat)
    requires site.manifest.ephemeral && site.manifest.provider == Some(binding)
    requires NewestOwned(Listing(site, w), CreateIdentity(site.manifest, binding), k)
    requires Listing(site, w)[k].content.record.fingerprint == CreateFingerprint(site, binding)
    requires Listing(site, w)[k].content.record.response.value.Complete()
    ensures var e := Listing(site, w)[k];
            Gate(site, w) == Success((binding, RecordedResponse(e.content.record.response.value, e.modified)))
  {
    NewestOwnedIsFound(site, w, binding, k);
  }

  /** Every create receipt the directory shows can be read and says `response`, and it shows one. */
  ghost predicate OnlyCreateSays(listing: seq<Entry>, id: ReceiptIdentity, fingerprint: string,
                                 response: AdapterResponse)
  {
    && (forall e :: e in listing && e.isJson ==>
          e.content.Readable?
          && (e.content.record.identity == id ==>
                e.content.record.response == Some(response) && e.content.record.fingerprint == fingerprint))
    && exists e :: e in listing && e.isJson && Answers(e, id)
  }

  /** Then that response is what is picked, owned or not. */
  lemma OnlyCreateIsPicked(site: Site, w: World, binding: Binding, response: AdapterResponse)
    requires OnlyCreateSays(Listing(site, w), CreateIdentity(site.manifest, binding), CreateFingerprint(site, binding),
                            response)
    ensures Created(site, w, binding).Success? && Created(site, w, binding).value.response == response
  {
    var listing, id := Listing(site, w), CreateIdentity(site.manifest, binding);
    NewestIsNewest(listing, StopsAtOwned(id));
    NewestIsNewest(listing, StopsAtAnswer(id));
    var e :| e in listing && e.isJson && Answers(e, id);
    assert StopsAtAnswer(id)(e);
    assert listing[Newest(listing, StopsAtAnswer(id)).value] in listing;
    if Newest(listing, StopsAtOwned(id)).Some? {
      assert listing[Newest(listing, StopsAtOwned(id)).value] in listing;
    }
  }

  /** And the gate opens exactly if it is complete and claims a resource. */
  lemma OnlyCreateDecides(site: Site, w: World, binding: Binding, response: AdapterResponse)
    requires site.manifest.ephemeral && site.manifest.provider == Some(binding)
    requires OnlyCreateSays(Listing(site, w), CreateIdentity(site.manifest, binding), CreateFingerprint(site, binding),
                            response)
    ensures Gate(site, w).Success? <==> response.Complete() && ClaimsResource(response)
    ensures Gate(site, w).Success? ==> Gate(site, w).value.0 == binding && Gate(site, w).value.1.response == response
    ensures response.Complete() && !ClaimsResource(response) ==> Gate(site, w) == Failure(Failure(NotOwned))
  {
    OnlyCreateIsPicked(site, w, binding, response);
  }

  /** Where the one create on record claims nothing, `destroy` refuses, and changes and calls nothing. */
  lemma UnownedCreateIsNotTornDown(site: Site, w: World, key: Option<string>, binding: Binding,
                                   response: AdapterResponse)
    requires site.manifest.ephemeral && site.manifest.provider == Some(binding)
    requires OnlyCreateSays(Listing(site, w), CreateIdentity(site.manifest, binding), CreateFingerprint(site, binding),
                            response)
    requires response.Complete() && !ClaimsResource(response)
    ensures Destroyed(site, w, key) == (w, Failure(NotOwned))
  {
    OnlyCreateDecides(site, w, binding, response);
  }

  /* The order of the calls */

  predicate Prefix(a: seq<Invocation>, b: seq<Invocation>) {
    |a| <= |b| && b[..|a|] == a
  }

  /** What one call adds: nothing, or itself. */
  lemma CalledInvokes(site: Site, w: World, key: Option<string>, binding: Binding, operation: string, index: nat,
                      input: Json, previous: Option<Json>)
    ensures var after := Called(site, w, key, binding, operation, index, input, previous).0;
            && Prefix(w.invoked, after.invoked) && |after.invoked| <= |w.invoked| + 1
            && (|after.invoked| > |w.invoked| ==>
                  var inv := after.invoked[|w.invoked|];
                  && inv.call.identity == ReceiptIdentity(site.manifest.environment, binding.extension, operation)
                  && inv.input == input && inv.config == binding.config
                  && (inv.previous == previous || Resumes(w, inv)))
  {
  }

  /** The call goes on from what its own receipt holds. */
  predicate Resumes(w: World, inv: Invocation) {
    && inv.call.requestId in w.files && w.files[inv.call.requestId].response.Some?
    && inv.previous == Some(EncodeResponse(w.files[inv.call.requestId].response.value))
  }

  predicate IsProviderDestroy(site: Site, binding: Binding, create: RecordedResponse, inv: Invocation) {
    && inv.call.identity == ReceiptIdentity(site.manifest.environment, binding.extension, "destroy")
    && inv.input == Object(map["create" := create.response.data])
  }

  /** The cleanup of one integration, told at `at` exactly what is then on record between create and destroy. */
  predicate IsToldCleanup(site: Site, lifecycle: ProviderLifecycle, at: World, index: nat, inv: Invocation) {
    && HasCleanup(site.manifest, index)
    && var binding := site.manifest.integrations[index];
       var priors := PriorFor(site, at, binding, lifecycle);
       && CleanupRefusal(site.manifest, binding).None? && priors.Success?
       && inv.call.identity == ReceiptIdentity(site.manifest.environment, binding.extension, "cleanup")
       && inv.input == PriorInput(lifecycle, priors.value)
       && (inv.previous == LatestResponse(priors.value) || Resumes(at, inv))
  }

  type Tells = (World, nat, Invocation) -> bool

  function TellsOf(site: Site, lifecycle: ProviderLifecycle): Tells {
    (at: World, index: nat, inv: Invocation) => IsToldCleanup(site, lifecycle, at, index, inv)
  }

  /** What one cleanup adds, whichever world it starts from. */
  ghost predicate Adds(tells: Tells, clean: Clean) {
    forall w, index ::
      var after := clean(w, index).0;
      && Prefix(w.invoked, after.invoked) && |after.invoked| <= |w.invoked| + 1
      && (|after.invoked| > |w.invoked| ==> tells(w, index, after.invoked[|w.invoked|]))
  }

  lemma CleaningAdds(site: Site, key: Option<string>, lifecycle: ProviderLifecycle)
    ensures Adds(TellsOf(site, lifecycle), Cleaning(site, key, lifecycle))
  {
    forall w, index
      ensures var after := Cleaning(site, key, lifecycle)(w, index).0;
              && Prefix(w.invoked, after.invoked) && |after.invoked| <= |w.invoked| + 1
              && (|after.invoked| > |w.invoked| ==>
                    IsToldCleanup(site, lifecycle, w, index, after.invoked[|w.invoked|]))
    {
      OneCleanupAdds(site, key, lifecycle, w, index);
    }
  }

  lemma OneCleanupAdds(site: Site, key: Option<string>, lifecycle: ProviderLifecycle, w: World, index: nat)
    ensures var after := CleanedOne(site, key, lifecycle, w, index).0;
            && Prefix(w.invoked, after.invoked) && |after.invoked| <= |w.invoked| + 1
            && (|after.invoked| > |w.invoked| ==> IsToldCleanup(site, lifecycle, w, index, after.invoked[|w.invoked|]))
  {
    if HasCleanup(site.manifest, index) {
      var binding := site.manifest.integrations[index];
      var priors := PriorFor(site, w, binding, lifecycle);
      if CleanupRefusal(site.manifest, binding).None? && priors.Success? {
        CalledInvokes(site, w, key, binding, "cleanup", index, PriorInput(lifecycle, priors.value),
                      LatestResponse(priors.value));
      }
    }
  }

  /** The world before the `j`th cleanup, from the `i`th on. */
  function WorldBefore(clean: Clean, m: Manifest, w: World, i: nat, j: nat): World
    requires i <= j <= |m.integrations|
    decreases j - i
  {
    if i == j then w else WorldBefore(clean, m, if HasCleanup(m, i) then clean(w, i).0 else w, i + 1, j)
  }

  /** The call is one of these cleanups, told what was on record when its turn came. */
  ghost predicate Told(tells: Tells, m: Manifest, clean: Clean, w: World, i: nat, inv: Invocation) {
    exists j :: i <= j < |m.integrations|
                && tells(WorldBefore(clean, m, w, i, j), j, inv)
  }

  lemma ToldLater(tells: Tells, m: Manifest, clean: Clean, w: World, i: nat, inv: Invocation)
    requires i < |m.integrations|
    requires Told(tells, m, clean, if HasCleanup(m, i) then clean(w, i).0 else w, i + 1, inv)
    ensures Told(tells, m, clean, w, i, inv)
  {
    var after := if HasCleanup(m, i) then clean(w, i).0 else w;
    var j :| i + 1 <= j < |m.integrations|
             && tells(WorldBefore(clean, m, after, i + 1, j), j, inv);
    assert WorldBefore(clean, m, w, i, j) == WorldBefore(clean, m, after, i + 1, j);
  }

  lemma {:induction false} CleanedInvokes(tells: Tells, m: Manifest, clean: Clean, w: World, i: nat, k: nat)
    requires i <= |m.integrations| && Adds(tells, clean)
    ensures var after := Cleaned(clean, m, w, i).world;
            && Prefix(w.invoked, after.invoked)
            && (|w.invoked| <= k < |after.invoked| ==> Told(tells, m, clean, w, i, after.invoked[k]))
    decreases |m.integrations| - i
  {
    if i < |m.integrations| {
      if HasCleanup(m, i) && clean(w, i).1.Failure? {
        FirstTold(tells, m, clean, w, i);
      } else {
        var after := if HasCleanup(m, i) then clean(w, i).0 else w;
        CleanedInvokes(tells, m, clean, after, i + 1, k);
        var end := Cleaned(clean, m, after, i + 1).world;
        TurnTold(tells, m, clean, w, i, k, after, end.invoked);
        assert Cleaned(clean, m, w, i).world == end;
      }
    }
  }

  /** What the turn of the `i`th integration adds, and what is added after it. */
  lemma TurnTold(tells: Tells, m: Manifest, clean: Clean, w: World, i: nat, k: nat, after: World, end: seq<Invocation>)
    requires i < |m.integrations| && Adds(tells, clean)
    requires after == if HasCleanup(m, i) then clean(w, i).0 else w
    requires Prefix(after.invoked, end)
    requires |after.invoked| <= k < |end| ==> Told(tells, m, clean, after, i + 1, end[k])
    ensures Prefix(w.invoked, end)
    ensures |w.invoked| <= k < |end| ==> Told(tells, m, clean, w, i, end[k])
  {
    if HasCleanup(m, i) {
      FirstTold(tells, m, clean, w, i);
      assert end[..|w.invoked|] == end[..|after.invoked|][..|w.invoked|];
    }
    if |after.invoked| <= k < |end| {
      ToldLater(tells, m, clean, w, i, end[k]);
    } else if |w.invoked| <= k < |after.invoked| {
      assert end[k] == end[..|after.invoked|][k];
    }
  }

  lemma FirstTold(tells: Tells, m: Manifest, clean: Clean, w: World, i: nat)
    requires i < |m.integrations| && HasCleanup(m, i) && Adds(tells, clean)
    ensures var after := clean(w, i).0;
            && Prefix(w.invoked, after.invoked) && |after.invoked| <= |w.invoked| + 1
            && (|after.invoked| > |w.invoked| ==> Told(tells, m, clean, w, i, after.invoked[|w.invoked|]))
  {
    assert WorldBefore(clean, m, w, i, i) == w;
  }

  /**
   * Every adapter call of a `destroy` has an open gate behind it; it is the provider's destroy, or it is a cleanup
   * that follows a destroy on record as complete and is told the receipts between that create and that destroy.
   */
  lemma SafeTeardown(site: Site, w: World, key: Option<string>, k: nat)
    requires |w.invoked| <= k < |Destroyed(site, w, key).0.invoked|
    ensures Gate(site, w).Success?
    ensures var (binding, create) := Gate(site, w).value;
            var inv := Destroyed(site, w, key).0.invoked[k];
            var (gone, destroyed) := ProviderDestroyed(site, w, key, binding, create.response);
            || (k == |w.invoked| && IsProviderDestroy(site, binding, create, inv))
            || (destroyed.Success? && destroyed.value.response.Complete() && !Duplicated(site.manifest)
                && |gone.invoked| <= k
                && var lifecycle := ProviderLifecycle(create, destroyed.value);
                   Told(TellsOf(site, lifecycle), site.manifest, Cleaning(site, key, lifecycle), gone, 0, inv))
  {
    var (binding, create) := Gate(site, w).value;
    TornDownInvokes(site, w, key, binding, create, k);
  }

  lemma DestroyInvokes(site: Site, w: World, key: Option<string>, binding: Binding, create: RecordedResponse)
    ensures var gone := ProviderDestroyed(site, w, key, binding, create.response).0;
            && Prefix(w.invoked, gone.invoked) && |gone.invoked| <= |w.invoked| + 1
            && (|gone.invoked| > |w.invoked| ==> IsProviderDestroy(site, binding, create, gone.invoked[|w.invoked|]))
  {
    CalledInvokes(site, w, key, binding, "destroy", 0, DestroyInput(create.response), None);
  }

  lemma TornDownInvokes(site: Site, w: World, key: Option<string>, binding: Binding, create: RecordedResponse, k: nat)
    requires |w.invoked| <= k < |TornDown(site, w, key, binding, create).0.invoked|
    ensures var inv := TornDown(site, w, key, binding, create).0.invoked[k];
            var (gone, destroyed) := ProviderDestroyed(site, w, key, binding, create.response);
            || (k == |w.invoked| && IsProviderDestroy(site, binding, create, inv))
            || (destroyed.Success? && destroyed.value.response.Complete() && !Duplicated(site.manifest)
                && |gone.invoked| <= k
                && var lifecycle := ProviderLifecycle(create, destroyed.value);
                   Told(TellsOf(site, lifecycle), site.manifest, Cleaning(site, key, lifecycle), gone, 0, inv))
  {
    DestroyInvokes(site, w, key, binding, create);
    var (gone, destroyed) := ProviderDestroyed(site, w, key, binding, create.response);
    if destroyed.Success? && destroyed.value.response.Complete() && !Duplicated(site.manifest) {
      var lifecycle := ProviderLifecycle(create, destroyed.value);
      CleaningAdds(site, key, lifecycle);
      CleanedInvokes(TellsOf(site, lifecycle), site.manifest, Cleaning(site, key, lifecycle), gone, 0, k);
      var end := Cleaned(Cleaning(site, key, lifecycle), site.manifest, gone, 0).world;
      assert end.invoked[..|gone.invoked|] == gone.invoked;
      assert k < |gone.invoked| ==> end.invoked[k] == gone.invoked[k];
    }
  }

  /** Nothing but the gate stands between this create and the provider's destroy. */
  predicate Sendable(site: Site, w: World, key: string, binding: Binding, create: RecordedResponse) {
    && site.manifest.Mutating(binding.extension, "destroy") && MutationKey(Some(key)).Success?
    && DestroyCall(site, key, binding, create.response).requestId !in w.files
  }

  lemma FirstDestroyIsSent(site: Site, w: World, key: string, binding: Binding, create: RecordedResponse)
    requires Sendable(site, w, key, binding, create)
    ensures var gone := ProviderDestroyed(site, w, Some(key), binding, create.response).0;
            |gone.invoked| == |w.invoked| + 1 && IsProviderDestroy(site, binding, create, gone.invoked[|w.invoked|])
  {
    DestroyInvokes(site, w, Some(key), binding, create);
  }

  lemma CleanupsOnlyAdd(site: Site, w: World, key: Option<string>, lifecycle: ProviderLifecycle)
    ensures Prefix(w.invoked, CleanedUp(site, w, key, lifecycle).world.invoked)
  {
    if !Duplicated(site.manifest) {
      CleaningAdds(site, key, lifecycle);
      CleanedInvokes(TellsOf(site, lifecycle), site.manifest, Cleaning(site, key, lifecycle), w, 0, 0);
    }
  }

  /** Conversely whatever opens the gate is sent to the provider, before anything else. */
  lemma OpenGateIsSent(site: Site, w: World, key: string, binding: Binding, create: RecordedResponse)
    requires Gate(site, w) == Success((binding, create)) && Sendable(site, w, key, binding, create)
    ensures var invoked := Destroyed(site, w, Some(key)).0.invoked;
            |invoked| > |w.invoked| && IsProviderDestroy(site, binding, create, invoked[|w.invoked|])
  {
    FirstDestroyIsSent(site, w, key, binding, create);
    var (gone, destroyed) := ProviderDestroyed(site, w, Some(key), binding, create.response);
    if destroyed.Success? && destroyed.value.response.Complete() {
      CleanupsOnlyAdd(site, gone, Some(key), ProviderLifecycle(create, destroyed.value));
    }
    var end := TornDown(site, w, Some(key), binding, create).0.invoked;
    assert Prefix(gone.invoked, end);
    assert end[|w.invoked|] == end[..|gone.invoked|][|w.invoked|];
  }

  /* What a cleanup is told */

  predicate StopAt(listing: seq<Entry>, id: ReceiptIdentity, start: nat, end: nat, i: nat)
    requires i < |listing|
  {
    && listing[i].isJson && start <= listing[i].modified <= end
    && (listing[i].content.Unreadable? || Matches(listing[i], id))
  }

  /** The newest receipt in the window that is this operation's, or cannot be read. */
  predicate NewestStop(listing: seq<Entry>, id: ReceiptIdentity, start: nat, end: nat, k: nat) {
    && k < |listing| && StopAt(listing, id, start, end, k)
    && forall i :: 0 <= i < |listing| && i != k && StopAt(listing, id, start, end, i) ==> Precedes(listing, k, i)
  }

  predicate Outcomeless(e: Entry) {
    e.content.Unreadable? || e.content.record.response.None?
  }

  predicate Reads(e: Entry, recorded: RecordedResponse) {
    && e.content.Readable? && e.content.record.response == Some(recorded.response) && e.modified == recorded.modified
  }

  lemma NewestStopIsOne(listing: seq<Entry>, id: ReceiptIdentity, start: nat, end: nat, i: nat, k: nat)
    requires NewestStop(listing, id, start, end, i) && NewestStop(listing, id, start, end, k)
    ensures i == k
  {
    assert i != k ==> Precedes(listing, i, k);
  }

  lemma NewestStopFound(listing: seq<Entry>, id: ReceiptIdentity, start: nat, end: nat)
    ensures var p := StopsInWindow(id, start, end);
            && (Newest(listing, p).None? <==> forall i :: 0 <= i < |listing| ==> !StopAt(listing, id, start, end, i))
            && (Newest(listing, p).Some? ==> NewestStop(listing, id, start, end, Newest(listing, p).value))
            && (forall k: nat :: NewestStop(listing, id, start, end, k) ==> Newest(listing, p) == Some(k))
  {
    var p := StopsInWindow(id, start, end);
    NewestIsNewest(listing, p);
    assert forall i :: 0 <= i < |listing| ==> (p(listing[i]) <==> StopAt(listing, id, start, end, i));
    if Newest(listing, p).Some? {
      var found := Newest(listing, p).value;
      assert NewestStop(listing, id, start, end, found);
      forall k: nat | NewestStop(listing, id, start, end, k) ensures k == found {
        NewestStopIsOne(listing, id, start, end, k, found);
      }
    }
  }

  /** What is told of one operation is the newest receipt of it in the window. */
  lemma PriorReceiptIsNewest(listing: seq<Entry>, id: ReceiptIdentity, start: nat, end: nat)
    ensures var found := PriorReceipt(listing, id.environment, id.extension, id.operation, start, end);
            && (forall recorded :: found == Success(Some(recorded)) <==>
                  exists k: nat :: NewestStop(listing, id, start, end, k) && Reads(listing[k], recorded))
            && (found == Success(None) <==> forall i :: 0 <= i < |listing| ==> !StopAt(listing, id, start, end, i))
            && (found.Failure? <==> exists k: nat :: NewestStop(listing, id, start, end, k) && Outcomeless(listing[k]))
  {
    assert ReceiptIdentity(id.environment, id.extension, id.operation) == id;
    var p := StopsInWindow(id, start, end);
    NewestStopFound(listing, id, start, end);
    if Newest(listing, p).Some? {
      var k := Newest(listing, p).value;
      assert NewestStop(listing, id, start, end, k);
      assert !Outcomeless(listing[k]) ==>
          Reads(listing[k], RecordedResponse(listing[k].content.record.response.value, listing[k].modified));
    }
  }

  predicate IsNewestPrior(listing: seq<Entry>, environment: string, extension: string, start: nat, end: nat, p: Prior) {
    PriorReceipt(listing, environment, extension, p.operation, start, end) == Success(Some(p.recorded))
  }

  /**
   * A cleanup is told of an operation exactly if it is a setup operation with a newest answered receipt in the window.
   */
  lemma {:induction false} PriorsAreNewest(listing: seq<Entry>, environment: string, extension: string,
                                           operations: seq<string>, start: nat, end: nat, p: Prior)
    requires PriorOf(listing, environment, extension, operations, start, end).Success?
    ensures p in PriorOf(listing, environment, extension, operations, start, end).value <==>
            p.operation in operations
            && exists k: nat :: NewestStop(listing, ReceiptIdentity(environment, extension, p.operation), start, end, k)
                           && Reads(listing[k], p.recorded)
  {
    PriorReceiptIsNewest(listing, ReceiptIdentity(environment, extension, p.operation), start, end);
    PriorsAreFound(listing, environment, extension, operations, start, end, p);
  }

  lemma {:induction false} PriorsAreFound(listing: seq<Entry>, environment: string, extension: string,
                                          operations: seq<string>, start: nat, end: nat, p: Prior)
    requires PriorOf(listing, environment, extension, operations, start, end).Success?
    ensures p in PriorOf(listing, environment, extension, operations, start, end).value <==>
            p.operation in operations && IsNewestPrior(listing, environment, extension, start, end, p)
  {
    if operations != [] {
      PriorsAreFound(listing, environment, extension, operations[1..], start, end, p);
    }
  }

  /** It cannot be told anything exactly if some setup operation's newest receipt in the window has no outcome. */
  lemma {:induction false} PriorsFailIff(listing: seq<Entry>, environment: string, extension: string,
                                         operations: seq<string>, start: nat, end: nat)
    ensures PriorOf(listing, environment, extension, operations, start, end).Failure? <==>
            exists operation :: operation in operations
              && PriorReceipt(listing, environment, extension, operation, start, end).Failure?
  {
    if operations != [] {
      PriorsFailIff(listing, environment, extension, operations[1..], start, end);
      if exists operation :: operation in operations
           && PriorReceipt(listing, environment, extension, operation, start, end).Failure?
      {
        var operation :| operation in operations
                         && PriorReceipt(listing, environment, extension, operation, start, end).Failure?;
        assert operation == operations[0] || operation in operations[1..];
      }
    }
  }

  /* A create receipt that names nothing */

  const NAMELESS := AdapterResponse(1, "k", Ready, Object(map["owned" := Bool(true), "resource_id" := String("")]),
                                    None, None)

  /** A site whose store holds one create receipt, and nothing else anywhere. */
  function Alone(provider: Binding, adapter: (nat, Invocation) -> Outcome): Site {
    var destroying := Extension(OnController, map["destroy" := Operation(true, false, None)]);
    Site(Manifest("e", true, map[provider.extension := destroying], [], None, Some(provider)),
         (binding: Binding, operation: string, input: Json, previous: Option<Json>) => operation,
         (stage: string) => stage, (n: nat) => "", (text: string) => None, adapter, (n: nat) => 1,
         (keys: set<string>) => ["k"], (n: nat) => [])
  }

  function AloneWorld(provider: Binding): World {
    World(map["k" := ReceiptRecord("k", "create", ReceiptIdentity("e", provider.extension, "create"), Response,
                                   Some(NAMELESS))],
          map["k" := 0], 1, [], None)
  }

  lemma AloneListing(provider: Binding, adapter: (nat, Invocation) -> Outcome)
    ensures var w := AloneWorld(provider);
            Listing(Alone(provider, adapter), w) == [Entry(0, true, Readable(w.files["k"]))]
  {
    var w := AloneWorld(provider);
    assert ["k"][1..] == [];
    assert OwnEntries(["k"], w.files, w.modified) == [Entry(0, true, Readable(w.files["k"]))] + [];
  }

  lemma AloneGate(provider: Binding, adapter: (nat, Invocation) -> Outcome)
    ensures Gate(Alone(provider, adapter), AloneWorld(provider)) == Success((provider, RecordedResponse(NAMELESS, 0)))
  {
    var site, w := Alone(provider, adapter), AloneWorld(provider);
    var id := CreateIdentity(site.manifest, provider);
    AloneListing(provider, adapter);
    var e := Entry(0, true, Readable(w.files["k"]));
    OneEntry(e, StopsAtOwned(id));
    OneEntry(e, StopsAtAnswer(id));
  }

  lemma OneEntry(e: Entry, p: Entry -> bool)
    ensures NewestEntry([e], p) == if p(e) then Some(e) else None
  {
    assert [] + [e] == [e];
    NewestSnoc([], e, p);
  }

  lemma AloneIsNew(provider: Binding, adapter: (nat, Invocation) -> Outcome)
    ensures Sendable(Alone(provider, adapter), AloneWorld(provider), "k", provider, RecordedResponse(NAMELESS, 0))
  {
    assert |DestroyCall(Alone(provider, adapter), "k", provider, NAMELESS).requestId| >= 2;
    assert Trim("k") == "k";
  }

  /**
   * The gate does not ask for a name: an owned create whose resource id is empty opens it, and by `OpenGateIsSent`
   * goes to the provider.
   */
  lemma NamelessResourceIsDestroyed(provider: Binding, adapter: (nat, Invocation) -> Outcome)
    ensures NAMELESS.data.At("resource_id") == String("")
    ensures var site, w, create := Alone(provider, adapter), AloneWorld(provider), RecordedResponse(NAMELESS, 0);
            Gate(site, w) == Success((provider, create)) && Sendable(site, w, "k", provider, create)
  {
    AloneGate(provider, adapter);
    AloneIsNew(provider, adapter);
  }
}
