/** What a `destroy` behind an open gate must do: every cleanup has its turn, and the report says how each came out. */
module CleanupTurns {
  import opened Wrappers
  import opened Protocol
  import opened Receipts
  import opened Selection
  import opened Dispatch
  import opened Teardown
  import opened TeardownSafety
  import opened OrderedNames
  import opened RequestIds

  /* The provider's destroy */

  /** A destroy that is not on record is answered by the provider, and that answer is the one gone by. */
  lemma FreshDestroyAnswers(site: Site, w: World, key: string, binding: Binding, create: RecordedResponse)
    requires Sendable(site, w, key, binding, create)
    ensures var (gone, destroyed) := ProviderDestroyed(site, w, Some(key), binding, create.response);
            && |gone.invoked| == |w.invoked| + 1 && IsProviderDestroy(site, binding, create, gone.invoked[|w.invoked|])
            && match site.adapter(|w.invoked|, gone.invoked[|w.invoked|])
               case Success(response) => destroyed == Success(RecordedResponse(response, gone.clock))
               case Failure(error) => destroyed == Failure(Applying(error))
  {
    FirstDestroyIsSent(site, w, key, binding, create);
  }

  /** The receipt a destroy is gone by is its own request's, of its own operation, under its own fingerprint. */
  lemma DestroyGoesByItsReceipt(w: World, call: Call, recorded: RecordedResponse)
    ensures RecordedFor(w, call) == Success(recorded) <==>
            && call.requestId in w.files && call.requestId in w.modified
            && w.files[call.requestId].identity == call.identity
            && w.files[call.requestId].fingerprint == call.fingerprint
            && w.files[call.requestId].response == Some(recorded.response)
            && w.modified[call.requestId] == recorded.modified
  {
  }

  /** A destroy that is not complete is all there is to report, and nothing is cleaned up. */
  lemma IncompleteDestroyEnds(site: Site, w: World, key: Option<string>, binding: Binding, create: RecordedResponse)
    requires Gate(site, w) == Success((binding, create))
    ensures var (gone, destroyed) := ProviderDestroyed(site, w, key, binding, create.response);
            && (destroyed.Failure? ==> Destroyed(site, w, key) == (gone, Failure(destroyed.error)))
            && (destroyed.Success? && !destroyed.value.response.Complete() ==>
                  && Destroyed(site, w, key).0 == gone && Destroyed(site, w, key).1.Success?
                  && !Destroyed(site, w, key).1.value.ok
                  && Destroyed(site, w, key).1.value.results
                     == [L.Step(binding.extension, destroyed.value.response)])
  {
    var (gone, destroyed) := ProviderDestroyed(site, w, key, binding, create.response);
    if destroyed.Success? {
      L.AggregateOk([L.Step(binding.extension, destroyed.value.response)]);
      assert [L.Step(binding.extension, destroyed.value.response)][0].response == destroyed.value.response;
    }
  }

  /* One cleanup */

  /** The cleanup leaves a receipt and runs on the controller. */
  predicate Allowed(m: Manifest, index: nat) {
    && HasCleanup(m, index)
    && var extension := m.extensions[m.integrations[index].extension];
       var operation := extension.operations["cleanup"];
       && operation.mutating
       && (operation.place == Some(OnController) || (operation.place == None && extension.place == OnController))
  }

  function OwnId(site: Site, key: string, index: nat): string
    requires index < |site.manifest.integrations|
  {
    BindingRequestId(key, site.manifest.environment, "cleanup", index, site.manifest.integrations[index].extension)
  }

  /** Nothing keeps it from its adapter: it is allowed, what it is told can be read, and it is not on record. */
  predicate Callable(site: Site, key: string, lifecycle: ProviderLifecycle, w: World, index: nat) {
    && Allowed(site.manifest, index) && PriorFor(site, w, site.manifest.integrations[index], lifecycle).Success?
    && MutationKey(Some(key)).Success? && OwnId(site, key, index) !in w.files
  }

  /** Then it is called, told what is on record, and its answer is the adapter's. */
  lemma CallableIsCalled(site: Site, key: string, lifecycle: ProviderLifecycle, w: World, index: nat)
    requires Callable(site, key, lifecycle, w, index)
    ensures var (after, reply) := CleanedOne(site, Some(key), lifecycle, w, index);
            && Prefix(w.invoked, after.invoked) && |after.invoked| == |w.invoked| + 1
            && var inv := after.invoked[|w.invoked|];
               && IsToldCleanup(site, lifecycle, w, index, inv) && inv.call.requestId == OwnId(site, key, index)
               && match site.adapter(|w.invoked|, inv)
                  case Success(response) => reply == Success(response)
                  case Failure(error) => reply == Failure(Applying(error))
  {
    OneCleanupAdds(site, Some(key), lifecycle, w, index);
  }

  /** A cleanup that is not allowed, or whose receipts cannot be read, is refused without a call. */
  lemma OthersAreRefused(site: Site, key: Option<string>, lifecycle: ProviderLifecycle, w: World, index: nat)
    requires HasCleanup(site.manifest, index)
    requires !Allowed(site.manifest, index) || PriorFor(site, w, site.manifest.integrations[index], lifecycle).Failure?
    ensures CleanedOne(site, key, lifecycle, w, index).0 == w && CleanedOne(site, key, lifecycle, w, index).1.Failure?
    ensures !Allowed(site.manifest, index) ==>
              CleanedOne(site, key, lifecycle, w, index).1.error
              == if site.manifest.Mutating(site.manifest.integrations[index].extension, "cleanup")
                 then CleanupNotOnController else CleanupNotMutating
  {
  }

  /* The turns */

  /** How many integrations from the `i`th up to the `k`th have a cleanup. */
  function Count(m: Manifest, i: nat, k: nat): nat
    decreases k - i
  {
    if i >= k then 0 else (if HasCleanup(m, i) then 1 else 0) + Count(m, i + 1, k)
  }

  /** No cleanup from the `i`th up to the `k`th fails in its turn. */
  predicate NoneFails(clean: Clean, m: Manifest, w: World, i: nat, k: nat) {
    i <= k <= |m.integrations|
    && forall j :: i <= j < k && HasCleanup(m, j) ==> clean(WorldBefore(clean, m, w, i, j), j).1.Success?
  }

  function AfterTurn(clean: Clean, m: Manifest, w: World, i: nat): World {
    if HasCleanup(m, i) then clean(w, i).0 else w
  }

  lemma NoneFailsLater(clean: Clean, m: Manifest, w: World, i: nat, k: nat)
    requires i < k && NoneFails(clean, m, w, i, k)
    ensures NoneFails(clean, m, AfterTurn(clean, m, w, i), i + 1, k)
    ensures HasCleanup(m, i) ==> clean(w, i).1.Success?
  {
    var after := AfterTurn(clean, m, w, i);
    assert WorldBefore(clean, m, w, i, i) == w;
    forall j | i + 1 <= j < k && HasCleanup(m, j)
      ensures clean(WorldBefore(clean, m, after, i + 1, j), j).1.Success?
    {
      assert WorldBefore(clean, m, w, i, j) == WorldBefore(clean, m, after, i + 1, j);
    }
  }

  /** Up to a turn before which nothing fails, each cleanup adds one item; the rest starts from that turn's world. */
  lemma {:induction false} TurnIsReached(clean: Clean, m: Manifest, w: World, i: nat, k: nat)
    returns (items: seq<L.Item>)
    requires NoneFails(clean, m, w, i, k)
    ensures var rest := Cleaned(clean, m, WorldBefore(clean, m, w, i, k), k);
            Cleaned(clean, m, w, i) == rest.(items := items + rest.items)
    ensures |items| == Count(m, i, k)
    decreases k - i
  {
    items := [];
    if i == k {
      assert [] + Cleaned(clean, m, w, i).items == Cleaned(clean, m, w, i).items;
    } else {
      var after := AfterTurn(clean, m, w, i);
      NoneFailsLater(clean, m, w, i, k);
      items := TurnIsReached(clean, m, after, i + 1, k);
      if HasCleanup(m, i) {
        var step := L.Step(m.integrations[i].extension, clean(w, i).1.value);
        var rest := Cleaned(clean, m, WorldBefore(clean, m, after, i + 1, k), k);
        L.AppendAssociates([step], items, rest.items);
        items := [step] + items;
      }
    }
  }

  /* Their request ids */

  /** One cleanup puts nothing on record but its own receipt. */
  lemma OnlyOwnReceipt(site: Site, key: string, lifecycle: ProviderLifecycle, w: World, index: nat, id: string)
    requires HasCleanup(site.manifest, index) && id != OwnId(site, key, index) && id !in w.files
    ensures id !in CleanedOne(site, Some(key), lifecycle, w, index).0.files
  {
  }

  lemma {:induction false} StaysUnrecorded(site: Site, key: string, lifecycle: ProviderLifecycle, w: World, i: nat,
                                           k: nat)
    requires i <= k < |site.manifest.integrations| && OwnId(site, key, k) !in w.files
    ensures OwnId(site, key, k)
         !in WorldBefore(Cleaning(site, Some(key), lifecycle), site.manifest, w, i, k).files
    decreases k - i
  {
    if i < k {
      var clean, m := Cleaning(site, Some(key), lifecycle), site.manifest;
      if HasCleanup(m, i) {
        if OwnId(site, key, i) == OwnId(site, key, k) {
          BindingRequestIdNamesOne(key, m.environment, "cleanup", i, m.integrations[i].extension, "cleanup", k,
                                   m.integrations[k].extension);
        }
        OnlyOwnReceipt(site, key, lifecycle, w, i, OwnId(site, key, k));
      }
      StaysUnrecorded(site, key, lifecycle, AfterTurn(clean, m, w, i), i + 1, k);
    }
  }

  lemma {:induction false} EarlierTurnsComeFirst(site: Site, key: Option<string>, lifecycle: ProviderLifecycle,
                                                 w: World, i: nat, j: nat, k: nat)
    requires i <= j <= k <= |site.manifest.integrations|
    ensures var clean, m := Cleaning(site, key, lifecycle), site.manifest;
            && Prefix(WorldBefore(clean, m, w, i, j).invoked, WorldBefore(clean, m, w, i, k).invoked)
            && (j < k && HasCleanup(m, j) ==>
                  Prefix(clean(WorldBefore(clean, m, w, i, j), j).0.invoked, WorldBefore(clean, m, w, i, k).invoked))
    decreases k - i
  {
    var clean, m := Cleaning(site, key, lifecycle), site.manifest;
    if i < k {
      var after := AfterTurn(clean, m, w, i);
      OneCleanupAdds(site, key, lifecycle, w, i);
      if i < j {
        EarlierTurnsComeFirst(site, key, lifecycle, after, i + 1, j, k);
      } else {
        EarlierTurnsComeFirst(site, key, lifecycle, after, i + 1, i + 1, k);
        assert WorldBefore(clean, m, after, i + 1, i + 1) == after;
        PrefixThrough(w.invoked, after.invoked, WorldBefore(clean, m, after, i + 1, k).invoked);
      }
    }
  }

  lemma PrefixThrough(a: seq<Invocation>, b: seq<Invocation>, c: seq<Invocation>)
    requires Prefix(a, b) && Prefix(b, c)
    ensures Prefix(a, c)
  {
    assert c[..|b|][..|a|] == c[..|a|];
  }

  /* The whole */

  /** Behind an open gate the provider's destroy was complete, and no integration is bound to two cleanups. */
  predicate CleansUp(site: Site, w: World, key: string, lifecycle: ProviderLifecycle, gone: World) {
    && Gate(site, w).Success? && Gate(site, w).value.1 == lifecycle.create
    && ProviderDestroyed(site, w, Some(key), Gate(site, w).value.0, lifecycle.create.response)
       == (gone, Success(lifecycle.destroy))
    && lifecycle.destroy.response.Complete()
    && forall i, k :: 0 <= i < k < |site.manifest.integrations| ==> !Repeated(site.manifest, i, k)
  }

  /** The world in which the `i`th integration has its turn. */
  function Turn(site: Site, key: string, lifecycle: ProviderLifecycle, gone: World, i: nat): World
    requires i <= |site.manifest.integrations|
  {
    WorldBefore(Cleaning(site, Some(key), lifecycle), site.manifest, gone, 0, i)
  }

  predicate NoneFailsBefore(site: Site, key: string, lifecycle: ProviderLifecycle, gone: World, i: nat) {
    NoneFails(Cleaning(site, Some(key), lifecycle), site.manifest, gone, 0, i)
  }

  lemma LaterOnlyAdd(site: Site, key: string, lifecycle: ProviderLifecycle, w: World, i: nat)
    requires i <= |site.manifest.integrations|
    ensures Prefix(w.invoked, Cleaned(Cleaning(site, Some(key), lifecycle), site.manifest, w, i).world.invoked)
  {
    CleaningAdds(site, Some(key), lifecycle);
    CleanedInvokes(TellsOf(site, lifecycle), site.manifest, Cleaning(site, Some(key), lifecycle), w, i, 0);
  }

  /** Every integration with a cleanup that nothing keeps from its adapter, told apart at its own turn, is called. */
  lemma EveryCleanupIsCalled(site: Site, w: World, key: string, lifecycle: ProviderLifecycle, gone: World, i: nat)
    requires CleansUp(site, w, key, lifecycle, gone) && i < |site.manifest.integrations|
    requires NoneFailsBefore(site, key, lifecycle, gone, i)
    requires Allowed(site.manifest, i) && MutationKey(Some(key)).Success? && OwnId(site, key, i) !in gone.files
    requires PriorFor(site, Turn(site, key, lifecycle, gone, i), site.manifest.integrations[i], lifecycle).Success?
    ensures var at, (after, r) := Turn(site, key, lifecycle, gone, i), Destroyed(site, w, Some(key));
            && |at.invoked| < |after.invoked|
            && var inv := after.invoked[|at.invoked|];
               && IsToldCleanup(site, lifecycle, at, i, inv) && inv.call.requestId == OwnId(site, key, i)
               && match site.adapter(|at.invoked|, inv)
                  case Failure(error) => r == Failure(Applying(error))
                  case Success(response) => r.Success? ==>
                    && 1 + Count(site.manifest, 0, i) < |r.value.results|
                    && r.value.results[1 + Count(site.manifest, 0, i)]
                       == L.Step(site.manifest.integrations[i].extension, response)
  {
    var clean, m, at := Cleaning(site, Some(key), lifecycle), site.manifest, Turn(site, key, lifecycle, gone, i);
    StaysUnrecorded(site, key, lifecycle, gone, 0, i);
    CallableIsCalled(site, key, lifecycle, at, i);
    var called, reply := clean(at, i).0, clean(at, i).1;
    var items := TurnIsReached(clean, m, gone, 0, i);
    var whole, rest := Cleaned(clean, m, gone, 0), Cleaned(clean, m, at, i);
    if reply.Success? {
      LaterOnlyAdd(site, key, lifecycle, called, i + 1);
      var step := L.Step(m.integrations[i].extension, reply.value);
      assert rest.items[0] == step;
      assert (items + rest.items)[|items|] == step;
    }
    assert Prefix(called.invoked, whole.world.invoked);
    assert whole.world.invoked[|at.invoked|] == whole.world.invoked[..|called.invoked|][|at.invoked|];
  }

  /** The turns come in the order of the integrations. */
  lemma TurnsInOrder(site: Site, key: string, lifecycle: ProviderLifecycle, gone: World, i: nat, k: nat)
    requires i < k <= |site.manifest.integrations|
    ensures |Turn(site, key, lifecycle, gone, i).invoked| <= |Turn(site, key, lifecycle, gone, k).invoked|
    ensures Callable(site, key, lifecycle, Turn(site, key, lifecycle, gone, i), i) ==>
              |Turn(site, key, lifecycle, gone, i).invoked| < |Turn(site, key, lifecycle, gone, k).invoked|
  {
    EarlierTurnsComeFirst(site, Some(key), lifecycle, gone, 0, i, k);
    if Callable(site, key, lifecycle, Turn(site, key, lifecycle, gone, i), i) {
      CallableIsCalled(site, key, lifecycle, Turn(site, key, lifecycle, gone, i), i);
    }
  }

  /** The first cleanup that fails is what `destroy` answers, and nothing is called after it. */
  lemma FirstFailureStops(site: Site, w: World, key: string, lifecycle: ProviderLifecycle, gone: World, i: nat)
    requires CleansUp(site, w, key, lifecycle, gone) && NoneFailsBefore(site, key, lifecycle, gone, i)
    requires HasCleanup(site.manifest, i)
    requires CleanedOne(site, Some(key), lifecycle, Turn(site, key, lifecycle, gone, i), i).1.Failure?
    ensures var (after, reply) := CleanedOne(site, Some(key), lifecycle, Turn(site, key, lifecycle, gone, i), i);
            Destroyed(site, w, Some(key)) == (after, Failure(reply.error))
  {
    var items := TurnIsReached(Cleaning(site, Some(key), lifecycle), site.manifest, gone, 0, i);
  }

  /** Where none fails, the report is the provider's answer and one item for every cleanup, whatever they answered. */
  lemma AllAreReported(site: Site, w: World, key: string, lifecycle: ProviderLifecycle, gone: World)
    requires CleansUp(site, w, key, lifecycle, gone)
    requires NoneFailsBefore(site, key, lifecycle, gone, |site.manifest.integrations|)
    ensures var (after, r) := Destroyed(site, w, Some(key));
            && after == Turn(site, key, lifecycle, gone, |site.manifest.integrations|)
            && r.Success? && |r.value.results| == 1 + Count(site.manifest, 0, |site.manifest.integrations|)
            && r.value.results[0] == L.Step(Gate(site, w).value.0.extension, lifecycle.destroy.response)
  {
    var items := TurnIsReached(Cleaning(site, Some(key), lifecycle), site.manifest, gone, 0,
                               |site.manifest.integrations|);
    assert items + [] == items;
  }

  /** An integration bound twice stops everything once the provider's destroy is complete, before any cleanup. */
  lemma DuplicateStops(site: Site, w: World, key: string, binding: Binding, create: RecordedResponse, i: nat, k: nat)
    requires Gate(site, w) == Success((binding, create))
    requires var destroyed := ProviderDestroyed(site, w, Some(key), binding, create.response).1;
             destroyed.Success? && destroyed.value.response.Complete()
    requires i < k < |site.manifest.integrations| && Repeated(site.manifest, i, k)
    ensures Destroyed(site, w, Some(key))
         == (ProviderDestroyed(site, w, Some(key), binding, create.response).0, Failure(DuplicateCleanup))
  {
  }

  /* What it is told */

  /** The operation sets something up, and leaves a receipt that a cleanup may want. */
  predicate SetsUp(extension: Extension, operation: string) {
    && operation in extension.operations && operation != "cleanup"
    && extension.operations[operation].mutating && !extension.operations[operation].internal
  }

  /** This receipt of the integration is the newest of its operation between the create and the destroy. */
  ghost predicate IsOnRecord(site: Site, at: World, lifecycle: ProviderLifecycle, extension: string, p: Prior) {
    var listing := Listing(site, at);
    exists k: nat ::
      && NewestStop(listing, ReceiptIdentity(site.manifest.environment, extension, p.operation),
                    lifecycle.create.modified, lifecycle.destroy.modified, k)
      && Reads(listing[k], p.recorded)
  }

  function AsEntry(p: Prior): Json {
    Object(map["operation" := String(p.operation), "response" := EncodeResponse(p.recorded.response)])
  }

  /** A cleanup is told of a receipt exactly if it is the newest of a setup operation between create and destroy. */
  lemma ToldIffOnRecord(site: Site, lifecycle: ProviderLifecycle, at: World, index: nat, p: Prior)
    requires HasCleanup(site.manifest, index)
    requires PriorFor(site, at, site.manifest.integrations[index], lifecycle).Success?
    ensures var extension := site.manifest.integrations[index].extension;
            p in PriorFor(site, at, site.manifest.integrations[index], lifecycle).value <==>
            SetsUp(site.manifest.extensions[extension], p.operation)
            && IsOnRecord(site, at, lifecycle, extension, p)
  {
    var name := site.manifest.integrations[index].extension;
    var extension := site.manifest.extensions[name];
    OrderedAscends(set o | o in extension.operations && o != "cleanup" && extension.operations[o].mutating
                           && !extension.operations[o].internal);
    PriorsAreNewest(Listing(site, at), site.manifest.environment, name, SetupOperations(extension),
                    lifecycle.create.modified, lifecycle.destroy.modified, p);
  }

  /** The newest of them, and the first of several equally new. */
  predicate IsLatest(priors: seq<Prior>, k: nat) {
    && k < |priors|
    && (forall i :: 0 <= i < |priors| ==> priors[i].recorded.modified <= priors[k].recorded.modified)
    && (forall i :: 0 <= i < k ==> priors[i].recorded.modified < priors[k].recorded.modified)
  }

  lemma LatestIs(priors: seq<Prior>, k: nat)
    requires IsLatest(priors, k)
    ensures Latest(priors) == Some(k)
  {
    var found := Latest(priors).value;
    assert priors[found].recorded.modified <= priors[k].recorded.modified;
  }

  lemma {:induction false} DataIsOne(priors: seq<Prior>, operation: string)
    ensures DataOf(priors, operation).None? <==> forall p :: p in priors ==> p.operation != operation
    ensures DataOf(priors, operation).Some? ==>
              exists p :: p in priors && p.operation == operation
                          && DataOf(priors, operation) == Some(p.recorded.response.data)
  {
    if priors != [] {
      var rest, last := priors[..|priors| - 1], priors[|priors| - 1];
      DataIsOne(rest, operation);
      assert priors == rest + [last];
    }
  }

  /** There is one receipt of an operation at most. */
  lemma OnePriorEach(site: Site, lifecycle: ProviderLifecycle, at: World, index: nat, p: Prior, q: Prior)
    requires HasCleanup(site.manifest, index)
    requires PriorFor(site, at, site.manifest.integrations[index], lifecycle).Success?
    requires p in PriorFor(site, at, site.manifest.integrations[index], lifecycle).value
    requires q in PriorFor(site, at, site.manifest.integrations[index], lifecycle).value
    requires p.operation == q.operation
    ensures p == q
  {
    var name := site.manifest.integrations[index].extension;
    var operations := SetupOperations(site.manifest.extensions[name]);
    PriorsAreFound(Listing(site, at), site.manifest.environment, name, operations, lifecycle.create.modified,
                   lifecycle.destroy.modified, p);
    PriorsAreFound(Listing(site, at), site.manifest.environment, name, operations, lifecycle.create.modified,
                   lifecycle.destroy.modified, q);
  }

  function ToldPriors(site: Site, lifecycle: ProviderLifecycle, at: World, index: nat): seq<Prior>
    requires HasCleanup(site.manifest, index)
    requires PriorFor(site, at, site.manifest.integrations[index], lifecycle).Success?
  {
    PriorFor(site, at, site.manifest.integrations[index], lifecycle).value
  }

  lemma InputFields(lifecycle: ProviderLifecycle, entries: seq<(string, AdapterResponse)>, applyData: Option<Json>,
                    latestData: Option<Json>)
    ensures var input := CleanupInput(lifecycle, entries, applyData, latestData);
            && input.At("provider_create") == EncodeResponse(lifecycle.create.response)
            && input.At("provider_destroy") == EncodeResponse(lifecycle.destroy.response)
            && input.At("integration_receipts") == EntriesJson(entries)
  {
  }

  /** The create, the destroy and each of these receipts in order, every one under its own name. */
  lemma ToldReceipts(site: Site, lifecycle: ProviderLifecycle, at: World, index: nat, inv: Invocation)
    requires IsToldCleanup(site, lifecycle, at, index, inv)
    ensures inv.input.At("provider_create") == EncodeResponse(lifecycle.create.response)
    ensures inv.input.At("provider_destroy") == EncodeResponse(lifecycle.destroy.response)
    ensures var priors, told := ToldPriors(site, lifecycle, at, index), inv.input.At("integration_receipts");
            told.Array? && |told.items| == |priors|
            && forall i :: 0 <= i < |priors| ==> told.items[i] == AsEntry(priors[i])
  {
    var priors := ToldPriors(site, lifecycle, at, index);
    InputFields(lifecycle, Entries(priors), DataOf(priors, "apply"), LatestData(priors));
  }

  /** Also what the integration last applied, and what it last did at all, if it ever did. */
  lemma ToldLatest(site: Site, lifecycle: ProviderLifecycle, at: World, index: nat, inv: Invocation)
    requires IsToldCleanup(site, lifecycle, at, index, inv)
    ensures var priors := ToldPriors(site, lifecycle, at, index);
            && (forall p :: p in priors && p.operation == "apply" ==>
                  inv.input.At("apply") == p.recorded.response.data)
            && ((forall p :: p in priors ==> p.operation != "apply") ==> inv.input.At("apply") == Null)
            && (priors == [] ==> inv.input.At("receipt") == Null)
            && (forall k: nat :: IsLatest(priors, k) ==>
                  inv.input.At("receipt") == priors[k].recorded.response.data)
  {
    var priors := ToldPriors(site, lifecycle, at, index);
    assert inv.input.At("apply") == AsJson(DataOf(priors, "apply"));
    assert inv.input.At("receipt") == AsJson(LatestData(priors));
    DataIsOne(priors, "apply");
    forall p | p in priors && p.operation == "apply"
      ensures inv.input.At("apply") == p.recorded.response.data
    {
      var q :| q in priors && q.operation == "apply" && DataOf(priors, "apply") == Some(q.recorded.response.data);
      OnePriorEach(site, lifecycle, at, index, p, q);
    }
    forall k: nat | IsLatest(priors, k) ensures inv.input.At("receipt") == priors[k].recorded.response.data {
      LatestIs(priors, k);
    }
  }

  /** A cleanup that goes on from nothing of its own goes on from that. */
  lemma ToldPrevious(site: Site, lifecycle: ProviderLifecycle, at: World, index: nat, inv: Invocation)
    requires IsToldCleanup(site, lifecycle, at, index, inv) && inv.call.requestId !in at.files
    ensures var priors := ToldPriors(site, lifecycle, at, index);
            && (priors == [] ==> inv.previous == None)
            && (forall k: nat :: IsLatest(priors, k) ==>
                  inv.previous == Some(EncodeResponse(priors[k].recorded.response)))
  {
    var priors := ToldPriors(site, lifecycle, at, index);
    forall k: nat | IsLatest(priors, k)
      ensures inv.previous == Some(EncodeResponse(priors[k].recorded.response))
    {
      LatestIs(priors, k);
    }
  }
}
