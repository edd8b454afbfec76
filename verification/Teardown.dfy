/** `destroy`: which create receipt it acts on, when it acts, and what each cleanup is told. */
module Teardown {
  import opened Wrappers
  import opened Protocol
  import opened Receipts
  import opened Selection
  import opened Dispatch
  import opened OrderedNames
  import L = Lifecycle

  /* The receipt directory */

  function OwnEntries(ids: seq<string>, files: Files, modified: map<string, nat>): seq<Entry> {
    if ids == [] then []
    else (if ids[0] in files && ids[0] in modified then [Entry(modified[ids[0]], true, Readable(files[ids[0]]))]
          else [])
         + OwnEntries(ids[1..], files, modified)
  }

  /** What the directory shows: this store's receipts, and whatever else is there. */
  function Listing(site: Site, w: World): seq<Entry> {
    site.others(w.clock) + OwnEntries(site.order(w.files.Keys), w.files, w.modified)
  }

  /* The create receipt */

  function Chosen(found: Result<Option<RecordedResponse>, SelectionError>): Result<Option<RecordedResponse>, Error> {
    match found
    case Failure(error) => Failure(Selecting(error))
    case Success(recorded) => Success(recorded)
  }

  function CreateIdentity(m: Manifest, binding: Binding): ReceiptIdentity {
    ReceiptIdentity(m.environment, binding.extension, "create")
  }

  function CreateFingerprint(site: Site, binding: Binding): string {
    site.bindingPrint(binding, "create", NO_INPUT, None)
  }

  function OwnedCreate(site: Site, w: World, binding: Binding): Result<Option<RecordedResponse>, SelectionError> {
    EnsureFingerprint(Found(NewestEntry(Listing(site, w), StopsAtOwned(CreateIdentity(site.manifest, binding)))),
                      CreateFingerprint(site, binding))
  }

  function LatestCreate(site: Site, w: World, binding: Binding): Result<Option<RecordedResponse>, SelectionError> {
    EnsureFingerprint(Found(NewestEntry(Listing(site, w), StopsAtAnswer(CreateIdentity(site.manifest, binding)))),
                      CreateFingerprint(site, binding))
  }

  /** The owned create, and only without one the latest create that was answered. */
  function Created(site: Site, w: World, binding: Binding): Result<RecordedResponse, Error> {
    match OwnedCreate(site, w, binding)
    case Failure(error) => Failure(Selecting(error))
    case Success(Some(owned)) => Success(owned)
    case Success(None) =>
      match LatestCreate(site, w, binding)
      case Failure(error) => Failure(Selecting(error))
      case Success(Some(latest)) => Success(latest)
      case Success(None) => Failure(NoRecordedCreation)
  }

  method CreatedProviderResource(controller: Controller, binding: Binding) returns (r: Result<RecordedResponse, Error>)
    requires controller.Valid()
    ensures r == Created(controller.site, controller.Now(), binding)
  {
    var id := CreateIdentity(controller.site.manifest, binding);
    var expected := CreateFingerprint(controller.site, binding);
    var listing := Listing(controller.site, controller.Now());
    AskedOfEntries(listing, StopsAtOwned(id));
    var owned := LatestOwnedMatchingRecord(Some(AsListed(listing)), id);
    var checked := EnsureFingerprint(owned, expected);
    if checked.Failure? {
      return Failure(Selecting(checked.error));
    }
    if checked.value.Some? {
      return Success(checked.value.value);
    }
    AskedOfEntries(listing, StopsAtAnswer(id));
    var latest := LatestMatchingRecord(Some(AsListed(listing)), id);
    checked := EnsureFingerprint(latest, expected);
    if checked.Failure? {
      return Failure(Selecting(checked.error));
    }
    r := if checked.value.Some? then Success(checked.value.value) else Failure(NoRecordedCreation);
  }

  /* The provider's destroy */

  function DestroyInput(create: AdapterResponse): Json {
    Object(map["create" := create.data])
  }

  /** The receipt of one particular request. */
  function RecordedFor(w: World, call: Call): Result<RecordedResponse, Error> {
    if call.requestId !in w.files || call.requestId !in w.modified then Failure(Applying(Io))
    else
      var record := w.files[call.requestId];
      if record.identity != call.identity then Failure(IdentityMismatch)
      else if record.fingerprint != call.fingerprint then Failure(Selecting(FingerprintMismatch))
      else if record.response.None? then Failure(Selecting(NoResponse))
      else Success(RecordedResponse(record.response.value, w.modified[call.requestId]))
  }

  function DestroyCall(site: Site, key: string, binding: Binding, create: AdapterResponse): Call {
    BindingCall(site, key, binding, "destroy", 0, DestroyInput(create), None)
  }

  function ProviderDestroyed(site: Site, w: World, key: Option<string>, binding: Binding, create: AdapterResponse)
    : (World, Result<RecordedResponse, Error>)
  {
    var (after, reply) := Called(site, w, key, binding, "destroy", 0, DestroyInput(create), None);
    if reply.Failure? then (after, Failure(reply.error))
    else
      match MutationKey(key)
      case Failure(error) => (after, Failure(error))
      case Success(k) => (after, RecordedFor(after, DestroyCall(site, k, binding, create)))
  }

  method DestroyProviderResource(controller: Controller, key: Option<string>, binding: Binding, create: AdapterResponse)
    returns (r: Result<RecordedResponse, Error>)
    requires controller.Valid()
    modifies controller, controller.receipts
    ensures controller.Valid()
    ensures (controller.Now(), r) == ProviderDestroyed(controller.site, old(controller.Now()), key, binding, create)
  {
    var reply := controller.CallBinding(key, binding, "destroy", 0, DestroyInput(create), None);
    if reply.Failure? {
      return Failure(reply.error);
    }
    var k := MutationKey(key);
    if k.Failure? {
      return Failure(k.error);
    }
    r := RecordedFor(controller.Now(), DestroyCall(controller.site, k.value, binding, create));
  }

  /* What a cleanup is told */

  datatype Prior = Prior(operation: string, recorded: RecordedResponse)

  /** The newest of them; of several equally new, the first. */
  function Latest(pushed: seq<Prior>): (k: Option<nat>)
    ensures k.None? <==> pushed == []
    ensures k.Some? ==>
              && k.value < |pushed|
              && (forall i :: 0 <= i < |pushed| ==> pushed[i].recorded.modified <= pushed[k.value].recorded.modified)
              && (forall i :: 0 <= i < k.value ==> pushed[i].recorded.modified < pushed[k.value].recorded.modified)
  {
    if pushed == [] then None
    else
      var last, k := |pushed| - 1, Latest(pushed[..|pushed| - 1]);
      if k.None? || pushed[last].recorded.modified > pushed[k.value].recorded.modified then Some(last) else k
  }

  /** What is on record for an operation; of several, the last. */
  function DataOf(pushed: seq<Prior>, operation: string): Option<Json> {
    if pushed == [] then None
    else if pushed[|pushed| - 1].operation == operation then Some(pushed[|pushed| - 1].recorded.response.data)
    else DataOf(pushed[..|pushed| - 1], operation)
  }

  class PriorReceipts {
    var entries: seq<(string, AdapterResponse)>
    var previous: Option<Json>
    var latestData: Option<Json>
    var applyData: Option<Json>
    var latestModified: Option<nat>

    /** The fields are what these receipts, pushed in this order, come to. */
    ghost predicate Holds(pushed: seq<Prior>)
      reads this
    {
      && entries == Entries(pushed)
      && applyData == DataOf(pushed, "apply")
      && match Latest(pushed)
         case None => previous == None && latestData == None && latestModified == None
         case Some(k) =>
           && previous == Some(EncodeResponse(pushed[k].recorded.response))
           && latestData == Some(pushed[k].recorded.response.data)
           && latestModified == Some(pushed[k].recorded.modified)
    }

    constructor ()
      ensures Holds([])
    {
      entries, previous, latestData, applyData, latestModified := [], None, None, None, None;
    }

    method Push(operation: string, recorded: RecordedResponse, ghost pushed: seq<Prior>)
      requires Holds(pushed)
      modifies this
      ensures Holds(pushed + [Prior(operation, recorded)])
    {
      ghost var more := pushed + [Prior(operation, recorded)];
      assert more[..|more| - 1] == pushed;
      EntriesExtend(pushed, Prior(operation, recorded));
      if operation == "apply" {
        applyData := Some(recorded.response.data);
      }
      if latestModified.None? || recorded.modified > latestModified.value {
        latestData := Some(recorded.response.data);
        previous := Some(EncodeResponse(recorded.response));
        latestModified := Some(recorded.modified);
      }
      entries := entries + [(operation, recorded.response)];
    }
  }

  function Entries(pushed: seq<Prior>): seq<(string, AdapterResponse)> {
    seq(|pushed|, i requires 0 <= i < |pushed| => (pushed[i].operation, pushed[i].recorded.response))
  }

  lemma EntriesExtend(pushed: seq<Prior>, p: Prior)
    ensures Entries(pushed + [p]) == Entries(pushed) + [(p.operation, p.recorded.response)]
  {
  }

  /** The operations whose receipts a cleanup may want, in name order. */
  function SetupOperations(extension: Extension): seq<string> {
    Ordered(set name | name in extension.operations
                       && name != "cleanup" && extension.operations[name].mutating
                       && !extension.operations[name].internal)
  }

  function PriorReceipt(listing: seq<Entry>, environment: string, extension: string, operation: string, start: nat,
                        end: nat)
    : Result<Option<RecordedResponse>, Error>
  {
    Chosen(Windowed(NewestEntry(listing,
                                StopsInWindow(ReceiptIdentity(environment, extension, operation), start, end))))
  }

  function PriorOf(listing: seq<Entry>, environment: string, extension: string, operations: seq<string>, start: nat,
                   end: nat)
    : Result<seq<Prior>, Error>
  {
    if operations == [] then Success([])
    else
      match PriorReceipt(listing, environment, extension, operations[0], start, end)
      case Failure(error) => Failure(error)
      case Success(found) =>
        match PriorOf(listing, environment, extension, operations[1..], start, end)
        case Failure(error) => Failure(error)
        case Success(rest) =>
          Success((if found.Some? then [Prior(operations[0], found.value)] else []) + rest)
  }

  datatype ProviderLifecycle = ProviderLifecycle(create: RecordedResponse, destroy: RecordedResponse)

  function AsJson(value: Option<Json>): Json {
    if value.Some? then value.value else Null
  }

  function EntriesJson(entries: seq<(string, AdapterResponse)>): Json {
    Array(seq(|entries|, i requires 0 <= i < |entries| =>
      Object(map["operation" := String(entries[i].0), "response" := EncodeResponse(entries[i].1)])))
  }

  function CleanupInput(lifecycle: ProviderLifecycle, entries: seq<(string, AdapterResponse)>,
                        applyData: Option<Json>, latestData: Option<Json>): Json
  {
    Object(map[
      "provider_create" := EncodeResponse(lifecycle.create.response),
      "provider_destroy" := EncodeResponse(lifecycle.destroy.response),
      "integration_receipts" := EntriesJson(entries),
      "apply" := AsJson(applyData),
      "receipt" := AsJson(latestData)])
  }

  function LatestData(pushed: seq<Prior>): Option<Json> {
    if Latest(pushed).Some? then Some(pushed[Latest(pushed).value].recorded.response.data) else None
  }

  function LatestResponse(pushed: seq<Prior>): Option<Json> {
    if Latest(pushed).Some? then Some(EncodeResponse(pushed[Latest(pushed).value].recorded.response)) else None
  }

  function PriorInput(lifecycle: ProviderLifecycle, pushed: seq<Prior>): Json {
    CleanupInput(lifecycle, Entries(pushed), DataOf(pushed, "apply"), LatestData(pushed))
  }

  method CollectPrior(listing: seq<Entry>, environment: string, extension: string, operations: seq<string>, start: nat,
                      end: nat)
    returns (r: Result<PriorReceipts, Error>, ghost pushed: seq<Prior>)
    ensures match PriorOf(listing, environment, extension, operations, start, end)
            case Failure(error) => r == Failure(error)
            case Success(priors) => r.Success? && fresh(r.value) && pushed == priors && r.value.Holds(pushed)
  {
    ghost var found := PriorOf(listing, environment, extension, operations, start, end);
    var prior := new PriorReceipts();
    pushed := [];
    assert operations[0..] == operations;
    Unpreceded(found);
    for i := 0 to |operations|
      invariant fresh(prior) && prior.Holds(pushed)
      invariant found == Preceded(pushed, PriorOf(listing, environment, extension, operations[i..], start, end))
    {
      assert operations[i..][1..] == operations[i + 1..];
      ghost var rest := PriorOf(listing, environment, extension, operations[i + 1..], start, end);
      var id := ReceiptIdentity(environment, extension, operations[i]);
      AskedOfEntries(listing, StopsInWindow(id, start, end));
      var recorded := LatestRecordedResponseBetween(Some(AsListed(listing)), id, start, end);
      if recorded.Failure? {
        return Failure(Selecting(recorded.error)), pushed;
      }
      if recorded.value.Some? {
        PrecededOn(pushed, [Prior(operations[i], recorded.value.value)], rest);
        prior.Push(operations[i], recorded.value.value, pushed);
        pushed := pushed + [Prior(operations[i], recorded.value.value)];
      } else {
        PrecededOn(pushed, [], rest);
        assert pushed + [] == pushed;
      }
    }
    assert pushed + [] == pushed;
    r := Success(prior);
  }

  lemma Unpreceded(rest: Result<seq<Prior>, Error>)
    ensures Preceded([], rest) == rest
  {
    assert rest.Success? ==> [] + rest.value == rest.value;
  }

  lemma PrecededOn(pushed: seq<Prior>, more: seq<Prior>, rest: Result<seq<Prior>, Error>)
    ensures Preceded(pushed, Preceded(more, rest)) == Preceded(pushed + more, rest)
  {
    assert rest.Success? ==> pushed + (more + rest.value) == (pushed + more) + rest.value;
  }

  function Preceded(pushed: seq<Prior>, rest: Result<seq<Prior>, Error>): Result<seq<Prior>, Error> {
    if rest.Success? then Success(pushed + rest.value) else rest
  }

  /* The cleanups */

  predicate Repeated(m: Manifest, i: nat, k: nat)
    requires i < k < |m.integrations|
  {
    m.integrations[i].extension == m.integrations[k].extension && m.Supports(m.integrations[k].extension, "cleanup")
  }

  predicate Duplicated(m: Manifest) {
    exists i, k :: 0 <= i < k < |m.integrations| && Repeated(m, i, k)
  }

  method RejectDuplicateCleanupBindings(m: Manifest) returns (duplicate: bool)
    ensures duplicate <==> Duplicated(m)
  {
    var seen: set<string> := {};
    for k := 0 to |m.integrations|
      invariant forall x :: x in seen <==>
                            exists i :: 0 <= i < k && m.integrations[i].extension == x && m.Supports(x, "cleanup")
      invariant forall i, j :: 0 <= i < j < k ==> !Repeated(m, i, j)
    {
      var extension := m.integrations[k].extension;
      if !m.Supports(extension, "cleanup") {
        continue;
      }
      if extension in seen {
        var i :| 0 <= i < k && m.integrations[i].extension == extension && m.Supports(extension, "cleanup");
        assert Repeated(m, i, k);
        return true;
      }
      seen := seen + {extension};
    }
    duplicate := false;
  }

  function CleanupRefusal(m: Manifest, binding: Binding): Option<Error>
    requires m.Supports(binding.extension, "cleanup")
  {
    var extension := m.extensions[binding.extension];
    var operation := extension.operations["cleanup"];
    if !operation.mutating then Some(CleanupNotMutating)
    else if (if operation.place.Some? then operation.place.value else extension.place).OnTarget? then
      Some(CleanupNotOnController)
    else None
  }

  function PriorFor(site: Site, w: World, binding: Binding, lifecycle: ProviderLifecycle): Result<seq<Prior>, Error>
    requires binding.extension in site.manifest.extensions
  {
    PriorOf(Listing(site, w), site.manifest.environment, binding.extension,
            SetupOperations(site.manifest.extensions[binding.extension]), lifecycle.create.modified,
              lifecycle.destroy.modified)
  }

  predicate HasCleanup(m: Manifest, index: nat) {
    index < |m.integrations| && m.Supports(m.integrations[index].extension, "cleanup")
  }

  /** One cleanup: what is on record for its integration, then the call that is told of it. */
  function CleanedOne(site: Site, key: Option<string>, lifecycle: ProviderLifecycle, w: World,
                      index: nat): (World, Reply)
  {
    if !HasCleanup(site.manifest, index) then (w, Failure(UnknownOperation))
    else
      var binding := site.manifest.integrations[index];
      if CleanupRefusal(site.manifest, binding).Some? then (w, Failure(CleanupRefusal(site.manifest, binding).value))
      else
        match PriorFor(site, w, binding, lifecycle)
        case Failure(error) => (w, Failure(error))
        case Success(pushed) =>
          Called(site, w, key, binding, "cleanup", index, PriorInput(lifecycle, pushed), LatestResponse(pushed))
  }

  type Clean = (World, nat) -> (World, Reply)

  function Cleaning(site: Site, key: Option<string>, lifecycle: ProviderLifecycle): Clean {
    (w: World, index: nat) => CleanedOne(site, key, lifecycle, w, index)
  }

  datatype Cleanups = Cleanups(world: World, items: seq<L.Item>, error: Option<Error>)

  /** Every cleanup, whatever the ones before it answered; only an error stops them. */
  function Cleaned(clean: Clean, m: Manifest, w: World, i: nat): Cleanups
    requires i <= |m.integrations|
    decreases |m.integrations| - i
  {
    if i == |m.integrations| then Cleanups(w, [], None)
    else if !HasCleanup(m, i) then Cleaned(clean, m, w, i + 1)
    else
      var (after, reply) := clean(w, i);
      if reply.Failure? then Cleanups(after, [], Some(reply.error))
      else
        var rest := Cleaned(clean, m, after, i + 1);
        rest.(items := [L.Step(m.integrations[i].extension, reply.value)] + rest.items)
  }

  method CleanupOne(controller: Controller, key: Option<string>, lifecycle: ProviderLifecycle, index: nat,
                    ghost clean: Clean)
    returns (r: Reply)
    requires controller.Valid() && HasCleanup(controller.site.manifest, index)
    requires clean == Cleaning(controller.site, key, lifecycle)
    modifies controller, controller.receipts
    ensures controller.Valid()
    ensures (controller.Now(), r) == clean(old(controller.Now()), index)
  {
    var m := controller.site.manifest;
    var binding := m.integrations[index];
    var refusal := CleanupRefusal(m, binding);
    if refusal.Some? {
      return Failure(refusal.value);
    }
    var prior, pushed := CollectPrior(Listing(controller.site, controller.Now()), m.environment, binding.extension,
                                      SetupOperations(m.extensions[binding.extension]),
                                      lifecycle.create.modified, lifecycle.destroy.modified);
    if prior.Failure? {
      return Failure(prior.error);
    }
    var input := CleanupInput(lifecycle, prior.value.entries, prior.value.applyData, prior.value.latestData);
    assert input == PriorInput(lifecycle, pushed) && prior.value.previous == LatestResponse(pushed);
    r := controller.CallBinding(key, binding, "cleanup", index, input, prior.value.previous);
  }

  method CleanupIntegrations(controller: Controller, key: Option<string>, lifecycle: ProviderLifecycle,
                             results: seq<L.Item>)
    returns (items: seq<L.Item>, error: Option<Error>)
    requires controller.Valid()
    modifies controller, controller.receipts
    ensures controller.Valid()
    ensures if Duplicated(controller.site.manifest) then
              controller.Now() == old(controller.Now()) && error == Some(DuplicateCleanup)
            else
              var cleaned := Cleaned(Cleaning(controller.site, key, lifecycle), controller.site.manifest,
                                     old(controller.Now()), 0);
              && controller.Now() == cleaned.world && error == cleaned.error
              && (error.None? ==> items == results + cleaned.items)
  {
    ghost var w, clean := controller.Now(), Cleaning(controller.site, key, lifecycle);
    var m := controller.site.manifest;
    items := results;
    var duplicate := RejectDuplicateCleanupBindings(m);
    if duplicate {
      return items, Some(DuplicateCleanup);
    }
    for i := 0 to |m.integrations|
      invariant controller.Valid()
      invariant CleansOn(Cleaned(clean, m, w, 0), results, Cleaned(clean, m, controller.Now(), i), items)
    {
      var extension := m.integrations[i].extension;
      if !m.Supports(extension, "cleanup") {
        continue;
      }
      ghost var before, shown := controller.Now(), items;
      var response := CleanupOne(controller, key, lifecycle, i, clean);
      CleansOne(clean, m, before, i, controller.Now(), response, Cleaned(clean, m, w, 0), results, shown);
      if response.Failure? {
        return items, Some(response.error);
      }
      items := items + [L.Step(extension, response.value)];
    }
    assert items + [] == items;
    error := None;
  }

  lemma CleansOne(clean: Clean, m: Manifest, before: World, i: nat, now: World, reply: Reply,
                  whole: Cleanups, results: seq<L.Item>, items: seq<L.Item>)
    requires HasCleanup(m, i) && clean(before, i) == (now, reply)
    requires CleansOn(whole, results, Cleaned(clean, m, before, i), items)
    ensures reply.Failure? ==> whole.world == now && whole.error == Some(reply.error)
    ensures reply.Success? ==>
              CleansOn(whole, results, Cleaned(clean, m, now, i + 1),
                       items + [L.Step(m.integrations[i].extension, reply.value)])
  {
    if reply.Success? {
      L.AppendAssociates(items, [L.Step(m.integrations[i].extension, reply.value)],
                         Cleaned(clean, m, now, i + 1).items);
    }
  }

  /** What is left ends as the whole does, once the items so far are put in front. */
  ghost predicate CleansOn(whole: Cleanups, results: seq<L.Item>, rest: Cleanups, items: seq<L.Item>) {
    whole.world == rest.world && whole.error == rest.error && results + whole.items == items + rest.items
  }

  /* The whole */

  /** The create receipt says this environment owns a resource it can name. */
  predicate ClaimsResource(create: AdapterResponse) {
    create.data.At("owned") == Bool(true) && create.data.At("resource_id").String?
  }

  function CleanedUp(site: Site, w: World, key: Option<string>, lifecycle: ProviderLifecycle): Cleanups {
    if Duplicated(site.manifest) then Cleanups(w, [], Some(DuplicateCleanup))
    else Cleaned(Cleaning(site, key, lifecycle), site.manifest, w, 0)
  }

  /** From a create receipt that passed the gate. */
  function TornDown(site: Site, w: World, key: Option<string>, binding: Binding,
                    create: RecordedResponse): (World, L.Reported)
  {
    var (gone, destroyed) := ProviderDestroyed(site, w, key, binding, create.response);
    if destroyed.Failure? then (gone, Failure(destroyed.error))
    else
      var first := L.Step(binding.extension, destroyed.value.response);
      if !destroyed.value.response.Complete() then (gone, Success(L.Aggregate([first])))
      else
        var cleaned := CleanedUp(site, gone, key, ProviderLifecycle(create, destroyed.value));
        (cleaned.world,
         if cleaned.error.Some? then Failure(cleaned.error.value) else Success(L.Aggregate([first] + cleaned.items)))
  }

  /** What `destroy` acts on, or the answer it gives without acting. */
  function Gate(site: Site, w: World): Result<(Binding, RecordedResponse), L.Reported> {
    if !site.manifest.ephemeral then Failure(Failure(NotEphemeral))
    else if site.manifest.provider.None? then Failure(Failure(NoProvider))
    else
      var binding := site.manifest.provider.value;
      match Created(site, w, binding)
      case Failure(error) => Failure(Failure(error))
      case Success(create) =>
        if !create.response.Complete() then Failure(Success(L.Aggregate([L.Step(binding.extension, create.response)])))
        else if !ClaimsResource(create.response) then Failure(Failure(NotOwned))
        else Success((binding, create))
  }

  function Destroyed(site: Site, w: World, key: Option<string>): (World, L.Reported) {
    match Gate(site, w)
    case Failure(answer) => (w, answer)
    case Success(claim) => TornDown(site, w, key, claim.0, claim.1)
  }

  method Destroy(controller: Controller, key: Option<string>) returns (r: L.Reported)
    requires controller.Valid()
    modifies controller, controller.receipts
    ensures controller.Valid()
    ensures (controller.Now(), r) == Destroyed(controller.site, old(controller.Now()), key)
  {
    var m := controller.site.manifest;
    if !m.ephemeral {
      return Failure(NotEphemeral);
    }
    if m.provider.None? {
      return Failure(NoProvider);
    }
    var binding := m.provider.value;
    var created := CreatedProviderResource(controller, binding);
    if created.Failure? {
      return Failure(created.error);
    }
    var receipt := created.value.response;
    if !receipt.Complete() {
      return Success(L.Aggregate([L.Step(binding.extension, receipt)]));
    }
    if receipt.data.At("owned") != Bool(true) || !receipt.data.At("resource_id").String? {
      return Failure(NotOwned);
    }
    r := TearDown(controller, key, binding, created.value);
  }

  method TearDown(controller: Controller, key: Option<string>, binding: Binding, create: RecordedResponse)
    returns (r: L.Reported)
    requires controller.Valid()
    modifies controller, controller.receipts
    ensures controller.Valid()
    ensures (controller.Now(), r) == TornDown(controller.site, old(controller.Now()), key, binding, create)
  {
    var destroyed := DestroyProviderResource(controller, key, binding, create.response);
    if destroyed.Failure? {
      return Failure(destroyed.error);
    }
    var results := [L.Step(binding.extension, destroyed.value.response)];
    if destroyed.value.response.Complete() {
      var items, error := CleanupIntegrations(controller, key, ProviderLifecycle(create, destroyed.value), results);
      if error.Some? {
        return Failure(error.value);
      }
      results := items;
    }
    r := Success(L.Aggregate(results));
  }
}
