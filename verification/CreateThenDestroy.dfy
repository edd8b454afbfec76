/** From a create to its destroy: what `up` recorded is what the gate of `destroy` finds and the provider is handed. */
module CreateThenDestroy {
  import opened Wrappers
  import opened Protocol
  import opened Receipts
  import opened Selection
  import opened Dispatch
  import opened Teardown
  import opened TeardownSafety

  /** The create of the provider, as `up` calls it. */
  function CreateOf(site: Site, key: string, binding: Binding): Call {
    BindingCall(site, key, binding, "create", Position(site.manifest.integrations, binding), NO_INPUT, None)
  }

  function Performed(site: Site, w: World, key: string, binding: Binding): (World, Reply) {
    L.Performed(site, w, Some(key),
                L.Integrate(binding, "create", Position(site.manifest.integrations, binding)))
  }

  /** What the listing shows of a store: its receipts, and all of those it is asked to list. */
  lemma {:induction false} OwnEntriesAre(ids: seq<string>, files: Files, modified: map<string, nat>)
    ensures forall e :: e in OwnEntries(ids, files, modified) ==>
              e.isJson && e.content.Readable? && exists id :: id in files && files[id] == e.content.record
    ensures forall id :: id in ids && id in files && id in modified ==>
              Entry(modified[id], true, Readable(files[id])) in OwnEntries(ids, files, modified)
  {
    if ids != [] {
      OwnEntriesAre(ids[1..], files, modified);
    }
  }

  /** The store of this environment's receipts, alone in its directory, with no other create of this provider. */
  predicate AloneWith(site: Site, w: World, call: Call) {
    && site.others(w.clock) == [] && call.requestId in w.files && call.requestId in w.modified
    && call.requestId in site.order(w.files.Keys)
    && forall id :: id in w.files && id != call.requestId ==> w.files[id].identity != call.identity
  }

  lemma AloneSaysOnly(site: Site, w: World, binding: Binding, call: Call, response: AdapterResponse)
    requires call.identity == CreateIdentity(site.manifest, binding)
    requires call.fingerprint == CreateFingerprint(site, binding)
    requires AloneWith(site, w, call) && w.files[call.requestId] == Record(call, Response, Some(response))
    ensures OnlyCreateSays(Listing(site, w), CreateIdentity(site.manifest, binding), CreateFingerprint(site, binding),
                           response)
  {
    var ids := site.order(w.files.Keys);
    OwnEntriesAre(ids, w.files, w.modified);
    assert Listing(site, w) == OwnEntries(ids, w.files, w.modified);
    assert Answers(Entry(w.modified[call.requestId], true, Readable(w.files[call.requestId])), call.identity);
  }

  /** A create that is new is answered by the provider, and its receipt holds the answer. */
  lemma CreateIsRecorded(site: Site, w: World, key: string, binding: Binding)
    requires site.manifest.Mutating(binding.extension, "create") && MutationKey(Some(key)).Success?
    requires CreateOf(site, key, binding).requestId !in w.files
    ensures var call, (after, reply) := CreateOf(site, key, binding), Performed(site, w, key, binding);
            reply.Success? ==>
              && call.requestId in after.files && call.requestId in after.modified
              && after.files[call.requestId] == Record(call, Response, Some(reply.value))
  {
  }

  /** What a create claimed opens the gate of `destroy`, exactly if it is complete and claims something. */
  lemma CreateOpensGate(site: Site, w: World, key: string, binding: Binding)
    requires site.manifest.ephemeral && site.manifest.provider == Some(binding)
    requires site.manifest.Mutating(binding.extension, "create") && MutationKey(Some(key)).Success?
    requires CreateOf(site, key, binding).requestId !in w.files && Performed(site, w, key, binding).1.Success?
    requires AloneWith(site, Performed(site, w, key, binding).0, CreateOf(site, key, binding))
    ensures var (after, reply) := Performed(site, w, key, binding);
            && (Gate(site, after).Success? <==> reply.value.Complete() && ClaimsResource(reply.value))
            && (Gate(site, after).Success? ==>
                  Gate(site, after).value.0 == binding && Gate(site, after).value.1.response == reply.value)
  {
    var (after, reply) := Performed(site, w, key, binding);
    CreateIsRecorded(site, w, key, binding);
    AloneSaysOnly(site, after, binding, CreateOf(site, key, binding), reply.value);
    OnlyCreateDecides(site, after, binding, reply.value);
  }

  /** And the provider's destroy is then handed exactly what its create answered. */
  lemma CreateReachesDestroy(site: Site, w: World, key: string, down: string, binding: Binding,
                             create: RecordedResponse)
    requires site.manifest.ephemeral && site.manifest.provider == Some(binding)
    requires site.manifest.Mutating(binding.extension, "create") && MutationKey(Some(key)).Success?
    requires CreateOf(site, key, binding).requestId !in w.files && Performed(site, w, key, binding).1.Success?
    requires AloneWith(site, Performed(site, w, key, binding).0, CreateOf(site, key, binding))
    requires Gate(site, Performed(site, w, key, binding).0) == Success((binding, create))
    requires Sendable(site, Performed(site, w, key, binding).0, down, binding, create)
    ensures var (after, reply) := Performed(site, w, key, binding);
            var invoked := Destroyed(site, after, Some(down)).0.invoked;
            |invoked| > |after.invoked| && IsHanded(site, binding, reply.value, invoked[|after.invoked|])
  {
    CreateOpensGate(site, w, key, binding);
    OpenGateIsSent(site, Performed(site, w, key, binding).0, down, binding, create);
  }

  predicate IsHanded(site: Site, binding: Binding, created: AdapterResponse, inv: Invocation) {
    && inv.call.identity == ReceiptIdentity(site.manifest.environment, binding.extension, "destroy")
    && inv.input.At("create") == created.data
  }
}
