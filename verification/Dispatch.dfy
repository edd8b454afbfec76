/** One operation of one binding: its request id, its receipt and the adapter behind it. */
module Dispatch {
  import opened Wrappers
  import opened Protocol
  import opened Receipts
  import opened Selection
  import opened Text

  datatype Place = OnController | OnTarget

  datatype Operation = Operation(mutating: bool, internal: bool, place: Option<Place>)

  datatype Extension = Extension(place: Place, operations: map<string, Operation>)

  datatype Binding = Binding(extension: string, config: Json)

  /** One environment with its host's provider and the extensions it may name. */
  datatype Manifest = Manifest(
    environment: string, ephemeral: bool, extensions: map<string, Extension>,
    integrations: seq<Binding>, connection: Option<Binding>, provider: Option<Binding>)
  {
    predicate Supports(extension: string, operation: string) {
      extension in extensions && operation in extensions[extension].operations
    }

    predicate Mutating(extension: string, operation: string) {
      Supports(extension, operation) && extensions[extension].operations[operation].mutating
    }
  }

  datatype Error =
    | UnknownOperation
    | KeyRequired
    | ConnectionNotIntegrated
    | MultipleBootstrap
    | NoStdout
    | InvalidProfile
    | InvalidEvaluation
    | NotEphemeral
    | NoProvider
    | NoRecordedCreation
    | NotOwned
    | IdentityMismatch
    | DuplicateCleanup
    | CleanupNotMutating
    | CleanupNotOnController
    | Selecting(selection: SelectionError)
    | Applying(receipt: ApplyError)

  type Reply = Result<AdapterResponse, Error>

  /** What an adapter is handed. */
  datatype Invocation = Invocation(call: Call, config: Json, input: Json, previous: Option<Json>)

  /**
   * Everything the controller does not decide: digests, fresh ids, parsing, how adapters answer and how long
   * they take, what else the receipt directory holds at each time and in which order it lists its files.
   */
  datatype Site = Site(
    manifest: Manifest,
    bindingPrint: (Binding, string, Json, Option<Json>) -> string,
    stagePrint: string -> string,
    nonce: nat -> string,
    parse: string -> Option<Json>,
    adapter: (nat, Invocation) -> Outcome,
    pace: nat -> nat,
    order: set<string> -> seq<string>,
    others: nat -> seq<Entry>)

  datatype World = World(
    files: Files, modified: map<string, nat>, clock: nat, invoked: seq<Invocation>, applied: Option<Json>)

  const NO_INPUT := Object(map[])

  function MutationKey(key: Option<string>): Result<string, Error> {
    if key.Some? && Trim(key.value) != "" then Success(key.value) else Failure(KeyRequired)
  }

  /** A key must hold more than white space. */
  lemma BlankKeysAreRefused(key: Option<string>)
    ensures MutationKey(key) == if key.Some? && HasText(key.value) then Success(key.value) else Failure(KeyRequired)
  {
    if key.Some? {
      TrimsToNothingIff(key.value);
    }
  }

  function Joined(key: string, environment: string, operation: string, rest: string): string {
    key + ":" + environment + ":" + operation + ":" + rest
  }

  function BindingRequestId(key: string, environment: string, operation: string, index: nat,
                            extension: string): string
  {
    Joined(key, environment, operation, Decimal(index) + ":" + extension)
  }

  function StageKey(key: string, environment: string, stage: string): string {
    Joined(key, environment, "devenv", stage)
  }

  /** Where the environment lists an equal binding, or the first place. */
  function Position(bindings: seq<Binding>, binding: Binding): (k: nat)
    ensures binding in bindings ==>
              k < |bindings| && bindings[k] == binding && forall i :: 0 <= i < k ==> bindings[i] != binding
    ensures binding !in bindings ==> k == 0
  {
    if binding !in bindings || bindings[0] == binding then 0 else Position(bindings[1..], binding) + 1
  }

  function BindingCall(site: Site, key: string, binding: Binding, operation: string, index: nat, input: Json,
                       previous: Option<Json>): Call
  {
    Call(ReceiptIdentity(site.manifest.environment, binding.extension, operation),
         BindingRequestId(key, site.manifest.environment, operation, index, binding.extension),
         site.bindingPrint(binding, operation, input, previous))
  }

  function StageCall(site: Site, key: string, stage: string): Call {
    Call(ReceiptIdentity(site.manifest.environment, "devenv", stage),
         StageKey(key, site.manifest.environment, stage), site.stagePrint(stage))
  }

  /** A recorded response takes the place of what the caller would have handed over. */
  function Handed(inv: Invocation, recorded: Option<AdapterResponse>): Invocation {
    inv.(previous := if recorded.Some? then Some(EncodeResponse(recorded.value)) else inv.previous)
  }

  function Answering(site: Site, tick: nat, inv: Invocation): Option<AdapterResponse> -> Outcome {
    (recorded: Option<AdapterResponse>) => site.adapter(tick, Handed(inv, recorded))
  }

  function AsReply(outcome: Outcome): Reply {
    match outcome
    case Success(response) => Success(response)
    case Failure(error) => Failure(Applying(error))
  }

  /** A mutation under its receipt. */
  function Saved(site: Site, w: World, inv: Invocation): (World, Reply) {
    var id, tick := inv.call.requestId, |w.invoked|;
    var (files, outcome) := Applied(w.files, inv.call, Answering(site, tick, inv));
    match Decide(w.files, inv.call)
    case Invoke(record) =>
      var clock := w.clock + site.pace(tick);
      (World(files, w.modified[id := if outcome.Success? then clock else w.clock], clock,
             w.invoked + [Handed(inv, Carried(record))], w.applied),
       AsReply(outcome))
    case _ => (w, AsReply(outcome))
  }

  /** The same, whatever the disk does. */
  function SavedUnder(site: Site, w: World, inv: Invocation, disk: Disk): (World, Reply) {
    var id, tick := inv.call.requestId, |w.invoked|;
    var (files, outcome) := AppliedUnder(w.files, inv.call, Answering(site, tick, inv), disk);
    if !Marks(w.files, inv.call, disk) then (w, AsReply(outcome))
    else if disk.mark.Lost? then (w, AsReply(outcome))
    else if disk.mark.Late? then (w.(files := files, modified := w.modified[id := w.clock]), AsReply(outcome))
    else
      var clock := w.clock + site.pace(tick);
      (World(files, w.modified[id := if files[id].phase.Response? then clock else w.clock], clock,
             w.invoked + [Handed(inv, Carried(Decide(w.files, inv.call).record))], w.applied),
       AsReply(outcome))
  }

  lemma SoundSave(site: Site, w: World, inv: Invocation)
    ensures SavedUnder(site, w, inv, SOUND) == Saved(site, w, inv)
  {
    SoundDisk(w.files, inv.call, Answering(site, |w.invoked|, inv));
  }

  /** An observation leaves no receipt. */
  function Observed(site: Site, w: World, inv: Invocation): (World, Reply) {
    (w.(clock := w.clock + site.pace(|w.invoked|), invoked := w.invoked + [inv]),
     AsReply(site.adapter(|w.invoked|, inv)))
  }

  function Called(site: Site, w: World, key: Option<string>, binding: Binding, operation: string, index: nat,
                  input: Json, previous: Option<Json>): (World, Reply)
  {
    if !site.manifest.Supports(binding.extension, operation) then (w, Failure(UnknownOperation))
    else if site.manifest.Mutating(binding.extension, operation) then
      match MutationKey(key)
      case Failure(error) => (w, Failure(error))
      case Success(k) =>
        Saved(site, w, Invocation(BindingCall(site, k, binding, operation, index, input, previous),
                                  binding.config, input, previous))
    else
      var call := BindingCall(site, "", binding, operation, index, input, previous);
      Observed(site, w, Invocation(call.(requestId := "observation:" + site.nonce(|w.invoked|)),
                                   binding.config, input, previous))
  }

  function Commanded(site: Site, w: World, key: Option<string>, stage: string): (World, Reply) {
    match MutationKey(key)
    case Failure(error) => (w, Failure(error))
    case Success(k) => Saved(site, w, Invocation(StageCall(site, k, stage), NO_INPUT, NO_INPUT, None))
  }

  /** Without one no mutation is made and nothing is touched, whatever is on record. */
  lemma NoKeyNoMutation(site: Site, w: World, key: Option<string>, binding: Binding, operation: string, index: nat,
                        input: Json, previous: Option<Json>, stage: string)
    requires key.None? || !HasText(key.value)
    ensures Commanded(site, w, key, stage) == (w, Failure(KeyRequired))
    ensures site.manifest.Mutating(binding.extension, operation) ==>
              Called(site, w, key, binding, operation, index, input, previous) == (w, Failure(KeyRequired))
  {
    BlankKeysAreRefused(key);
  }

  class Controller {
    const site: Site
    const receipts: ReceiptStore
    var invoked: seq<Invocation>
    var applied: Option<Json>

    ghost predicate Valid()
      reads this, receipts
    {
      receipts.Valid()
    }

    constructor (site: Site, receipts: ReceiptStore)
      requires receipts.Valid()
      ensures Valid() && this.site == site && this.receipts == receipts && invoked == [] && applied == None
    {
      this.site, this.receipts := site, receipts;
      invoked, applied := [], None;
    }

    function Now(): World
      reads this, receipts
    {
      World(receipts.files, receipts.modified, receipts.clock, invoked, applied)
    }

    method InvokeSaved(inv: Invocation, disk: Disk) returns (r: Reply)
      requires Valid()
      modifies this`invoked, receipts
      ensures Valid() && (Now(), r) == SavedUnder(site, old(Now()), inv, disk)
    {
      var tick := |invoked|;
      var launches, decision := Marks(receipts.files, inv.call, disk), Decide(receipts.files, inv.call);
      var outcome := receipts.ApplyLocked(inv.call, Answering(site, tick, inv), site.pace(tick), disk);
      if launches && disk.mark.Done? {
        invoked := invoked + [Handed(inv, Carried(decision.record))];
      }
      r := AsReply(outcome);
    }

    method CallBinding(key: Option<string>, binding: Binding, operation: string, index: nat, input: Json,
                       previous: Option<Json>) returns (r: Reply)
      requires Valid()
      modifies this`invoked, receipts
      ensures Valid() && (Now(), r) == Called(site, old(Now()), key, binding, operation, index, input, previous)
    {
      if !site.manifest.Supports(binding.extension, operation) {
        return Failure(UnknownOperation);
      }
      if site.manifest.Mutating(binding.extension, operation) {
        var k := MutationKey(key);
        if k.Failure? {
          return Failure(k.error);
        }
        var inv := Invocation(BindingCall(site, k.value, binding, operation, index, input, previous),
                              binding.config, input, previous);
        SoundSave(site, Now(), inv);
        r := InvokeSaved(inv, SOUND);
      } else {
        var call := BindingCall(site, "", binding, operation, index, input, previous);
        var inv := Invocation(call.(requestId := "observation:" + site.nonce(|invoked|)), binding.config, input,
                              previous);
        r := AsReply(site.adapter(|invoked|, inv));
        receipts.Wait(site.pace(|invoked|));
        invoked := invoked + [inv];
      }
    }

    method SetupBinding(key: Option<string>, binding: Binding, operation: string) returns (r: Reply)
      requires Valid()
      modifies this`invoked, receipts
      ensures Valid()
      ensures (Now(), r)
           == Called(site, old(Now()), key, binding, operation, Position(site.manifest.integrations, binding), NO_INPUT,
                     None)
    {
      r := CallBinding(key, binding, operation, Position(site.manifest.integrations, binding), NO_INPUT, None);
    }

    method TargetCommand(key: Option<string>, stage: string) returns (r: Reply)
      requires Valid()
      modifies this`invoked, receipts
      ensures Valid() && (Now(), r) == Commanded(site, old(Now()), key, stage)
    {
      var k := MutationKey(key);
      if k.Failure? {
        return Failure(k.error);
      }
      var inv := Invocation(StageCall(site, k.value, stage), NO_INPUT, NO_INPUT, None);
      SoundSave(site, Now(), inv);
      r := InvokeSaved(inv, SOUND);
    }
  }
}
