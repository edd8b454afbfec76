/** The exe.dev provider's destroy, as every run under one request id sees it. */
module ExedevDestroy {
  import opened Wrappers
  import opened Protocol
  import opened ExedevCreate

  /** What destroy reads out of a recorded JSON value; `identity` also stands for one derived from its `vm`. */
  datatype Resource = Resource(owned: bool, resourceId: Option<string>, identity: Option<Identity>)

  /** `previous` is the data of the response a retry is handed; `created` is the create data in the input. */
  datatype Request = Request(previous: Option<Resource>, created: Resource)

  function PreviousResources(request: Request): seq<Resource> {
    (if request.previous.Some? then [request.previous.value] else []) + [request.created]
  }

  predicate PreviousOwned(request: Request, name: string) {
    exists r :: r in PreviousResources(request) && r.owned && r.resourceId == Some(name)
  }

  function FirstIdentity(resources: seq<Resource>): Option<Identity> {
    if resources == [] then None
    else if resources[0].identity.Some? then resources[0].identity
    else FirstIdentity(resources[1..])
  }

  function PreviousIdentity(request: Request): Option<Identity> {
    FirstIdentity(PreviousResources(request))
  }

  datatype RemovalPhase = Destroying | RemovalUnknown | Destroyed

  datatype RemovalFile = NoFile | TornFile | RemovalReceipt(phase: RemovalPhase)

  datatype RemovalEvent =
    | Removed(request: Request, identity: Identity)
    | Answered(status: Status, data: Resource)
    | Broke

  datatype RemovalPc =
    | Resting
    | Looking(request: Request)
    | MarkingRemoval(request: Request, identity: Identity)
    | Removing(request: Request, identity: Identity)
    | LookingAfter
    | Closing(gone: bool)

  datatype Removal = Removal(name: string, created: Resource, file: RemovalFile, pc: RemovalPc, log: seq<RemovalEvent>)

  datatype RemovalStep =
    | Begin(request: Request)
    | Look(read: Option<Observed>)
    | MarkRemoval(write: Write)
    | Remove
    | LookAfter(observed: Observed)
    | Close(write: Write)
    | Die

  predicate RemovalWaits(file: RemovalFile) {
    file.RemovalReceipt? && !file.phase.Destroyed?
  }

  function PendingData(name: string): Resource {
    Resource(false, Some(name), None)
  }

  function ObservedData(name: string, observed: Observed): Resource {
    Resource(false, Some(name), IdentityOf(observed))
  }

  /** A retry is handed nothing, or the data of an answer this destroy already gave. */
  predicate Handed(log: seq<RemovalEvent>, previous: Option<Resource>) {
    previous.None? || exists i :: 0 <= i < |log| && log[i].Answered? && log[i].data == previous.value
  }

  predicate CanStep(s: Removal, step: RemovalStep) {
    match step
    case Begin(request) => s.pc.Resting? && request.created == s.created && Handed(s.log, request.previous)
    case Look(_) => s.pc.Looking?
    case MarkRemoval(_) => s.pc.MarkingRemoval?
    case Remove => s.pc.Removing?
    case LookAfter(_) => s.pc.LookingAfter?
    case Close(_) => s.pc.Closing?
    case Die => !s.pc.Resting?
  }

  function PutRemoval(file: RemovalFile, phase: RemovalPhase, write: Write): RemovalFile {
    match write
    case Done => RemovalReceipt(phase)
    case Failed => file
    case Interrupted => TornFile
  }

  predicate MayRemove(request: Request, observed: Observed) {
    PreviousIdentity(request).Some? && PreviousIdentity(request) == IdentityOf(observed)
  }

  function NextPc(s: Removal, step: RemovalStep): RemovalPc
    requires CanStep(s, step)
  {
    match step
    case Begin(request) =>
      if PreviousOwned(request, s.name) && !s.file.TornFile? && !RemovalWaits(s.file) then Looking(request) else Resting
    case Look(read) =>
      if read.Some? && !read.value.Missing? && MayRemove(s.pc.request, read.value)
      then MarkingRemoval(s.pc.request, IdentityOf(read.value).value) else Resting
    case MarkRemoval(write) => if write.Done? then Removing(s.pc.request, s.pc.identity) else Resting
    case Remove => LookingAfter
    case LookAfter(observed) => Closing(observed.Missing?)
    case _ => Resting
  }

  function NextFile(s: Removal, step: RemovalStep): RemovalFile
    requires CanStep(s, step)
  {
    match step
    case MarkRemoval(write) => PutRemoval(s.file, Destroying, write)
    case Close(write) => PutRemoval(s.file, if s.pc.gone then Destroyed else RemovalUnknown, write)
    case _ => s.file
  }

  function Shown(s: Removal, step: RemovalStep): seq<RemovalEvent>
    requires CanStep(s, step)
  {
    match step
    case Begin(request) =>
      if !PreviousOwned(request, s.name) then [Answered(Status.Failed, Resource(false, None, None))]
      else if s.file.TornFile? then [Broke]
      else if RemovalWaits(s.file) then [Answered(Pending, PendingData(s.name))]
      else []
    case Look(read) =>
      if read.None? then [Broke]
      else if read.value.Missing? then [Answered(Ready, Resource(false, Some(s.name), None))]
      else if !MayRemove(s.pc.request, read.value) then [Answered(Status.Failed, ObservedData(s.name, read.value))]
      else []
    case MarkRemoval(write) => if write.Done? then [] else [Broke]
    case Remove => [Removed(s.pc.request, s.pc.identity)]
    case Close(write) =>
      if !write.Done? then [Broke]
      else if s.pc.gone then [Answered(Changed, Resource(false, Some(s.name), None))]
      else [Answered(Pending, PendingData(s.name))]
    case _ => []
  }

  function Proceed(s: Removal, step: RemovalStep): Removal
    requires CanStep(s, step)
  {
    s.(file := NextFile(s, step), pc := NextPc(s, step), log := s.log + Shown(s, step))
  }

  predicate Follows(s: Removal, steps: seq<RemovalStep>, t: Removal)
    decreases |steps|
  {
    if steps == [] then s == t else CanStep(s, steps[0]) && Follows(Proceed(s, steps[0]), steps[1..], t)
  }

  predicate Fresh(s: Removal) {
    s.file == NoFile && s.pc == Resting && s.log == []
  }

  /** An `rm` went out and its outcome has not been confirmed. */
  predicate Unconfirmed(log: seq<RemovalEvent>) {
    log != [] && (log[|log| - 1].Removed?
                  || (!(log[|log| - 1].Answered? && log[|log| - 1].status.Changed?) && Unconfirmed(log[..|log| - 1])))
  }

  lemma UnconfirmedExtend(log: seq<RemovalEvent>, e: RemovalEvent)
    ensures Unconfirmed(log + [e]) <==> e.Removed? || (!(e.Answered? && e.status.Changed?) && Unconfirmed(log))
  {
    assert (log + [e])[..|log|] == log;
  }

  /** Which identity decides, what the answers carry, and that an unconfirmed removal is never repeated. */
  predicate RemovalEventOk(s: Removal, log: seq<RemovalEvent>, i: nat)
    requires i < |log|
  {
    match log[i]
    case Removed(request, identity) =>
      && request.created == s.created && Handed(log[..i], request.previous)
      && PreviousIdentity(request) == Some(identity) && !Unconfirmed(log[..i])
      && s.created.owned && s.created.resourceId == Some(s.name)
    case Answered(status, data) => !data.owned && (data.identity.Some? ==> status.Failed?)
    case Broke => true
  }

  predicate RemovalInv(s: Removal) {
    && (forall i :: 0 <= i < |s.log| ==> RemovalEventOk(s, s.log, i))
    && match s.pc
       case Resting => Unconfirmed(s.log) ==> s.file.TornFile? || RemovalWaits(s.file)
       case Looking(request) => RequestOk(s, request) && !Unconfirmed(s.log)
       case MarkingRemoval(request, identity) =>
         RequestOk(s, request) && PreviousIdentity(request) == Some(identity) && !Unconfirmed(s.log)
       case Removing(request, identity) =>
         RequestOk(s, request) && PreviousIdentity(request) == Some(identity) && !Unconfirmed(s.log)
         && s.file == RemovalReceipt(Destroying)
       case LookingAfter => s.file == RemovalReceipt(Destroying)
       case Closing(gone) => s.file == RemovalReceipt(Destroying)
  }

  predicate RequestOk(s: Removal, request: Request) {
    && request.created == s.created && Handed(s.log, request.previous)
    && s.created.owned && s.created.resourceId == Some(s.name)
  }

  /** No answer of a destroy claims ownership, so only the create's own record can satisfy the gate. */
  lemma OwnedMeansCreated(s: Removal, request: Request)
    requires forall i :: 0 <= i < |s.log| ==> RemovalEventOk(s, s.log, i)
    requires request.created == s.created && Handed(s.log, request.previous)
    ensures PreviousOwned(request, s.name) <==> s.created.owned && s.created.resourceId == Some(s.name)
  {
    if request.previous.Some? {
      var i :| 0 <= i < |s.log| && s.log[i].Answered? && s.log[i].data == request.previous.value;
      assert RemovalEventOk(s, s.log, i);
    }
    assert request.created in PreviousResources(request);
  }

  lemma LogExtends(s: Removal, log: seq<RemovalEvent>, e: RemovalEvent)
    requires forall i :: 0 <= i < |log| ==> RemovalEventOk(s, log, i)
    requires RemovalEventOk(s, log + [e], |log|)
    ensures forall i :: 0 <= i < |log + [e]| ==> RemovalEventOk(s, log + [e], i)
  {
    forall i | 0 <= i < |log + [e]| ensures RemovalEventOk(s, log + [e], i) {
      if i < |log| {
        assert RemovalEventOk(s, log, i);
        assert (log + [e])[..i] == log[..i];
      }
    }
  }

  lemma StepKeepsRemovalInv(s: Removal, step: RemovalStep)
    requires RemovalInv(s) && CanStep(s, step)
    ensures RemovalInv(Proceed(s, step))
  {
    var shown := Shown(s, step);
    if step.Begin? {
      OwnedMeansCreated(s, step.request);
    }
    if shown == [] {
      assert s.log + shown == s.log;
    } else {
      assert shown == [shown[0]];
      assert (s.log + [shown[0]])[..|s.log|] == s.log;
      UnconfirmedExtend(s.log, shown[0]);
      assert RemovalEventOk(s, s.log + [shown[0]], |s.log|);
      LogExtends(s, s.log, shown[0]);
    }
    forall i | 0 <= i < |Proceed(s, step).log| ensures RemovalEventOk(Proceed(s, step), Proceed(s, step).log, i) {
      assert RemovalEventOk(s, s.log + shown, i);
    }
  }

  lemma {:induction false} RunKeepsRemovalInv(s: Removal, steps: seq<RemovalStep>, t: Removal)
    requires RemovalInv(s) && Follows(s, steps, t)
    ensures RemovalInv(t) && t.created == s.created && t.name == s.name
    decreases |steps|
  {
    if steps != [] {
      StepKeepsRemovalInv(s, steps[0]);
      RunKeepsRemovalInv(Proceed(s, steps[0]), steps[1..], t);
    }
  }

  lemma EventHolds(s: Removal, steps: seq<RemovalStep>, t: Removal, i: nat)
    requires Fresh(s) && Follows(s, steps, t) && i < |t.log|
    ensures RemovalEventOk(t, t.log, i) && t.created == s.created && t.name == s.name
  {
    RunKeepsRemovalInv(s, steps, t);
  }

  /**
   * An `rm` goes out only for a resource recorded as owned, and hits its identity exactly when the handed-back answer
   * names no other.
   */
  lemma RemovesOwnVmIff(s: Removal, steps: seq<RemovalStep>, t: Removal, i: nat)
    requires Fresh(s) && Follows(s, steps, t) && i < |t.log| && t.log[i].Removed?
    ensures s.created.owned && s.created.resourceId == Some(s.name)
    ensures Some(t.log[i].identity) == s.created.identity <==>
            || t.log[i].request.previous.None?
            || t.log[i].request.previous.value.identity.None?
            || t.log[i].request.previous.value.identity == s.created.identity
  {
    EventHolds(s, steps, t, i);
    var request := t.log[i].request;
    assert FirstIdentity([s.created]) == s.created.identity;
    if request.previous.Some? {
      assert PreviousResources(request) == [request.previous.value, s.created];
      assert PreviousResources(request)[1..] == [s.created];
    } else {
      assert PreviousResources(request) == [s.created];
    }
  }

  /** A foreign VM is only removed after an earlier attempt refused to remove that same VM. */
  lemma ForeignRemovalFollowsRefusal(s: Removal, steps: seq<RemovalStep>, t: Removal, i: nat)
    requires Fresh(s) && Follows(s, steps, t) && i < |t.log| && t.log[i].Removed?
    requires Some(t.log[i].identity) != s.created.identity
    ensures exists j :: 0 <= j < i && t.log[j].Answered? && t.log[j].status.Failed?
                        && t.log[j].data.identity == Some(t.log[i].identity)
  {
    EventHolds(s, steps, t, i);
    RemovesOwnVmIff(s, steps, t, i);
    var request := t.log[i].request;
    assert Handed(t.log[..i], request.previous);
    var j :| 0 <= j < |t.log[..i]| && t.log[..i][j].Answered? && t.log[..i][j].data == request.previous.value;
    assert t.log[j] == t.log[..i][j];
    EventHolds(s, steps, t, j);
    assert PreviousResources(request)[0] == request.previous.value;
  }

  lemma {:induction false} UnconfirmedMeans(log: seq<RemovalEvent>, i: nat)
    requires !Unconfirmed(log) && i < |log| && log[i].Removed?
    ensures exists k :: i < k < |log| && log[k].Answered? && log[k].status.Changed?
    decreases |log|
  {
    var last := |log| - 1;
    if log[last].Answered? && log[last].status.Changed? {
    } else {
      UnconfirmedMeans(log[..last], i);
      var k :| i < k < last && log[..last][k].Answered? && log[..last][k].status.Changed?;
      assert log[k] == log[..last][k];
    }
  }

  /** Between two removals the first was confirmed gone. */
  lemma UncertainRemovalIsNotRepeated(s: Removal, steps: seq<RemovalStep>, t: Removal, i: nat, j: nat)
    requires Fresh(s) && Follows(s, steps, t)
    requires i < j < |t.log| && t.log[i].Removed? && t.log[j].Removed?
    ensures exists k :: i < k < j && t.log[k].Answered? && t.log[k].status.Changed?
  {
    EventHolds(s, steps, t, j);
    assert t.log[..j][i] == t.log[i];
    UnconfirmedMeans(t.log[..j], i);
    var k :| i < k < |t.log[..j]| && t.log[..j][k].Answered? && t.log[..j][k].status.Changed?;
    assert t.log[k] == t.log[..j][k];
  }

  lemma {:induction false} FollowsSnoc(s: Removal, steps: seq<RemovalStep>, m: Removal, step: RemovalStep)
    requires Follows(s, steps, m) && CanStep(m, step)
    ensures Follows(s, steps + [step], Proceed(m, step))
    decreases |steps|
  {
    if steps == [] {
      assert ([] + [step])[1..] == [];
    } else {
      assert (steps + [step])[1..] == steps[1..] + [step];
      FollowsSnoc(Proceed(s, steps[0]), steps[1..], m, step);
    }
  }

  lemma Further(s: Removal, steps: seq<RemovalStep>, m: Removal, step: RemovalStep)
    returns (longer: seq<RemovalStep>, t: Removal)
    requires Follows(s, steps, m) && CanStep(m, step)
    ensures longer == steps + [step] && t == Proceed(m, step) && Follows(s, longer, t)
  {
    longer, t := steps + [step], Proceed(m, step);
    FollowsSnoc(s, steps, m, step);
  }

  /** A destroy that sees another VM than its own is refused, and nothing is written. */
  lemma RefusedOnce(s: Removal, mine: Identity, other: Identity) returns (steps: seq<RemovalStep>)
    requires Fresh(s) && s.created == Resource(true, Some(s.name), Some(mine)) && mine != other
    ensures Follows(s, steps, s.(log := [Answered(Status.Failed, Resource(false, Some(s.name), Some(other)))]))
  {
    var first := Request(None, s.created);
    assert s.created in PreviousResources(first);
    assert PreviousResources(first) == [s.created];
    var now := s;
    steps := [];
    steps, now := Further(s, steps, now, Begin(first));
    steps, now := Further(s, steps, now, Look(Some(Present(other))));
    assert now == s.(log := [Answered(Status.Failed, ObservedData(s.name, Present(other)))]);
  }

  /** Handed that refusal, a second destroy takes the other VM for its own. */
  lemma RetryRemoves(s: Removal, steps: seq<RemovalStep>, refused: Removal, mine: Identity, other: Identity)
    returns (longer: seq<RemovalStep>, t: Removal)
    requires Fresh(s) && s.created == Resource(true, Some(s.name), Some(mine)) && mine != other
    requires refused == s.(log := [Answered(Status.Failed, Resource(false, Some(s.name), Some(other)))])
    requires Follows(s, steps, refused)
    ensures Follows(s, longer, t)
    ensures t.log == refused.log + [Removed(Request(Some(Resource(false, Some(s.name), Some(other))), s.created),
                                            other)]
  {
    var data := Resource(false, Some(s.name), Some(other));
    var second := Request(Some(data), s.created);
    assert PreviousResources(second) == [data, s.created];
    assert s.created in PreviousResources(second);
    assert Handed(refused.log, second.previous) by {
      assert refused.log[0].Answered?;
    }
    longer, t := Further(s, steps, refused, Begin(second));
    assert t.pc == Looking(second);
    longer, t := Further(s, longer, t, Look(Some(Present(other))));
    longer, t := Further(s, longer, t, MarkRemoval(Done));
    assert t.pc == Removing(second, other);
    longer, t := Further(s, longer, t, Remove);
  }

  /** A destroy refused because the VM is another one, retried once: the retry removes that other VM. */
  lemma RetriedRefusalRemovesForeignVm(s: Removal, mine: Identity, other: Identity)
    requires Fresh(s) && s.created == Resource(true, Some(s.name), Some(mine)) && mine != other
    ensures exists steps, t ::
              && Follows(s, steps, t)
              && t.log == [Answered(Status.Failed, Resource(false, Some(s.name), Some(other))),
                           Removed(Request(Some(Resource(false, Some(s.name), Some(other))), s.created), other)]
  {
    var refused := s.(log := [Answered(Status.Failed, Resource(false, Some(s.name), Some(other)))]);
    var steps := RefusedOnce(s, mine, other);
    var longer, t := RetryRemoves(s, steps, refused, mine, other);
    assert t.log == [refused.log[0],
                     Removed(Request(Some(Resource(false, Some(s.name), Some(other))), s.created), other)];
  }

  /** The VM a create claimed is the VM its destroy removes. */
  lemma ClaimedVmIsRemoved(s: Removal, vm: Identity)
    requires Fresh(s) && s.created == Resource(true, Some(s.name), Some(vm))
    ensures exists steps, t :: Follows(s, steps, t) && t.log == [Removed(Request(None, s.created), vm)]
  {
    var request := Request(None, s.created);
    assert s.created in PreviousResources(request);
    assert PreviousResources(request) == [s.created];
    var steps, now := [], s;
    steps, now := Further(s, steps, now, Begin(request));
    steps, now := Further(s, steps, now, Look(Some(Present(vm))));
    steps, now := Further(s, steps, now, MarkRemoval(Done));
    assert now.pc == Removing(request, vm);
    steps, now := Further(s, steps, now, Remove);
    assert now.log == [Removed(request, vm)];
  }

  /** A destroy that finds its VM gone is ready at once, having changed nothing, also when it removed it before. */
  lemma GoneIsReady(s: Removal)
    requires s.pc == Resting && (s.file == NoFile || s.file == RemovalReceipt(Destroyed))
    requires s.created.owned && s.created.resourceId == Some(s.name)
    ensures exists steps, t ::
              && Follows(s, steps, t) && t.file == s.file
              && t.log == s.log + [Answered(Ready, Resource(false, Some(s.name), None))]
  {
    var request := Request(None, s.created);
    assert s.created in PreviousResources(request);
    var steps, now := [], s;
    steps, now := Further(s, steps, now, Begin(request));
    steps, now := Further(s, steps, now, Look(Some(Missing)));
    assert now.log == s.log + [Answered(Ready, Resource(false, Some(s.name), None))];
  }

  /** While its outcome is open, a removal is answered as pending without a look. */
  lemma OpenRemovalWaits(s: Removal, request: Request)
    requires CanStep(s, Begin(request)) && PreviousOwned(request, s.name)
    requires s.file == RemovalReceipt(Destroying) || s.file == RemovalReceipt(RemovalUnknown)
    ensures var t := Proceed(s, Begin(request));
            t == s.(log := s.log + [Answered(Pending, Resource(false, Some(s.name), None))])
  {
  }

  /** One that removed it has changed something exactly if it is gone afterwards, and is pending otherwise. */
  lemma RemovedIsChangedIff(s: Removal, vm: Identity, after: Observed)
    requires Fresh(s) && s.created == Resource(true, Some(s.name), Some(vm))
    ensures exists steps, t ::
              && Follows(s, steps, t)
              && t.log == [Removed(Request(None, s.created), vm),
                           Answered(if after.Missing? then Changed else Pending, Resource(false, Some(s.name), None))]
  {
    var request := Request(None, s.created);
    assert s.created in PreviousResources(request);
    assert PreviousResources(request) == [s.created];
    var steps, now := [], s;
    steps, now := Further(s, steps, now, Begin(request));
    steps, now := Further(s, steps, now, Look(Some(Present(vm))));
    steps, now := Further(s, steps, now, MarkRemoval(Done));
    assert now.pc == Removing(request, vm);
    steps, now := Further(s, steps, now, Remove);
    assert now.log == [Removed(request, vm)];
    steps, now := Further(s, steps, now, LookAfter(after));
    steps, now := Further(s, steps, now, Close(Done));
    assert now.log == [Removed(request, vm)]
                      + [Answered(if after.Missing? then Changed else Pending, Resource(false, Some(s.name), None))];
  }

  class Destroyer {
    const name: string
    const created: Resource
    var file: RemovalFile
    ghost var log: seq<RemovalEvent>

    ghost function Now(): Removal
      reads this
    {
      Removal(name, created, file, Resting, log)
    }

    constructor (name: string, created: Resource)
      ensures this.name == name && this.created == created && Fresh(Now())
    {
      this.name, this.created, file, log := name, created, NoFile, [];
    }

    /** One undisturbed destroy is a run of the steps above, and it removes under exactly this condition. */
    method DestroyResponse(request: Request, look: Option<Observed>, after: Observed)
      returns (r: Option<(Status, Resource)>, ghost steps: seq<RemovalStep>, ghost shown: seq<RemovalEvent>)
      requires request.created == created && Handed(log, request.previous)
      modifies this
      ensures Follows(old(Now()), steps, Now()) && log == old(log) + shown
      ensures shown != [] && shown[|shown| - 1] == if r.Some? then Answered(r.value.0, r.value.1) else Broke
      ensures (exists e :: e in shown && e.Removed?) <==>
              && PreviousOwned(request, name) && !old(file).TornFile? && !RemovalWaits(old(file))
              && look.Some? && !look.value.Missing? && MayRemove(request, look.value)
    {
      ghost var start, now := Now(), Now();
      steps, shown := [], [];
      steps, now := Further(start, steps, now, Begin(request));
      if !PreviousOwned(request, name) {
        r := Some((Status.Failed, Resource(false, None, None)));
        shown := [Answered(r.value.0, r.value.1)];
      } else if file.TornFile? {
        r, shown := None, [Broke];
      } else if RemovalWaits(file) {
        r := Some((Pending, PendingData(name)));
        shown := [Answered(r.value.0, r.value.1)];
      } else {
        assert now == start.(pc := Looking(request));
        r, steps, shown := DestroyObserved(request, look, after, start, steps, now);
        now := Removal(name, created, file, Resting, start.log + shown);
      }
      log := log + shown;
      assert Now() == now;
    }

    method DestroyObserved(request: Request, look: Option<Observed>, after: Observed, ghost start: Removal,
                           ghost before: seq<RemovalStep>, ghost looking: Removal)
      returns (r: Option<(Status, Resource)>, ghost steps: seq<RemovalStep>, ghost shown: seq<RemovalEvent>)
      requires looking == Removal(name, created, file, Looking(request), looking.log) && Follows(start, before, looking)
      modifies this`file
      ensures Follows(start, steps, Removal(name, created, file, Resting, looking.log + shown))
      ensures shown != [] && shown[|shown| - 1] == if r.Some? then Answered(r.value.0, r.value.1) else Broke
      ensures (exists e :: e in shown && e.Removed?) <==>
              look.Some? && !look.value.Missing? && MayRemove(request, look.value)
    {
      ghost var now: Removal;
      steps, now := Further(start, before, looking, Look(look));
      if look.None? {
        r, shown := None, [Broke];
      } else if look.value.Missing? {
        r := Some((Ready, Resource(false, Some(name), None)));
        shown := [Answered(r.value.0, r.value.1)];
      } else if PreviousIdentity(request).None? || PreviousIdentity(request) != IdentityOf(look.value) {
        r := Some((Status.Failed, ObservedData(name, look.value)));
        shown := [Answered(r.value.0, r.value.1)];
      } else {
        ghost var identity := IdentityOf(look.value).value;
        file := RemovalReceipt(Destroying);
        steps, now := Further(start, steps, now, MarkRemoval(Done));
        steps, now := Further(start, steps, now, Remove);
        steps, now := Further(start, steps, now, LookAfter(after));
        steps, now := Further(start, steps, now, Close(Done));
        file := RemovalReceipt(if after.Missing? then Destroyed else RemovalUnknown);
        r := Some(if after.Missing? then (Changed, Resource(false, Some(name), None)) else (Pending,
                                                                                            PendingData(name)));
        shown := [Removed(request, identity), Answered(r.value.0, r.value.1)];
        assert shown[0].Removed?;
        assert now.log == looking.log + shown;
      }
    }
  }
}
