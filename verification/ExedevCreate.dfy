/** The exe.dev provider's create, as every run under one request id sees it. */
module ExedevCreate {
  import opened Wrappers
  import opened Protocol

  datatype Spec = Spec(
    name: string, cpus: nat, memoryGb: nat, diskGb: nat, region: string, adopt: bool, setupScript: Option<string>)

  /** What a receipt is bound to: everything but the setup script. The digest of it is taken as injective. */
  datatype Fingerprint = Fingerprint(
    name: string, cpus: nat, memoryGb: nat, diskGb: nat, region: string, adopt: bool)

  function FingerprintOf(spec: Spec): Fingerprint {
    Fingerprint(spec.name, spec.cpus, spec.memoryGb, spec.diskGb, spec.region, spec.adopt)
  }

  type Identity = Json

  /** It tells two creates apart exactly if they differ in anything but the setup script. */
  lemma FingerprintsAgreeIff(a: Spec, b: Spec)
    ensures FingerprintOf(a) == FingerprintOf(b) <==> a.(setupScript := None) == b.(setupScript := None)
  {
  }

  /** What the inventory says about the named VM; `Unknown` is a failed or ambiguous read. */
  datatype Observed =
    | Missing
    | Unknown
    | Drift(identity: Identity)
    | NotReady(identity: Identity)
    | Present(identity: Identity)

  datatype Phase = Creating | Created | UnknownPhase | ObservedPhase

  /** A receipt file: a crash in the middle of the plain, non-atomic write leaves it unreadable. */
  datatype File = Absent | Torn | Receipt(fingerprint: Fingerprint, phase: Phase)

  datatype Capacity = Enough | Insufficient | Unreadable

  datatype Answer = Answer(status: Status, owned: bool, identity: Option<Identity>)

  datatype Event =
    | Saw(observed: Observed)
    | New(spec: Spec)
    | Refused
    | SawAfter(observed: Observed)
    | Replied(answer: Answer)
    | Errored

  datatype Write = Done | Failed | Interrupted

  datatype Pc =
    | Idle
    | Observing(spec: Spec, receipt: File)
    | SavingObserved(spec: Spec, receipt: File, observed: Observed)
    | Checking(spec: Spec)
    | Committing(spec: Spec)
    | Issuing(spec: Spec)
    | Issued(spec: Spec)
    | Finishing(spec: Spec, after: Observed)

  datatype State = State(file: File, pc: Pc, log: seq<Event>)

  const INIT := State(Absent, Idle, [])

  datatype Step =
    | Start(spec: Spec)
    | Observe(observed: Observed)
    | SaveObserved(write: Write)
    | CheckCapacity(capacity: Capacity)
    | Commit(write: Write)
    | Issue(refused: bool)
    | ObserveAfter(observed: Observed)
    | Finish(write: Write)
    | Crash

  function IdentityOf(observed: Observed): Option<Identity> {
    match observed
    case Missing => None
    case Unknown => None
    case Drift(identity) => Some(identity)
    case NotReady(identity) => Some(identity)
    case Present(identity) => Some(identity)
  }

  /** The receipt is bound to something else than this create. */
  predicate Foreign(file: File, spec: Spec) {
    file.Receipt? && file.fingerprint != FingerprintOf(spec)
  }

  predicate ReceiptWaits(file: File) {
    file.Receipt? && (file.phase.Creating? || file.phase.UnknownPhase?)
  }

  function AdoptAnswer(observed: Observed): Answer {
    Answer(if observed.Present? then Ready else Status.Failed, false, IdentityOf(observed))
  }

  function ObservedAnswer(observed: Observed, receipt: File): Answer {
    var status := match observed
                  case Present(_) => Ready
                  case NotReady(_) => Pending
                  case _ => Status.Failed;
    Answer(status, receipt.Receipt? && receipt.phase.Created?, IdentityOf(observed))
  }

  /**
   * A provider answer as the adapter returns it: it never names an execution, and an identity only with a VM. (An
   * answer to an unreadable inventory leaves the name out too, which nothing reads unless it is owned.)
   */
  function AsResponse(requestId: string, spec: Spec, answer: Answer): AdapterResponse {
    var resource := map["owned" := Bool(answer.owned), "resource_id" := String(spec.name)];
    AdapterResponse(PROTOCOL_VERSION, requestId, answer.status,
                    Object(if answer.identity.Some? then resource["instance_identity" := answer.identity.value]
                           else resource),
                    None, None)
  }

  const UNCERTAIN := Answer(Pending, false, None)

  /** A VM still missing right after `new` is reported as unknown. */
  function Settled(after: Observed): Observed {
    if after.Missing? then Unknown else after
  }

  function CreatedAnswer(after: Observed): Answer {
    var observed := Settled(after);
    var status := match observed
                  case Present(_) => Changed
                  case NotReady(_) => Pending
                  case Unknown => Pending
                  case _ => Status.Failed;
    Answer(status, observed.Present? || observed.NotReady?, IdentityOf(observed))
  }

  function CreatedPhase(after: Observed): Phase {
    if Settled(after).Unknown? then UnknownPhase else Created
  }

  predicate Enabled(s: State, step: Step) {
    match step
    case Start(_) => s.pc.Idle?
    case Observe(_) => s.pc.Observing?
    case SaveObserved(_) => s.pc.SavingObserved?
    case CheckCapacity(_) => s.pc.Checking?
    case Commit(_) => s.pc.Committing?
    case Issue(_) => s.pc.Issuing?
    case ObserveAfter(_) => s.pc.Issued?
    case Finish(_) => s.pc.Finishing?
    case Crash => !s.pc.Idle?
  }

  function Put(file: File, spec: Spec, phase: Phase, write: Write): File {
    match write
    case Done => Receipt(FingerprintOf(spec), phase)
    case Failed => file
    case Interrupted => Torn
  }

  function Written(write: Write, answer: Answer): seq<Event> {
    [if write.Done? then Replied(answer) else Errored]
  }

  /** The receipt after a step. */
  function FileAfter(s: State, step: Step): File
    requires Enabled(s, step)
  {
    match step
    case SaveObserved(write) => Put(s.file, s.pc.spec, ObservedPhase, write)
    case Commit(write) => Put(s.file, s.pc.spec, Creating, write)
    case Finish(write) => Put(s.file, s.pc.spec, CreatedPhase(s.pc.after), write)
    case _ => s.file
  }

  /** Where the attempt stands after a step. */
  function PcAfter(s: State, step: Step): Pc
    requires Enabled(s, step)
  {
    match step
    case Start(spec) =>
      if s.file.Torn? || Foreign(s.file, spec) then Idle else Observing(spec, s.file)
    case Observe(observed) =>
      if s.pc.spec.adopt then Idle
      else if !observed.Missing? then SavingObserved(s.pc.spec, s.pc.receipt, observed)
      else if ReceiptWaits(s.pc.receipt) then Idle
      else Checking(s.pc.spec)
    case CheckCapacity(capacity) => if capacity.Enough? then Committing(s.pc.spec) else Idle
    case Commit(write) => if write.Done? then Issuing(s.pc.spec) else Idle
    case Issue(_) => Issued(s.pc.spec)
    case ObserveAfter(after) => Finishing(s.pc.spec, after)
    case _ => Idle
  }

  /** What a step does that the outside can tell. */
  function Emitted(s: State, step: Step): seq<Event>
    requires Enabled(s, step)
  {
    match step
    case Start(spec) =>
      if s.file.Torn? then [Errored]
      else if Foreign(s.file, spec) then [Replied(Answer(Status.Failed, false, None))]
      else []
    case Observe(observed) =>
      if s.pc.spec.adopt then [Saw(observed), Replied(AdoptAnswer(observed))]
      else if observed.Missing? && ReceiptWaits(s.pc.receipt) then [Saw(observed), Replied(UNCERTAIN)]
      else [Saw(observed)]
    case SaveObserved(write) => Written(write, ObservedAnswer(s.pc.observed, s.pc.receipt))
    case CheckCapacity(capacity) =>
      (match capacity
       case Enough => []
       case Insufficient => [Replied(Answer(Status.Failed, false, None))]
       case Unreadable => [Errored])
    case Commit(write) => if write.Done? then [] else [Errored]
    case Issue(refused) => [New(s.pc.spec)] + if refused then [Refused] else []
    case ObserveAfter(after) => [SawAfter(after)]
    case Finish(write) => Written(write, CreatedAnswer(s.pc.after))
    case Crash => []
  }

  function Do(s: State, step: Step): State
    requires Enabled(s, step)
  {
    State(FileAfter(s, step), PcAfter(s, step), s.log + Emitted(s, step))
  }

  predicate Reaches(s: State, steps: seq<Step>, t: State)
    decreases |steps|
  {
    if steps == [] then s == t else Enabled(s, steps[0]) && Reaches(Do(s, steps[0]), steps[1..], t)
  }

  predicate HasNew(log: seq<Event>) {
    exists e :: e in log && e.New?
  }

  /** A `new` went out and nothing since shows, or fails to rule out, that its VM is there. */
  predicate Unseen(log: seq<Event>) {
    if log == [] then false
    else
      match log[|log| - 1]
      case New(_) => true
      case Saw(observed) => observed.Missing? && Unseen(log[..|log| - 1])
      case SawAfter(observed) => (observed.Missing? || observed.Unknown?) && Unseen(log[..|log| - 1])
      case _ => Unseen(log[..|log| - 1])
  }

  lemma UnseenExtend(log: seq<Event>, e: Event)
    ensures Unseen(log + [e]) <==>
            match e
            case New(_) => true
            case Saw(observed) => observed.Missing? && Unseen(log)
            case SawAfter(observed) => (observed.Missing? || observed.Unknown?) && Unseen(log)
            case _ => Unseen(log)
  {
    assert (log + [e])[..|log|] == log;
  }

  /** An observation that shows a VM, or that overwrites the receipt without showing one. */
  predicate Sighting(e: Event) {
    || (e.Saw? && !e.observed.Missing?)
    || (e.SawAfter? && !e.observed.Missing? && !e.observed.Unknown?)
  }

  lemma {:induction false} UnseenMeans(log: seq<Event>)
    ensures Unseen(log) <==>
            exists i :: 0 <= i < |log| && log[i].New? && forall k :: i < k < |log| ==> !Sighting(log[k])
    decreases |log|
  {
    if log != [] {
      var rest, last := log[..|log| - 1], log[|log| - 1];
      UnseenMeans(rest);
      UnseenExtend(rest, last);
      assert log == rest + [last];
      if Unseen(log) && !last.New? {
        var i :| 0 <= i < |rest| && rest[i].New? && forall k :: i < k < |rest| ==> !Sighting(rest[k]);
        assert log[i].New? && forall k :: i < k < |log| ==> !Sighting(log[k]);
      }
      if i :| 0 <= i < |log| && log[i].New? && forall k :: i < k < |log| ==> !Sighting(log[k]) {
        if !last.New? {
          assert rest[i].New? && forall k :: i < k < |rest| ==> !Sighting(rest[k]);
        }
      }
    }
  }

  /** What the receipt file holds at each point of an attempt. */
  predicate FileOk(s: State) {
    match s.pc
    case Idle => Unseen(s.log) ==> s.file.Torn? || ReceiptWaits(s.file)
    case Observing(_, receipt) => receipt == s.file && !s.file.Torn? && (Unseen(s.log) ==> ReceiptWaits(s.file))
    case SavingObserved(_, receipt, observed) => receipt == s.file && !observed.Missing? && !Unseen(s.log)
    case Checking(_) => !Unseen(s.log)
    case Committing(_) => !Unseen(s.log)
    case Issuing(spec) => s.file == Receipt(FingerprintOf(spec), Creating) && !Unseen(s.log)
    case Issued(spec) => s.file == Receipt(FingerprintOf(spec), Creating)
    case Finishing(spec, after) =>
      s.file == Receipt(FingerprintOf(spec), Creating) && (Unseen(s.log) ==> after.Missing? || after.Unknown?)
  }

  predicate ClaimsOk(s: State) {
    && (s.file.Receipt? && s.file.phase.Created? ==> HasNew(s.log))
    && (s.pc.Issued? || s.pc.Finishing? ==> HasNew(s.log))
    && (s.pc.SavingObserved? ==> s.pc.receipt == s.file)
  }

  /** No `new` while an earlier one is still unseen, and no claim of ownership without a `new`. */
  predicate EventOk(log: seq<Event>, i: nat)
    requires i < |log|
  {
    && (log[i].New? ==> !Unseen(log[..i]))
    && (log[i].Replied? && log[i].answer.owned ==> HasNew(log[..i]))
  }

  predicate LogOk(log: seq<Event>) {
    forall i :: 0 <= i < |log| ==> EventOk(log, i)
  }

  predicate Inv(s: State) {
    FileOk(s) && ClaimsOk(s) && LogOk(s.log)
  }

  lemma LogOkExtend(log: seq<Event>, e: Event)
    requires LogOk(log)
    requires e.New? ==> !Unseen(log)
    requires e.Replied? && e.answer.owned ==> HasNew(log)
    ensures LogOk(log + [e])
  {
    forall i | 0 <= i < |log + [e]| ensures EventOk(log + [e], i) {
      assert (log + [e])[..i] == log[..i];
      if i == |log| {
        assert log[..i] == log;
      } else {
        assert EventOk(log, i);
      }
    }
  }

  lemma StepKeepsLog(s: State, step: Step)
    requires Inv(s) && Enabled(s, step)
    ensures LogOk(Do(s, step).log)
  {
    var emitted := Emitted(s, step);
    if emitted == [] {
      assert s.log + emitted == s.log;
    } else {
      LogOkExtend(s.log, emitted[0]);
      if |emitted| == 1 {
        assert emitted == [emitted[0]];
      } else {
        LogOkExtend(s.log + [emitted[0]], emitted[1]);
        assert s.log + emitted == s.log + [emitted[0]] + [emitted[1]];
      }
    }
  }

  /** What one event makes of it. */
  function Turn(e: Event, before: bool): bool {
    match e
    case New(_) => true
    case Saw(observed) => observed.Missing? && before
    case SawAfter(observed) => (observed.Missing? || observed.Unknown?) && before
    case _ => before
  }

  lemma UnseenGrows(log: seq<Event>, more: seq<Event>)
    requires |more| <= 2
    ensures Unseen(log + more)
         == if more == [] then Unseen(log)
            else if |more| == 1 then Turn(more[0], Unseen(log))
            else Turn(more[1], Turn(more[0], Unseen(log)))
  {
    if more == [] {
      assert log + more == log;
    } else {
      UnseenExtend(log, more[0]);
      if |more| == 1 {
        assert log + more == log + [more[0]];
      } else {
        UnseenExtend(log + [more[0]], more[1]);
        assert log + more == log + [more[0]] + [more[1]];
      }
    }
  }

  lemma StepTurns(s: State, step: Step, before: bool)
    requires Enabled(s, step)
    ensures |Emitted(s, step)| <= 2
    ensures (match step
             case Issue(_) => true
             case Observe(observed) => observed.Missing? && before
             case ObserveAfter(after) => (after.Missing? || after.Unknown?) && before
             case _ => before)
         == var more := Emitted(s, step);
            if more == [] then before
            else if |more| == 1 then Turn(more[0], before)
            else Turn(more[1], Turn(more[0], before))
  {
  }

  lemma StepKeepsUnseen(s: State, step: Step)
    requires Enabled(s, step)
    ensures Unseen(Do(s, step).log) <==>
            match step
            case Issue(_) => true
            case Observe(observed) => observed.Missing? && Unseen(s.log)
            case ObserveAfter(after) => (after.Missing? || after.Unknown?) && Unseen(s.log)
            case _ => Unseen(s.log)
  {
    StepTurns(s, step, Unseen(s.log));
    UnseenGrows(s.log, Emitted(s, step));
  }

  lemma StepKeepsInv(s: State, step: Step)
    requires Inv(s) && Enabled(s, step)
    ensures Inv(Do(s, step))
  {
    StepKeepsLog(s, step);
    StepKeepsUnseen(s, step);
    assert ClaimsOk(Do(s, step)) by {
      assert forall e :: e in s.log ==> e in Do(s, step).log;
      if step.Issue? {
        IssueIsNew(s, step);
      }
    }
  }

  lemma {:induction false} RunKeepsInv(s: State, steps: seq<Step>, t: State)
    requires Inv(s) && Reaches(s, steps, t)
    ensures Inv(t) && |s.log| <= |t.log| && t.log[..|s.log|] == s.log
    decreases |steps|
  {
    if steps != [] {
      StepKeepsInv(s, steps[0]);
      var next := Do(s, steps[0]);
      RunKeepsInv(next, steps[1..], t);
      assert t.log[..|next.log|][..|s.log|] == t.log[..|s.log|];
    }
  }

  /* What two `new`s of one request id have in common */

  /** The attempt goes by this spec. */
  function GoesBy(pc: Pc): Option<Spec> {
    if pc.Idle? then None else Some(pc.spec)
  }

  /** A receipt outlives every `new` it let out, and stays bound to what they were for. */
  predicate NewsBound(s: State) {
    && (forall e :: e in s.log && e.New? ==> s.file.Torn? || (s.file.Receipt? && !Foreign(s.file, e.spec)))
    && (forall e, f :: e in s.log && f in s.log && e.New? && f.New? ==> FingerprintOf(e.spec) == FingerprintOf(f.spec))
    && (GoesBy(s.pc).Some? ==> !s.file.Torn? && !Foreign(s.file, s.pc.spec))
    && (s.pc.Issuing? ==> s.file.Receipt?)
  }

  lemma StepKeepsNewsBound(s: State, step: Step)
    requires NewsBound(s) && Enabled(s, step)
    ensures NewsBound(Do(s, step))
  {
  }

  lemma {:induction false} RunKeepsNewsBound(s: State, steps: seq<Step>, t: State)
    requires NewsBound(s) && Reaches(s, steps, t)
    ensures NewsBound(t)
    decreases |steps|
  {
    if steps != [] {
      StepKeepsNewsBound(s, steps[0]);
      RunKeepsNewsBound(Do(s, steps[0]), steps[1..], t);
    }
  }

  /** All `new`s of one request id are for one spec, up to the setup script, which the receipt does not cover. */
  lemma NewsAgree(steps: seq<Step>, t: State, i: nat, j: nat)
    requires Reaches(INIT, steps, t)
    requires i < |t.log| && j < |t.log| && t.log[i].New? && t.log[j].New?
    ensures FingerprintOf(t.log[i].spec) == FingerprintOf(t.log[j].spec)
  {
    RunKeepsNewsBound(INIT, steps, t);
  }

  /** Between two `new`s lies a sighting, whatever crashes happened. */
  lemma UncertainCreationIsNotRepeated(steps: seq<Step>, t: State, i: nat, j: nat)
    requires Reaches(INIT, steps, t)
    requires i < j < |t.log| && t.log[i].New? && t.log[j].New?
    ensures exists k :: i < k < j && Sighting(t.log[k])
  {
    RunKeepsInv(INIT, steps, t);
    assert EventOk(t.log, j);
    UnseenMeans(t.log[..j]);
    assert t.log[..j][i].New?;
    var k :| i < k < |t.log[..j]| && Sighting(t.log[..j][k]);
    assert t.log[..j][k] == t.log[k];
  }

  /** With successful inventory reads, the sighting is of a VM. */
  lemma SightedVmIsReal(steps: seq<Step>, t: State, i: nat, j: nat)
    requires Reaches(INIT, steps, t)
    requires i < j < |t.log| && t.log[i].New? && t.log[j].New?
    requires forall k :: i < k < j && t.log[k].Saw? ==> !t.log[k].observed.Unknown?
    ensures exists k :: i < k < j && (t.log[k].Saw? || t.log[k].SawAfter?) && IdentityOf(t.log[k].observed).Some?
  {
    UncertainCreationIsNotRepeated(steps, t, i, j);
    var k :| i < k < j && Sighting(t.log[k]);
  }

  /** Ownership is only ever claimed by a request id that issued `new`. */
  lemma OwnedOnlyAfterNew(steps: seq<Step>, t: State, i: nat)
    requires Reaches(INIT, steps, t)
    requires i < |t.log| && t.log[i].Replied? && t.log[i].answer.owned
    ensures HasNew(t.log[..i])
  {
    RunKeepsInv(INIT, steps, t);
    assert EventOk(t.log, i);
  }

  /** This receipt does not let `spec` issue `new` on an inventory that shows nothing. */
  predicate Blocked(file: File, spec: Spec) {
    spec.adopt || file.Torn? || Foreign(file, spec) || ReceiptWaits(file)
  }

  /** Attempts for one spec whose inventory reads all succeed and show nothing. */
  predicate ShowsNothing(steps: seq<Step>, spec: Spec) {
    forall k :: 0 <= k < |steps| ==>
      && (steps[k].Start? ==> steps[k].spec == spec)
      && (steps[k].Observe? ==> steps[k].observed.Missing?)
  }

  predicate Stuck(s: State, spec: Spec) {
    && Blocked(s.file, spec)
    && (s.pc.Idle? || (s.pc.Observing? && s.pc.spec == spec && s.pc.receipt == s.file && !s.file.Torn?
                       && !Foreign(s.file, spec)))
  }

  lemma {:induction false} StuckIssuesNothing(s: State, spec: Spec, steps: seq<Step>, t: State)
    requires Stuck(s, spec) && Reaches(s, steps, t) && ShowsNothing(steps, spec)
    ensures Stuck(t, spec) && |s.log| <= |t.log| && !HasNew(t.log[|s.log|..])
    decreases |steps|
  {
    if steps != [] {
      var next := Do(s, steps[0]);
      StuckIssuesNothing(next, spec, steps[1..], t);
      LogGrows(next, steps[1..], t);
      assert t.log[|s.log|..] == Emitted(s, steps[0]) + t.log[|next.log|..] by {
        assert t.log == next.log + t.log[|next.log|..];
      }
      assert !HasNew(Emitted(s, steps[0]));
    }
  }

  lemma {:induction false} LogGrows(s: State, steps: seq<Step>, t: State)
    requires Reaches(s, steps, t)
    ensures |s.log| <= |t.log| && t.log[..|s.log|] == s.log
    decreases |steps|
  {
    if steps != [] {
      var next := Do(s, steps[0]);
      LogGrows(next, steps[1..], t);
      assert next.log[..|s.log|] == s.log;
      assert t.log[..|next.log|][..|s.log|] == t.log[..|s.log|];
    }
  }

  /** Exactly when an inventory that shows nothing lets a create issue `new`. */
  lemma IssuesIffNotBlocked(s: State, spec: Spec)
    requires s.pc.Idle?
    ensures !Blocked(s.file, spec) <==>
            exists steps, t :: Reaches(s, steps, t) && ShowsNothing(steps, spec)
                               && |s.log| < |t.log| && HasNew(t.log[|s.log|..])
  {
    if !Blocked(s.file, spec) {
      var steps := NewReaches(s, [], s, spec);
      assert ShowsNothing(steps, spec);
      assert NewIssued(s, spec).log[|s.log|..][1] == New(spec);
    } else {
      forall steps, t | Reaches(s, steps, t) && ShowsNothing(steps, spec)
        ensures !(|s.log| < |t.log| && HasNew(t.log[|s.log|..]))
      {
        StuckIssuesNothing(s, spec, steps, t);
      }
    }
  }

  /** Nothing on record lets this request id call the VM its own. */
  predicate Disowned(s: State) {
    && !(s.file.Receipt? && s.file.phase.Created?)
    && (s.pc.Observing? || s.pc.SavingObserved? ==> s.pc.receipt == s.file)
    && !s.pc.Issued? && !s.pc.Finishing?
  }

  lemma IssueIsNew(s: State, step: Step)
    requires Enabled(s, step)
    ensures HasNew(Emitted(s, step)) <==> step.Issue?
  {
    if step.Issue? {
      assert Emitted(s, step)[0].New?;
    }
  }

  lemma DisownedStep(s: State, step: Step)
    requires Disowned(s) && Enabled(s, step) && !step.Issue?
    ensures Disowned(Do(s, step))
    ensures forall e :: e in Emitted(s, step) && e.Replied? ==> !e.answer.owned
  {
  }

  /** An attempt that records an observation gives ownership up: until another `new`, no answer claims it again. */
  lemma {:induction false} OwnershipStaysForgotten(s: State, steps: seq<Step>, t: State)
    requires Disowned(s) && Reaches(s, steps, t)
    requires |s.log| <= |t.log| && !HasNew(t.log[|s.log|..])
    ensures Disowned(t)
    ensures forall e :: e in t.log[|s.log|..] && e.Replied? ==> !e.answer.owned
    decreases |steps|
  {
    if steps != [] {
      var next := Do(s, steps[0]);
      LogGrows(next, steps[1..], t);
      assert t.log == next.log + t.log[|next.log|..];
      assert t.log[|s.log|..] == Emitted(s, steps[0]) + t.log[|next.log|..];
      assert forall e :: e in Emitted(s, steps[0]) ==> e in t.log[|s.log|..];
      IssueIsNew(s, steps[0]);
      DisownedStep(s, steps[0]);
      OwnershipStaysForgotten(next, steps[1..], t);
    }
  }

  /**
   * Whether a retry that sees something claims it is decided by one recorded phase, which its own write then erases.
   */
  lemma RetryClaimsIffCreated(s: State, spec: Spec, observed: Observed)
    requires s.pc.Idle? && !spec.adopt && !observed.Missing?
    requires s.file.Absent? || (s.file.Receipt? && s.file.fingerprint == FingerprintOf(spec))
    ensures exists t, answer ::
              && Reaches(s, [Start(spec), Observe(observed), SaveObserved(Done)], t)
              && t.log == s.log + [Saw(observed), Replied(answer)]
              && (answer.owned <==> s.file.Receipt? && s.file.phase.Created?)
              && t.pc.Idle? && Disowned(t)
  {
    var steps := [Start(spec), Observe(observed), SaveObserved(Done)];
    var answer := ObservedAnswer(observed, s.file);
    var t := State(Receipt(FingerprintOf(spec), ObservedPhase), Idle, s.log + [Saw(observed), Replied(answer)]);
    var one := Do(s, steps[0]);
    var two := Do(one, steps[1]);
    assert Do(two, steps[2]) == t;
    assert steps[1..][1..] == [steps[2]] && [steps[2]][1..] == [];
    assert Reaches(two, [steps[2]], t);
    assert Reaches(one, steps[1..], t);
  }

  lemma {:induction false} ReachesJoin(s: State, first: seq<Step>, m: State, second: seq<Step>, t: State)
    requires Reaches(s, first, m) && Reaches(m, second, t)
    ensures Reaches(s, first + second, t)
    decreases |first|
  {
    if first == [] {
      assert first + second == second;
    } else {
      assert (first + second)[1..] == first[1..] + second;
      ReachesJoin(Do(s, first[0]), first[1..], m, second, t);
    }
  }

  lemma ReachesSnoc(s: State, steps: seq<Step>, m: State, step: Step)
    requires Reaches(s, steps, m) && Enabled(m, step)
    ensures Reaches(s, steps + [step], Do(m, step))
  {
    assert [step][1..] == [];
    ReachesJoin(s, steps, m, [step], Do(m, step));
  }

  /** One more step at the end of a run. */
  lemma Advance(s: State, steps: seq<Step>, m: State, step: Step) returns (longer: seq<Step>, t: State)
    requires Reaches(s, steps, m) && Enabled(m, step)
    ensures longer == steps + [step] && t == Do(m, step) && Reaches(s, longer, t)
  {
    longer, t := steps + [step], Do(m, step);
    ReachesSnoc(s, steps, m, step);
  }

  /** A first create that finds nothing, has room, and sees `after` once `new` returned. */
  function Made(spec: Spec, after: Observed): State {
    State(Receipt(FingerprintOf(spec), CreatedPhase(after)), Idle,
          [Saw(Missing), New(spec), SawAfter(after), Replied(CreatedAnswer(after))])
  }

  lemma MakeReaches(spec: Spec, after: Observed) returns (steps: seq<Step>)
    requires !spec.adopt
    ensures Reaches(INIT, steps, Made(spec, after))
  {
    var now := INIT;
    steps := [];
    steps, now := Advance(INIT, steps, now, Start(spec));
    steps, now := Advance(INIT, steps, now, Observe(Missing));
    steps, now := Advance(INIT, steps, now, CheckCapacity(Enough));
    assert now == State(Absent, Committing(spec), [Saw(Missing)]);
    steps, now := Advance(INIT, steps, now, Commit(Done));
    steps, now := Advance(INIT, steps, now, Issue(false));
    assert now == State(Receipt(FingerprintOf(spec), Creating), Issued(spec), [Saw(Missing), New(spec)]);
    steps, now := Advance(INIT, steps, now, ObserveAfter(after));
    steps, now := Advance(INIT, steps, now, Finish(Done));
    assert now == Made(spec, after);
  }

  /** A retry that sees something and records it. */
  function Retried(s: State, spec: Spec, observed: Observed): State {
    State(Receipt(FingerprintOf(spec), ObservedPhase), Idle,
          s.log + [Saw(observed), Replied(ObservedAnswer(observed, s.file))])
  }

  lemma RetryReaches(s: State, steps: seq<Step>, m: State, spec: Spec, observed: Observed) returns (longer: seq<Step>)
    requires Reaches(s, steps, m)
    requires m.pc.Idle? && !spec.adopt && !observed.Missing? && m.file.Receipt? && !Foreign(m.file, spec)
    ensures longer == steps + [Start(spec), Observe(observed), SaveObserved(Done)]
    ensures Reaches(s, longer, Retried(m, spec, observed))
  {
    var now := m;
    longer := steps;
    longer, now := Advance(s, longer, now, Start(spec));
    longer, now := Advance(s, longer, now, Observe(observed));
    longer, now := Advance(s, longer, now, SaveObserved(Done));
    assert now == Retried(m, spec, observed);
  }

  /** An attempt that finds nothing and no room for a VM. */
  function TurnedAway(s: State): State {
    s.(log := s.log + [Saw(Missing), Replied(Answer(Status.Failed, false, None))])
  }

  lemma TurnedAwayReaches(s: State, steps: seq<Step>, m: State, spec: Spec) returns (longer: seq<Step>)
    requires Reaches(s, steps, m) && m.pc.Idle? && !Blocked(m.file, spec)
    ensures longer == steps + [Start(spec), Observe(Missing), CheckCapacity(Insufficient)]
    ensures Reaches(s, longer, TurnedAway(m))
  {
    var now := m;
    longer := steps;
    longer, now := Advance(s, longer, now, Start(spec));
    longer, now := Advance(s, longer, now, Observe(Missing));
    longer, now := Advance(s, longer, now, CheckCapacity(Insufficient));
    assert now == TurnedAway(m);
  }

  /** An attempt that ends for good right after its `new`. */
  lemma DyingReaches(s: State, steps: seq<Step>, m: State, spec: Spec) returns (longer: seq<Step>)
    requires Reaches(s, steps, m) && m.pc.Idle? && !Blocked(m.file, spec)
    ensures longer == steps + [Start(spec), Observe(Missing), CheckCapacity(Enough), Commit(Done), Issue(false), Crash]
    ensures Reaches(s, longer, NewIssued(m, spec).(pc := Idle))
  {
    longer := NewReaches(s, steps, m, spec);
    var now := NewIssued(m, spec);
    longer, now := Advance(s, longer, now, Crash);
    assert now == NewIssued(m, spec).(pc := Idle);
  }

  /** What becomes of a `new` that is out: file and answer follow from what is seen afterwards, refused or not. */
  lemma ClaimIgnoresRefusal(s: State, refused: bool, after: Observed, write: Write)
    requires s.pc.Issuing?
    ensures var t := Do(Do(Do(s, Issue(refused)), ObserveAfter(after)), Finish(write));
            && t.file == Put(s.file, s.pc.spec, CreatedPhase(after), write) && t.pc == Idle
            && t.log == s.log + [New(s.pc.spec)] + (if refused then [Refused] else []) + [SawAfter(after)]
                        + Written(write, CreatedAnswer(after))
            && (CreatedAnswer(after).owned <==> after.Present? || after.NotReady?)
  {
  }

  lemma IssuingReaches(spec: Spec) returns (steps: seq<Step>, now: State)
    requires !spec.adopt
    ensures Reaches(INIT, steps, now)
    ensures now == State(Receipt(FingerprintOf(spec), Creating), Issuing(spec), [Saw(Missing)])
  {
    now := INIT;
    steps := [];
    steps, now := Advance(INIT, steps, now, Start(spec));
    steps, now := Advance(INIT, steps, now, Observe(Missing));
    steps, now := Advance(INIT, steps, now, CheckCapacity(Enough));
    assert now == State(Absent, Committing(spec), [Saw(Missing)]);
    steps, now := Advance(INIT, steps, now, Commit(Done));
  }

  /** A `new` refused because the name was taken just before: the answer claims the VM that took it. */
  lemma RefusedNewIsClaimed(spec: Spec, other: Identity)
    requires !spec.adopt
    ensures exists steps, t ::
              && Reaches(INIT, steps, t)
              && t.log == [Saw(Missing), New(spec), Refused, SawAfter(Present(other)),
                           Replied(Answer(Changed, true, Some(other)))]
  {
    var steps, now := IssuingReaches(spec);
    var issuing := now;
    steps, now := Advance(INIT, steps, now, Issue(true));
    steps, now := Advance(INIT, steps, now, ObserveAfter(Present(other)));
    steps, now := Advance(INIT, steps, now, Finish(Done));
    ClaimIgnoresRefusal(issuing, true, Present(other), Done);
  }

  /**
   * The provider alone, were it retried after a pending answer: a create whose VM is still booting, then two retries,
   * and the last answer is `ready` and disclaims the VM it made.
   */
  lemma SlowVmEndsUnowned(spec: Spec, vm: Identity)
    requires !spec.adopt
    ensures exists steps, t ::
              && Reaches(INIT, steps, t)
              && t.log == [Saw(Missing), New(spec), SawAfter(NotReady(vm)), Replied(Answer(Pending, true, Some(vm))),
                           Saw(NotReady(vm)), Replied(Answer(Pending, true, Some(vm))),
                           Saw(Present(vm)), Replied(Answer(Ready, false, Some(vm)))]
  {
    var made := Made(spec, NotReady(vm));
    var steps := MakeReaches(spec, NotReady(vm));
    steps := RetryReaches(INIT, steps, made, spec, NotReady(vm));
    var retried := Retried(made, spec, NotReady(vm));
    steps := RetryReaches(INIT, steps, retried, spec, Present(vm));
    var t := Retried(retried, spec, Present(vm));
    assert t.log == made.log + [Saw(NotReady(vm)), Replied(Answer(Pending, true, Some(vm)))]
                    + [Saw(Present(vm)), Replied(Answer(Ready, false, Some(vm)))];
  }

  /** A fresh `new` on an inventory that shows nothing. */
  function NewIssued(s: State, spec: Spec): State {
    State(Receipt(FingerprintOf(spec), Creating), Issued(spec), s.log + [Saw(Missing), New(spec)])
  }

  lemma NewReaches(s: State, steps: seq<Step>, m: State, spec: Spec) returns (longer: seq<Step>)
    requires Reaches(s, steps, m) && m.pc.Idle? && !Blocked(m.file, spec)
    ensures longer == steps + [Start(spec), Observe(Missing), CheckCapacity(Enough), Commit(Done), Issue(false)]
    ensures Reaches(s, longer, NewIssued(m, spec))
  {
    var now := m;
    longer := steps;
    longer, now := Advance(s, longer, now, Start(spec));
    longer, now := Advance(s, longer, now, Observe(Missing));
    longer, now := Advance(s, longer, now, CheckCapacity(Enough));
    assert now == State(m.file, Committing(spec), m.log + [Saw(Missing)]);
    longer, now := Advance(s, longer, now, Commit(Done));
    longer, now := Advance(s, longer, now, Issue(false));
    assert now == NewIssued(m, spec);
  }

  /**
   * The provider alone, retried after a pending answer: one failed inventory read is enough to ask for `new` again, of
   * the same executor and with the same arguments.
   */
  lemma UnreadableInventoryAsksAgain(spec: Spec)
    requires !spec.adopt
    ensures exists steps, t ::
              && Reaches(INIT, steps, t)
              && t.log == [Saw(Missing), New(spec), SawAfter(Missing), Replied(Answer(Pending, false, None)),
                           Saw(Unknown), Replied(Answer(Status.Failed, false, None)),
                           Saw(Missing), New(spec)]
  {
    var made := Made(spec, Missing);
    var steps := MakeReaches(spec, Missing);
    steps := RetryReaches(INIT, steps, made, spec, Unknown);
    var now := Retried(made, spec, Unknown);
    steps := NewReaches(INIT, steps, now, spec);
  }

  /** Attempts that only adopt, up to a step. */
  predicate OnlyAdopts(steps: seq<Step>) {
    forall i :: 0 <= i < |steps| && steps[i].Start? ==> steps[i].spec.adopt
  }

  /** An adoption answers ready for a VM that was just seen as asked for, and failed for anything else. */
  predicate AdoptedAt(log: seq<Event>, from: nat, i: nat)
    requires from <= i < |log|
  {
    && !log[i].New?
    && (log[i].Replied? ==> !log[i].answer.owned && (log[i].answer.status == Ready || log[i].answer.status.Failed?))
    && (log[i].Replied? && log[i].answer.status == Ready ==>
          i > from && log[i - 1].Saw? && log[i - 1].observed.Present?
          && log[i].answer.identity == Some(log[i - 1].observed.identity))
    && (log[i].Saw? ==> i + 1 < |log| && log[i + 1].Replied?
                        && (log[i + 1].answer.status == Ready <==> log[i].observed.Present?))
  }

  predicate AdoptionOk(log: seq<Event>, from: nat) {
    forall i :: from <= i < |log| ==> AdoptedAt(log, from, i)
  }

  lemma AdoptionLogJoins(log: seq<Event>, more: seq<Event>, from: nat)
    requires from <= |log| && AdoptionOk(log, from) && AdoptionOk(more, 0)
    ensures AdoptionOk(log + more, from)
  {
    forall i | from <= i < |log + more| ensures AdoptedAt(log + more, from, i) {
      if i < |log| {
        assert AdoptedAt(log, from, i);
      } else {
        assert AdoptedAt(more, 0, i - |log|);
      }
    }
  }

  lemma AdoptionStep(s: State, step: Step)
    requires Enabled(s, step) && (step.Start? ==> step.spec.adopt)
    requires s.pc.Idle? || (s.pc.Observing? && s.pc.spec.adopt)
    ensures var t := Do(s, step);
            && t.file == s.file && (t.pc.Idle? || (t.pc.Observing? && t.pc.spec.adopt))
            && AdoptionOk(Emitted(s, step), 0)
  {
  }

  /** Adopting writes, creates and claims nothing, and is ready exactly if the VM is seen as asked for. */
  lemma {:induction false} AdoptionOnlyLooks(s: State, steps: seq<Step>, t: State, from: nat)
    requires s.pc.Idle? || (s.pc.Observing? && s.pc.spec.adopt)
    requires Reaches(s, steps, t) && OnlyAdopts(steps) && from <= |s.log| && AdoptionOk(s.log, from)
    ensures t.file == s.file && AdoptionOk(t.log, from)
    decreases |steps|
  {
    if steps != [] {
      AdoptionStep(s, steps[0]);
      AdoptionLogJoins(s.log, Emitted(s, steps[0]), from);
      AdoptionOnlyLooks(Do(s, steps[0]), steps[1..], t, from);
    }
  }

  /** The provider holding its lock; the runner's replies to the calls it may make are the parameters. */
  class Provider {
    var file: File
    ghost var log: seq<Event>

    ghost function Now(): State
      reads this
    {
      State(file, Idle, log)
    }

    constructor ()
      ensures Now() == INIT
    {
      file, log := Absent, [];
    }

    /** One undisturbed create is a run of the steps above, and it issues `new` under exactly this condition. */
    method CreateLocked(spec: Spec, before: Observed, capacity: Capacity, refused: bool, after: Observed)
      returns (r: Option<Answer>, ghost steps: seq<Step>, ghost emitted: seq<Event>)
      modifies this
      ensures Reaches(old(Now()), steps, Now()) && log == old(log) + emitted
      ensures emitted != [] && emitted[|emitted| - 1] == if r.Some? then Replied(r.value) else Errored
      ensures HasNew(emitted) <==> !Blocked(old(file), spec) && before.Missing? && capacity.Enough?
    {
      ghost var start, now := Now(), Now();
      steps, emitted := [], [];
      steps, now := Advance(start, steps, now, Start(spec));
      if file.Torn? {
        r, emitted := None, [Errored];
      } else if Foreign(file, spec) {
        r := Some(Answer(Status.Failed, false, None));
        emitted := [Replied(r.value)];
      } else {
        assert now == State(file, Observing(spec, file), log);
        steps, now := Advance(start, steps, now, Observe(before));
        if spec.adopt {
          r := Some(AdoptAnswer(before));
          emitted := [Saw(before), Replied(r.value)];
        } else if !before.Missing? {
          r := Some(ObservedAnswer(before, file));
          file := Receipt(FingerprintOf(spec), ObservedPhase);
          steps, now := Advance(start, steps, now, SaveObserved(Done));
          emitted := [Saw(before), Replied(r.value)];
        } else if ReceiptWaits(file) {
          r := Some(UNCERTAIN);
          emitted := [Saw(before), Replied(r.value)];
        } else {
          ghost var more;
          r, steps, more := CreateMissing(spec, capacity, refused, after, start, steps, now);
          emitted := [Saw(before)] + more;
          assert start.log + [Saw(before)] + more == start.log + emitted;
          now := State(file, Idle, start.log + emitted);
        }
      }
      log := log + emitted;
      assert Now() == now;
    }

    method CreateMissing(spec: Spec, capacity: Capacity, refused: bool, after: Observed, ghost start: State,
                         ghost before: seq<Step>, ghost checking: State)
      returns (r: Option<Answer>, ghost steps: seq<Step>, ghost emitted: seq<Event>)
      requires checking == State(file, Checking(spec), checking.log) && Reaches(start, before, checking)
      modifies this`file
      ensures Reaches(start, steps, State(file, Idle, checking.log + emitted))
      ensures emitted != [] && emitted[|emitted| - 1] == if r.Some? then Replied(r.value) else Errored
      ensures HasNew(emitted) <==> capacity.Enough?
    {
      ghost var now: State;
      steps, now := Advance(start, before, checking, CheckCapacity(capacity));
      if !capacity.Enough? {
        r := if capacity.Insufficient? then Some(Answer(Status.Failed, false, None)) else None;
        emitted := [if capacity.Insufficient? then Replied(r.value) else Errored];
        return;
      }
      file := Receipt(FingerprintOf(spec), Creating);
      steps, now := Advance(start, steps, now, Commit(Done));
      ghost var issuing := now;
      assert issuing == State(file, Issuing(spec), checking.log);
      steps, now := Advance(start, steps, now, Issue(refused));
      steps, now := Advance(start, steps, now, ObserveAfter(after));
      file := Receipt(FingerprintOf(spec), CreatedPhase(after));
      r := Some(CreatedAnswer(after));
      steps, now := Advance(start, steps, now, Finish(Done));
      ClaimIgnoresRefusal(issuing, refused, after, Done);
      emitted := NewEvents(spec, refused, after);
      NewEventsJoin(checking.log, spec, refused, after);
    }

    ghost function NewEvents(spec: Spec, refused: bool, after: Observed): (events: seq<Event>)
      ensures HasNew(events) && events[|events| - 1] == Replied(CreatedAnswer(after))
    {
      var sent := [New(spec)] + (if refused then [Refused] else []) + [SawAfter(after)];
      assert sent[0].New?;
      sent + Written(Done, CreatedAnswer(after))
    }

    lemma NewEventsJoin(log: seq<Event>, spec: Spec, refused: bool, after: Observed)
      ensures log + NewEvents(spec, refused, after)
           == log + [New(spec)] + (if refused then [Refused] else []) + [SawAfter(after)]
              + Written(Done, CreatedAnswer(after))
    {
    }
  }
}
