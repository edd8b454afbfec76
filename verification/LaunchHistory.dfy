/** What every launch of one request id goes by: nothing the first time, an answer on record ever after. */
module LaunchHistory {
  import opened Protocol
  import opened Receipts
  import opened ReceiptProtocol

  predicate LaunchOf(e: Event, id: string) {
    e.Launched? && e.call.requestId == id
  }

  predicate HasLaunch(history: seq<Event>, id: string) {
    exists e :: e in history && LaunchOf(e, id)
  }

  /** A response a retry may be handed: not complete, and a pending one names its execution. */
  predicate MayBeHanded(response: AdapterResponse) {
    !response.Complete() && (response.status.Pending? ==> response.executionId.Some?)
  }

  /** The event at `p`, by what came before it. */
  predicate FoundedAt(history: seq<Event>, id: string, p: nat)
    requires p < |history|
  {
    && (LaunchOf(history[p], id) ==>
          match history[p].previous
          case None => !HasLaunch(history[..p], id)
          case Some(previous) => MayBeHanded(previous) && WasAnswered(history[..p], id, previous))
    && (AnswersFor(history[p], id) ==> HasLaunch(history[..p], id))
  }

  ghost predicate Founded(history: seq<Event>, id: string) {
    forall p :: 0 <= p < |history| ==> FoundedAt(history, id, p)
  }

  predicate HasHandedLaunch(history: seq<Event>, id: string) {
    exists e :: e in history && LaunchOf(e, id) && e.previous.Some?
  }

  /** Where a caller past its read stands. */
  predicate CallerFounded(s: State, id: string, c: nat)
    requires c in s.callers
  {
    s.callers[c].call.requestId == id ==>
      match s.callers[c].stage
      case Launching(record) => Carried(record).Some? ==> MayBeHanded(Carried(record).value)
      case Awaiting(_) => HasLaunch(s.history, id)
      case _ => true
  }

  ghost predicate LaunchInv(s: State, id: string) {
    && (forall c :: c in s.callers ==> CallerFounded(s, id, c))
    && (HasHandedLaunch(s.history, id) ==> id in s.files && s.files[id].response.Some?)
    && Founded(s.history, id)
  }

  lemma {:induction false} BlindIsCounted(history: seq<Event>, id: string)
    ensures (exists e :: e in history && LaunchOf(e, id) && e.previous.None?) <==> BlindLaunches(history, id) > 0
  {
    if history != [] {
      var before, last := history[..|history| - 1], history[|history| - 1];
      BlindIsCounted(before, id);
      assert history == before + [last];
    }
  }

  lemma FoundedExtends(history: seq<Event>, e: Event, id: string)
    requires Founded(history, id) && FoundedAt(history + [e], id, |history|)
    ensures Founded(history + [e], id)
  {
    var longer := history + [e];
    forall p | 0 <= p < |longer| ensures FoundedAt(longer, id, p) {
      if p < |history| {
        assert longer[..p] == history[..p];
        assert FoundedAt(history, id, p);
      }
    }
  }

  /** A launch with nothing to go on is the first: an earlier one would have been counted, or left a response. */
  lemma BlindIsFirst(s: State, c: nat)
    requires Inv(s) && Enabled(s, CallAdapter(c)) && LaunchInv(s, s.callers[c].call.requestId)
    requires Carried(s.callers[c].stage.record).None?
    ensures !HasLaunch(s.history, s.callers[c].call.requestId)
  {
    var id := s.callers[c].call.requestId;
    assert CallerOk(s, c);
    BlindIsCounted(s.history, id);
    assert forall e :: e in s.history && LaunchOf(e, id) ==> e.previous.None? || HasHandedLaunch(s.history, id);
  }

  lemma NewEventIsFounded(s: State, step: Step, id: string)
    requires Inv(s) && Sourced(s) && Enabled(s, step) && LaunchInv(s, id) && Emitted(s, step) != []
    ensures |Emitted(s, step)| == 1 && FoundedAt(s.history + Emitted(s, step), id, |s.history|)
  {
    var longer := s.history + Emitted(s, step);
    assert longer[..|s.history|] == s.history;
    if s.callers[step.c].call.requestId == id {
      assert CallerFounded(s, id, step.c);
      assert CallerOk(s, step.c);
      if step.CallAdapter? {
        var carried := Carried(s.callers[step.c].stage.record);
        if carried.None? {
          BlindIsFirst(s, step.c);
        } else {
          assert RecordSourced(s, id);
        }
      }
    }
  }

  lemma HistoryStaysFounded(s: State, step: Step, id: string)
    requires Inv(s) && Sourced(s) && Enabled(s, step) && LaunchInv(s, id)
    ensures Founded(Do(s, step).history, id)
  {
    var emitted := Emitted(s, step);
    if emitted == [] {
      assert s.history + emitted == s.history;
    } else {
      NewEventIsFounded(s, step, id);
      assert emitted == [emitted[0]];
      FoundedExtends(s.history, emitted[0], id);
    }
  }

  lemma HandedLaunchStaysRecorded(s: State, step: Step, id: string)
    requires Inv(s) && Enabled(s, step) && LaunchInv(s, id) && HasHandedLaunch(Do(s, step).history, id)
    ensures id in Do(s, step).files && Do(s, step).files[id].response.Some?
  {
    if HasHandedLaunch(s.history, id) {
      StepKeepsFingerprints(s, step, id);
    } else {
      var e :| e in Do(s, step).history && LaunchOf(e, id) && e.previous.Some?;
      assert e in Emitted(s, step);
      assert CallerOk(s, step.c);
    }
  }

  lemma CallerStaysFounded(s: State, step: Step, id: string, c: nat)
    requires Inv(s) && Enabled(s, step) && LaunchInv(s, id) && c in Do(s, step).callers
    ensures CallerFounded(Do(s, step), id, c)
  {
    var t := Do(s, step);
    if c != step.c {
      OthersStand(s, step, c);
      assert CallerFounded(s, id, c);
    } else if !step.Begin? {
      assert CallerFounded(s, id, c);
      assert CallerOk(s, c);
      if step.Mark? {
        InvokeCarriesRecord(s.files, s.callers[c].call);
      }
      if step.CallAdapter? {
        assert Emitted(s, step)[0] in t.history;
      }
    }
  }

  lemma StepKeepsLaunchInv(s: State, step: Step, id: string)
    requires Inv(s) && Sourced(s) && Enabled(s, step) && LaunchInv(s, id)
    ensures LaunchInv(Do(s, step), id)
  {
    forall c | c in Do(s, step).callers ensures CallerFounded(Do(s, step), id, c) {
      CallerStaysFounded(s, step, id, c);
    }
    if HasHandedLaunch(Do(s, step).history, id) {
      HandedLaunchStaysRecorded(s, step, id);
    }
    HistoryStaysFounded(s, step, id);
  }

  lemma {:induction false} RunKeepsLaunchInv(s: State, steps: seq<Step>, t: State, id: string)
    requires Inv(s) && Sourced(s) && LaunchInv(s, id) && Reaches(s, steps, t)
    ensures LaunchInv(t, id)
    decreases |steps|
  {
    if steps != [] {
      StepKeepsInv(s, steps[0]);
      StepStaysSourced(s, steps[0]);
      StepKeepsLaunchInv(s, steps[0], id);
      RunKeepsLaunchInv(Do(s, steps[0]), steps[1..], t, id);
    }
  }

  /** The first launch goes by nothing; every later one by an answer given before, incomplete and fit to go on from. */
  lemma LaunchesAreFounded(steps: seq<Step>, t: State, id: string)
    requires Reaches(INIT, steps, t)
    ensures Founded(t.history, id)
  {
    InitInv();
    RunKeepsLaunchInv(INIT, steps, t, id);
  }

  /* A kind of answer that stays on record */

  predicate CallerKeeps(s: State, id: string, kind: AdapterResponse -> bool, c: nat)
    requires c in s.callers
  {
    s.callers[c].call.requestId == id ==>
      match s.callers[c].stage
      case Launching(record) => Carried(record).Some? && kind(Carried(record).value)
      case Awaiting(record) => Carried(record).Some? && kind(Carried(record).value)
      case Recording(answer) => kind(answer)
      case _ => true
  }

  /** The receipt holds an answer of this kind, and so does every call that is past its read. */
  ghost predicate Keeps(s: State, id: string, kind: AdapterResponse -> bool) {
    && id in s.files && s.files[id].response.Some? && kind(s.files[id].response.value)
    && forall c :: c in s.callers ==> CallerKeeps(s, id, kind, c)
  }

  predicate AnswersAre(e: Event, id: string, kind: AdapterResponse -> bool) {
    AnswersFor(e, id) ==> kind(e.response)
  }

  predicate LaunchIsHanded(e: Event, id: string, kind: AdapterResponse -> bool) {
    LaunchOf(e, id) ==> e.previous.Some? && kind(e.previous.value)
  }

  lemma CallerStillKeeps(s: State, step: Step, id: string, kind: AdapterResponse -> bool, c: nat)
    requires Inv(s) && Keeps(s, id, kind) && Enabled(s, step) && c in Do(s, step).callers
    requires forall e :: e in Emitted(s, step) ==> AnswersAre(e, id, kind)
    ensures CallerKeeps(Do(s, step), id, kind, c)
  {
    if c != step.c {
      OthersStand(s, step, c);
      assert CallerKeeps(s, id, kind, c);
    } else if !step.Begin? && s.callers[c].call.requestId == id {
      assert CallerKeeps(s, id, kind, c);
      assert CallerOk(s, c);
      var emitted := Emitted(s, step);
      assert emitted != [] ==> AnswersAre(emitted[0], id, kind);
    }
  }

  lemma StepStillKeeps(s: State, step: Step, id: string, kind: AdapterResponse -> bool)
    requires Inv(s) && Keeps(s, id, kind) && Enabled(s, step)
    requires forall e :: e in Emitted(s, step) ==> AnswersAre(e, id, kind)
    ensures Keeps(Do(s, step), id, kind)
    ensures forall e :: e in Emitted(s, step) ==> LaunchIsHanded(e, id, kind)
  {
    forall c | c in Do(s, step).callers ensures CallerKeeps(Do(s, step), id, kind, c) {
      CallerStillKeeps(s, step, id, kind, c);
    }
    if step.Begin? || s.callers[step.c].call.requestId != id {
      OthersUntouched(s, step, id);
    } else {
      assert CallerKeeps(s, id, kind, step.c);
      assert CallerOk(s, step.c);
    }
  }

  /**
   * While the adapter answers in kind, what is on record stays of that kind, and so is what every call is handed,
   * over any callers, crashes and failing writes.
   */
  lemma {:induction false} KindIsHandedOn(s: State, steps: seq<Step>, t: State, id: string,
                                          kind: AdapterResponse -> bool)
    requires Inv(s) && Keeps(s, id, kind) && Reaches(s, steps, t)
    requires |s.history| <= |t.history| && forall e :: e in t.history[|s.history|..] ==> AnswersAre(e, id, kind)
    ensures Keeps(t, id, kind)
    ensures forall e :: e in t.history[|s.history|..] ==> LaunchIsHanded(e, id, kind)
    decreases |steps|
  {
    if steps != [] {
      var step, next := steps[0], Do(s, steps[0]);
      StepKeepsInv(s, step);
      RunKeepsInv(next, steps[1..], t);
      NewEvents(s, step, t);
      assert forall e :: e in Emitted(s, step) ==> e in t.history[|s.history|..];
      assert forall e :: e in t.history[|next.history|..] ==> e in t.history[|s.history|..];
      StepStillKeeps(s, step, id, kind);
      KindIsHandedOn(next, steps[1..], t, id, kind);
    }
  }
}
