/** What an Orchard create answers, told from what the cluster and the guest say, poll by poll. */
module OrchardAnswers {
  import opened OrchardCreate

  /* One read */

  /** The attempt that settles a read: the first that is no timeout, or the third. */
  predicate Settles(w: World, from: nat, n: nat) {
    && n <= 2 && (forall i: nat :: from <= i < from + n ==> w.gets(i).reply.TimedOut?)
    && (n == 2 || !w.gets(from + n).reply.TimedOut?)
  }

  /** The time the attempts up to the `n`th take. */
  function Took(w: World, from: nat, n: nat): real {
    (if n == 0 then 0.0 else Took(w, from, n - 1)) + w.gets(from + n).took
  }

  lemma {:induction false} ReadSettlesFrom(w: World, start: Moment, m: Moment, tries: nat, n: nat)
    requires tries <= n && Settles(w, start.gets, n)
    requires m == start.(gets := start.gets + tries,
                         now := start.now + if tries == 0 then 0.0 else Took(w, start.gets, tries - 1))
    ensures Read(w, m, tries)
         == (start.(gets := start.gets + n + 1, now := start.now + Took(w, start.gets, n)),
             w.gets(start.gets + n).reply)
    decreases n - tries
  {
    if tries < n {
      assert w.gets(m.gets).reply.TimedOut?;
      assert Attempted(w, m).now == start.now + Took(w, start.gets, tries);
      ReadSettlesFrom(w, start, Attempted(w, m), tries + 1, n);
    }
  }

  /** A read is one attempt, and up to two more while all before were timeouts; the last one's reply is its own. */
  lemma ReadSettles(w: World, m: Moment, n: nat)
    requires Settles(w, m.gets, n)
    ensures ReadOnce(w, m)
         == (m.(gets := m.gets + n + 1, now := m.now + Took(w, m.gets, n)), w.gets(m.gets + n).reply)
  {
    ReadSettlesFrom(w, m, m, 0, n);
  }

  /* The first waiting loop */

  /** When the `k`th poll from here on starts, if all before it leave the question open. */
  function Poll(w: World, m: Moment, k: nat): Moment {
    if k == 0 then m else Sleep(ReadOnce(w, Poll(w, m, k - 1)).0, 2.0)
  }

  function PollReply(w: World, m: Moment, k: nat): Reply {
    ReadOnce(w, Poll(w, m, k)).1
  }

  /** The first `k` polls start within 180 whole seconds and find a guest neither running nor failed. */
  predicate StillWaits(w: World, m: Moment, k: nat) {
    forall i :: 0 <= i < k ==> Poll(w, m, i).now.Floor < 180 && PollReply(w, m, i) == Found(GuestOther)
  }

  predicate PollRuns(w: World, m: Moment, k: nat) {
    StillWaits(w, m, k) && Poll(w, m, k).now.Floor < 180
  }

  /** The `k`th poll is made and finds the guest running. */
  predicate SeenRunning(w: World, m: Moment, k: nat) {
    PollRuns(w, m, k) && PollReply(w, m, k) == Found(GuestRunning)
  }

  /** The `k`th poll is made and finds the guest failed or gone, or cannot be made out. */
  predicate SeenLost(w: World, m: Moment, k: nat) {
    PollRuns(w, m, k) && PollReply(w, m, k) != Found(GuestRunning) && PollReply(w, m, k) != Found(GuestOther)
  }

  /** The deadline passes before the `k`th poll. */
  predicate PollsRunOut(w: World, m: Moment, k: nat) {
    StillWaits(w, m, k) && Poll(w, m, k).now.Floor >= 180
  }

  lemma {:induction false} PollShifts(w: World, m: Moment, k: nat)
    ensures Poll(w, m, k + 1) == Poll(w, Sleep(ReadOnce(w, m).0, 2.0), k)
  {
    if k > 0 {
      PollShifts(w, m, k - 1);
    }
  }

  lemma WaitsShifts(w: World, m: Moment, k: nat)
    requires Poll(w, m, 0).now.Floor < 180 && PollReply(w, m, 0) == Found(GuestOther)
    ensures StillWaits(w, m, k + 1) <==> StillWaits(w, Sleep(ReadOnce(w, m).0, 2.0), k)
  {
    var next := Sleep(ReadOnce(w, m).0, 2.0);
    forall i: nat ensures Poll(w, m, i + 1) == Poll(w, next, i) {
      PollShifts(w, m, i);
    }
    if StillWaits(w, m, k + 1) {
      forall i | 0 <= i < k ensures Poll(w, next, i).now.Floor < 180 && PollReply(w, next, i) == Found(GuestOther) {
        assert Poll(w, m, i + 1) == Poll(w, next, i);
      }
    }
    if StillWaits(w, next, k) {
      forall i | 0 <= i < k + 1 ensures Poll(w, m, i).now.Floor < 180 && PollReply(w, m, i) == Found(GuestOther) {
        assert i > 0 ==> Poll(w, m, i) == Poll(w, next, i - 1);
      }
    }
  }

  /** Some poll decides, and says which answer the loop gives. */
  lemma {:induction false} PollDecides(w: World, m: Moment) returns (k: nat)
    ensures AwaitRunning(w, m).1.Running? ==> SeenRunning(w, m, k)
    ensures AwaitRunning(w, m).1.Error? ==> SeenLost(w, m, k)
    ensures AwaitRunning(w, m).1.Pending? ==> PollsRunOut(w, m, k)
    ensures !AwaitRunning(w, m).1.Existing?
    decreases 180 - Elapsed(m)
  {
    k := 0;
    if Elapsed(m) < 180 && PollReply(w, m, 0) == Found(GuestOther) {
      var next := Sleep(ReadOnce(w, m).0, 2.0);
      k := PollDecides(w, next);
      DecisionShifts(w, m, k);
      k := k + 1;
    }
  }

  lemma DecisionShifts(w: World, m: Moment, k: nat)
    requires Elapsed(m) < 180 && PollReply(w, m, 0) == Found(GuestOther)
    ensures var next := Sleep(ReadOnce(w, m).0, 2.0);
            && (SeenRunning(w, m, k + 1) <==> SeenRunning(w, next, k))
            && (SeenLost(w, m, k + 1) <==> SeenLost(w, next, k))
            && (PollsRunOut(w, m, k + 1) <==> PollsRunOut(w, next, k))
  {
    PollShifts(w, m, k);
    WaitsShifts(w, m, k);
  }

  /** No two polls can decide, nor one in two ways. */
  lemma DecidedOnce(w: World, m: Moment, i: nat, k: nat)
    requires SeenRunning(w, m, i) || SeenLost(w, m, i) || PollsRunOut(w, m, i)
    requires SeenRunning(w, m, k) || SeenLost(w, m, k) || PollsRunOut(w, m, k)
    ensures i == k
  {
    assert i < k ==> Poll(w, m, i).now.Floor < 180 && PollReply(w, m, i) == Found(GuestOther);
    assert k < i ==> Poll(w, m, k).now.Floor < 180 && PollReply(w, m, k) == Found(GuestOther);
  }

  /** The loop runs, loses or runs out exactly as some poll does. */
  lemma LoopAnswers(w: World, m: Moment)
    ensures AwaitRunning(w, m).1.Running? <==> exists k: nat :: SeenRunning(w, m, k)
    ensures AwaitRunning(w, m).1.Error? <==> exists k: nat :: SeenLost(w, m, k)
    ensures AwaitRunning(w, m).1.Pending? <==> exists k: nat :: PollsRunOut(w, m, k)
    ensures !AwaitRunning(w, m).1.Existing?
  {
    var k := PollDecides(w, m);
    forall i: nat | SeenRunning(w, m, i) || SeenLost(w, m, i) || PollsRunOut(w, m, i) ensures i == k {
      DecidedOnce(w, m, i, k);
    }
  }

  /* The whole create */

  /** The reply and the end of the very first read. */
  function First(w: World): (Moment, Reply) {
    ReadOnce(w, DISPATCH)
  }

  predicate PostSucceeds(w: World) {
    !w.post.reply.TimedOut? && !w.post.reply.ReadFailed?
  }

  /** A guest that is there but not running is waited for at once, a missing one after it was asked for. */
  predicate Waits(w: World, from: Moment) {
    || ((First(w).1 == Found(GuestFailed) || First(w).1 == Found(GuestOther)) && from == First(w).0)
    || (First(w).1 == NoGuest && PostSucceeds(w) && from == First(w).0.(now := First(w).0.now + w.post.took))
  }

  /** What a create without a setup script answers, for everything the cluster may say. */
  lemma CreateAnswers(w: World)
    ensures Run(w, false).1.Existing? <==> First(w).1 == Found(GuestRunning)
    ensures Run(w, false).1.Running? <==> exists from, k: nat :: Waits(w, from) && SeenRunning(w, from, k)
    ensures Run(w, false).1.Pending? <==> exists from, k: nat :: Waits(w, from) && PollsRunOut(w, from, k)
    ensures Run(w, false).1.Error? <==>
            || First(w).1 == TimedOut || First(w).1 == ReadFailed || (First(w).1 == NoGuest && !PostSucceeds(w))
            || exists from, k: nat :: Waits(w, from) && SeenLost(w, from, k)
  {
    var next := First(w).0;
    var posted := next.(now := next.now + w.post.took);
    LoopAnswers(w, next);
    LoopAnswers(w, posted);
    assert Waits(w, next) ==> Run(w, false) == AwaitRunning(w, next);
    assert Waits(w, posted) && First(w).1 == NoGuest ==> Run(w, false) == AwaitRunning(w, posted);
    forall from | Waits(w, from) ensures from == if First(w).1 == NoGuest then posted else next {
    }
  }

  /* With a setup script */

  /** The `k`th probe is made, and is the first to find the marker. */
  predicate SeenProvisioned(w: World, m: Moment, k: nat) {
    && Unprovisioned(w, m, k) && w.probes(m.probes + k).present
    && ProbeStart(w, m, k).Floor + 20 <= 270
  }

  lemma ProvisionedShifts(w: World, m: Moment, k: nat)
    requires !w.probes(m.probes).present
    ensures SeenProvisioned(w, m, k + 1) <==> SeenProvisioned(w, Next(w, m), k)
  {
    ProbeStartShifts(w, m, k);
    UnprovisionedShifts(w, m, k);
  }

  /** Some probe finds the marker first. */
  ghost predicate Provisioned(w: World, m: Moment) {
    exists k: nat :: SeenProvisioned(w, m, k)
  }

  lemma ProvisionedNext(w: World, m: Moment)
    requires !w.probes(m.probes).present
    ensures Provisioned(w, m) <==> Provisioned(w, Next(w, m))
  {
    if k: nat :| SeenProvisioned(w, Next(w, m), k) {
      ProvisionedShifts(w, m, k);
    }
    if k: nat :| SeenProvisioned(w, m, k) {
      assert k > 0;
      ProvisionedShifts(w, m, k - 1);
    }
  }

  lemma TooLateForProbes(w: World, m: Moment)
    requires Elapsed(m) + 20 > 270
    ensures !Provisioned(w, m)
  {
    forall k: nat ensures !SeenProvisioned(w, m, k) {
      ProbeStartGrows(w, m, k);
    }
  }

  lemma {:induction false} SetupAnswers(w: World, m: Moment, created: Created)
    requires !created.Pending?
    ensures AwaitProvisioned(w, m, created).1 == if Provisioned(w, m) then created else Pending
    decreases CREATE_BUDGET_SECS - Elapsed(m)
  {
    if Elapsed(m) + PROBE_TIMEOUT_SECS > CREATE_BUDGET_SECS {
      TooLateForProbes(w, m);
    } else if w.probes(m.probes).present {
      assert SeenProvisioned(w, m, 0);
    } else {
      ProvisionedNext(w, m);
      SetupAnswers(w, Next(w, m), created);
    }
  }

  /**
   * With a setup script a create goes on from where it would have answered without one: success is kept exactly if some
   * probe, made in time, is the first to find the marker, and turns into pending otherwise.
   */
  lemma ScriptedCreateAnswers(w: World)
    ensures var (plain, created) := Run(w, false);
            var answer := Run(w, true).1;
            answer == if created.Pending? || created.Error? || Provisioned(w, plain) then created else Pending
  {
    var (plain, created) := Run(w, false);
    if !created.Pending? && !created.Error? {
      SetupAnswers(w, plain, created);
    }
  }
}
