/** An Orchard create in real time: two waiting loops and retried reads inside one budget. */
module OrchardCreate {
  const READ_RETRIES: nat := 2
  const READY_TIMEOUT_SECS := 180
  const POLL_SECS := 2.0
  const CREATE_BUDGET_SECS := 270
  const PROBE_TIMEOUT_SECS := 20
  const PROBE_POLL_SECS := 10.0
  const DIRECT_TIMEOUT_SECS := 300.0

  /** One HTTP attempt takes at most its client's 15 s, one probe at most its 20 s. */
  type HttpTime = t: real | 0.0 <= t <= 15.0
  type ProbeTime = t: real | 0.0 <= t <= 20.0

  datatype GuestStatus = GuestRunning | GuestFailed | GuestOther

  datatype Reply = TimedOut | ReadFailed | NoGuest | Found(status: GuestStatus)

  datatype Attempt = Attempt(took: HttpTime, reply: Reply)

  datatype Probe = Probe(took: ProbeTime, present: bool)

  /** Everything the cluster and the guest will answer, attempt by attempt. */
  datatype World = World(gets: nat -> Attempt, post: Attempt, probes: nat -> Probe)

  /** The clock since dispatch, how many reads and probes were used, and when the last probe ended. */
  datatype Moment = Moment(now: real, gets: nat, probes: nat, lastProbeEnd: real)

  datatype Created = Existing | Running | Pending | Error

  const DISPATCH := Moment(0.0, 0, 0, 0.0)

  /** Whole seconds, as the clock reports them. */
  function Elapsed(m: Moment): int {
    m.now.Floor
  }

  function Sleep(m: Moment, seconds: real): Moment {
    m.(now := m.now + seconds)
  }

  function Attempted(w: World, m: Moment): Moment {
    m.(now := m.now + w.gets(m.gets).took, gets := m.gets + 1)
  }

  /** One read, repeated while it is nothing but a timeout. */
  function Read(w: World, m: Moment, tries: nat): (Moment, Reply)
    requires tries <= READ_RETRIES
    decreases READ_RETRIES - tries
  {
    var next, reply := Attempted(w, m), w.gets(m.gets).reply;
    if reply.TimedOut? && tries < READ_RETRIES then Read(w, next, tries + 1) else (next, reply)
  }

  lemma {:induction false} ReadTime(w: World, m: Moment, tries: nat)
    requires tries <= READ_RETRIES
    ensures var (end, reply) := Read(w, m, tries);
            m.now <= end.now <= m.now + 15.0 * (READ_RETRIES - tries + 1) as real
            && end.probes == m.probes && end.lastProbeEnd == m.lastProbeEnd
    decreases READ_RETRIES - tries
  {
    if w.gets(m.gets).reply.TimedOut? && tries < READ_RETRIES {
      ReadTime(w, Attempted(w, m), tries + 1);
    }
  }

  function ReadOnce(w: World, m: Moment): (r: (Moment, Reply))
    ensures m.now <= r.0.now <= m.now + 45.0
    ensures r.0.probes == m.probes && r.0.lastProbeEnd == m.lastProbeEnd
  {
    ReadTime(w, m, 0);
    Read(w, m, 0)
  }

  /** Poll until the guest runs. */
  function AwaitRunning(w: World, m: Moment): (Moment, Created)
    decreases READY_TIMEOUT_SECS - Elapsed(m)
  {
    if Elapsed(m) >= READY_TIMEOUT_SECS then (m, Pending)
    else
      var (next, reply) := ReadOnce(w, m);
      match reply
      case Found(GuestRunning) => (next, Running)
      case Found(GuestOther) => AwaitRunning(w, Sleep(next, POLL_SECS))
      case _ => (next, Error)
  }

  function Probed(w: World, m: Moment): Moment {
    var end := m.now + w.probes(m.probes).took;
    m.(now := end, probes := m.probes + 1, lastProbeEnd := end)
  }

  /** Probe until the setup has finished, never starting a probe that could outlast the budget. */
  function AwaitProvisioned(w: World, m: Moment, created: Created): (Moment, Created)
    decreases CREATE_BUDGET_SECS - Elapsed(m)
  {
    if Elapsed(m) + PROBE_TIMEOUT_SECS > CREATE_BUDGET_SECS then (m, Pending)
    else if w.probes(m.probes).present then (Probed(w, m), created)
    else AwaitProvisioned(w, Sleep(Probed(w, m), PROBE_POLL_SECS), created)
  }

  function Started(w: World): (Moment, Created) {
    var (next, reply) := ReadOnce(w, DISPATCH);
    match reply
    case TimedOut => (next, Error)
    case ReadFailed => (next, Error)
    case Found(GuestRunning) => (next, Existing)
    case Found(_) => AwaitRunning(w, next)
    case NoGuest =>
      var posted := Sleep(next, w.post.took);
      if w.post.reply.TimedOut? || w.post.reply.ReadFailed? then (posted, Error) else AwaitRunning(w, posted)
  }

  /** The whole create, from dispatch to answer. */
  function Run(w: World, hasScript: bool): (Moment, Created) {
    var (started, created) := Started(w);
    if !hasScript || created.Pending? || created.Error? then (started, created)
    else AwaitProvisioned(w, started, created)
  }

  lemma {:induction false} AwaitRunningTime(w: World, m: Moment)
    requires 0.0 <= m.now < 227.0
    ensures var (end, created) := AwaitRunning(w, m);
            0.0 <= end.now < 227.0 && end.probes == m.probes && end.lastProbeEnd == m.lastProbeEnd && !created.Existing?
    decreases READY_TIMEOUT_SECS - Elapsed(m)
  {
    if Elapsed(m) < READY_TIMEOUT_SECS {
      var (next, reply) := ReadOnce(w, m);
      if reply == Found(GuestOther) {
        AwaitRunningTime(w, Sleep(next, POLL_SECS));
      }
    }
  }

  lemma StartedTime(w: World)
    ensures var (end, created) := Started(w);
            0.0 <= end.now < 227.0 && end.probes == 0 && end.lastProbeEnd == 0.0
  {
    var (next, reply) := ReadOnce(w, DISPATCH);
    if reply.NoGuest? {
      AwaitRunningTime(w, Sleep(next, w.post.took));
    } else if reply.Found? && reply != Found(GuestRunning) {
      AwaitRunningTime(w, next);
    }
  }

  /** What holds whenever the second loop looks at the clock. */
  predicate OnBudget(m: Moment) {
    && 0.0 <= m.now < 281.0 && m.lastProbeEnd < 271.0
    && (m.now > 280.0 ==> m.now == m.lastProbeEnd + PROBE_POLL_SECS)
  }

  lemma {:induction false} AwaitProvisionedTime(w: World, m: Moment, created: Created)
    requires OnBudget(m) && !created.Pending?
    ensures var (end, answer) := AwaitProvisioned(w, m, created);
            && OnBudget(end)
            && (!answer.Pending? ==> answer == created && end.now == end.lastProbeEnd
                                     && m.probes < end.probes && w.probes(end.probes - 1).present)
    decreases CREATE_BUDGET_SECS - Elapsed(m)
  {
    if Elapsed(m) + PROBE_TIMEOUT_SECS <= CREATE_BUDGET_SECS && !w.probes(m.probes).present {
      AwaitProvisionedTime(w, Sleep(Probed(w, m), PROBE_POLL_SECS), created);
    }
  }

  /** When the `k`th probe from here on starts, if all before it find nothing. */
  function ProbeStart(w: World, m: Moment, k: nat): real {
    if k == 0 then m.now
    else ProbeStart(w, m, k - 1) + w.probes(m.probes + k - 1).took + PROBE_POLL_SECS
  }

  function ProbeEnd(w: World, m: Moment, k: nat): real {
    ProbeStart(w, m, k) + w.probes(m.probes + k).took
  }

  /** None of the first `k` probes from here on finds the marker. */
  predicate Unprovisioned(w: World, m: Moment, k: nat) {
    forall i: nat :: m.probes <= i < m.probes + k ==> !w.probes(i).present
  }

  /** A probe that the truncated clock lets start in the 251st second, that runs past 270 s and finds nothing. */
  predicate LateProbe(w: World, m: Moment, k: nat) {
    && 250.0 < ProbeStart(w, m, k) < 251.0 && ProbeEnd(w, m, k) > 270.0
    && Unprovisioned(w, m, k + 1)
  }

  function Next(w: World, m: Moment): Moment {
    Sleep(Probed(w, m), PROBE_POLL_SECS)
  }

  lemma {:induction false} ProbeStartShifts(w: World, m: Moment, k: nat)
    ensures ProbeStart(w, m, k + 1) == ProbeStart(w, Next(w, m), k)
  {
    if k > 0 {
      ProbeStartShifts(w, m, k - 1);
    }
  }

  lemma {:induction false} ProbeStartGrows(w: World, m: Moment, k: nat)
    ensures ProbeStart(w, m, k) >= m.now + PROBE_POLL_SECS * k as real
  {
    if k > 0 {
      ProbeStartGrows(w, m, k - 1);
    }
  }

  lemma UnprovisionedShifts(w: World, m: Moment, k: nat)
    ensures Unprovisioned(w, m, k + 1) <==> !w.probes(m.probes).present && Unprovisioned(w, Next(w, m), k)
  {
  }

  lemma LateProbeShifts(w: World, m: Moment, k: nat)
    ensures LateProbe(w, m, k + 1) <==> !w.probes(m.probes).present && LateProbe(w, Next(w, m), k)
  {
    ProbeStartShifts(w, m, k);
    UnprovisionedShifts(w, m, k + 1);
  }

  /** The loop answers after 280 s exactly when some probe is late. */
  lemma {:induction false} LateIff(w: World, m: Moment, created: Created)
    requires 0.0 <= m.now <= 280.0
    ensures AwaitProvisioned(w, m, created).0.now > 280.0 <==> exists k: nat :: LateProbe(w, m, k)
    decreases CREATE_BUDGET_SECS - Elapsed(m)
  {
    if Elapsed(m) + PROBE_TIMEOUT_SECS > CREATE_BUDGET_SECS {
      forall k: nat ensures !LateProbe(w, m, k) {
        ProbeStartGrows(w, m, k);
      }
    } else if w.probes(m.probes).present {
      forall k: nat ensures !LateProbe(w, m, k) {
        assert w.probes(m.probes).present;
      }
    } else {
      LateIffNext(w, m, created);
    }
  }

  lemma LateIffNext(w: World, m: Moment, created: Created)
    requires 0.0 <= m.now <= 280.0
    requires Elapsed(m) + PROBE_TIMEOUT_SECS <= CREATE_BUDGET_SECS && !w.probes(m.probes).present
    ensures AwaitProvisioned(w, m, created).0.now > 280.0 <==> exists k: nat :: LateProbe(w, m, k)
    decreases CREATE_BUDGET_SECS - Elapsed(m), 0
  {
    var next := Next(w, m);
    if next.now > 280.0 {
      assert LateProbe(w, m, 0);
    } else {
      LateIff(w, next, created);
      if k: nat :| LateProbe(w, next, k) {
        LateProbeShifts(w, m, k);
      }
      if k: nat :| LateProbe(w, m, k) {
        assert k > 0;
        LateProbeShifts(w, m, k - 1);
      }
    }
  }

  /** Which probes the loop makes: those nothing before has answered, starting within the first 250 whole seconds. */
  lemma {:induction false} ProbeRunsIff(w: World, m: Moment, created: Created, k: nat)
    requires 0.0 <= m.now
    ensures m.probes + k < AwaitProvisioned(w, m, created).0.probes <==>
            Unprovisioned(w, m, k) && ProbeStart(w, m, k).Floor + PROBE_TIMEOUT_SECS <= CREATE_BUDGET_SECS
    decreases CREATE_BUDGET_SECS - Elapsed(m)
  {
    ProbeStartGrows(w, m, k);
    if Elapsed(m) + PROBE_TIMEOUT_SECS <= CREATE_BUDGET_SECS {
      if w.probes(m.probes).present {
        assert k > 0 ==> !Unprovisioned(w, m, k);
      } else if k > 0 {
        ProbeRunsIff(w, Next(w, m), created, k - 1);
        ProbeStartShifts(w, m, k - 1);
        UnprovisionedShifts(w, m, k - 1);
      } else {
        ProbesCount(w, Next(w, m), created);
      }
    }
  }

  lemma {:induction false} ProbesCount(w: World, m: Moment, created: Created)
    ensures m.probes <= AwaitProvisioned(w, m, created).0.probes
    decreases CREATE_BUDGET_SECS - Elapsed(m)
  {
    if Elapsed(m) + PROBE_TIMEOUT_SECS <= CREATE_BUDGET_SECS && !w.probes(m.probes).present {
      ProbesCount(w, Next(w, m), created);
    }
  }

  /** Whether the create comes to its second loop. */
  predicate Provisions(w: World, hasScript: bool) {
    hasScript && (Started(w).1.Existing? || Started(w).1.Running?)
  }

  /**
   * Every create answers before 281 s, well inside the controller's limit. It passes 280 s exactly when some probe
   * is late: the clock counts whole seconds, so a probe may start up to a second after 250 s.
   */
  lemma CreateAnswersInTime(w: World, hasScript: bool)
    ensures var (end, created) := Run(w, hasScript);
            && 0.0 <= end.now < 281.0 < DIRECT_TIMEOUT_SECS
            && end.lastProbeEnd < 271.0
            && (end.now > 280.0 <==> Provisions(w, hasScript) && exists k: nat :: LateProbe(w, Started(w).0, k))
  {
    StartedTime(w);
    var (started, created) := Started(w);
    if Provisions(w, hasScript) {
      AwaitProvisionedTime(w, started, created);
      LateIff(w, started, created);
    }
  }

  /**
   * Every probe starts before 251 s, and one that starts by 250 s ends by 270 s whatever it takes: only a probe
   * that the truncated clock lets start in between can end later.
   */
  lemma ProbesStartInTime(w: World, k: nat)
    requires Provisions(w, true) && k < Run(w, true).0.probes
    ensures var start := ProbeStart(w, Started(w).0, k);
            && 0.0 <= start < 251.0
            && (start <= 250.0 ==> ProbeEnd(w, Started(w).0, k) <= 270.0)
  {
    StartedTime(w);
    var (started, created) := Started(w);
    ProbeRunsIff(w, started, created, k);
    ProbeStartGrows(w, started, k);
  }

  /** With a setup script, a create reports success only after a probe found the marker. */
  lemma ReadyMeansProvisioned(w: World)
    ensures var (end, created) := Run(w, true);
            created.Existing? || created.Running? ==> end.probes > 0 && w.probes(end.probes - 1).present
  {
    StartedTime(w);
    var (started, created) := Started(w);
    if !created.Pending? && !created.Error? {
      AwaitProvisionedTime(w, started, created);
    }
  }

  /** A guest that runs at once and whose setup never finishes; its first read takes `10 + f` seconds. */
  function SlowSetup(f: real): World
    requires 0.0 <= f < 1.0
  {
    World((k: nat) => Attempt(10.0 + f, Found(GuestRunning)), Attempt(0.0, NoGuest), (k: nat) => Probe(20.0, false))
  }

  lemma {:induction false} SlowProbes(f: real, k: nat, m: Moment)
    requires 0.0 <= f < 1.0 && k <= 8
    requires m.now == 10.0 + f + 30.0 * k as real
    ensures var (end, answer) := AwaitProvisioned(SlowSetup(f), m, Existing);
            end.now == 280.0 + f && end.lastProbeEnd == 270.0 + f && answer == Pending
    decreases 8 - k
  {
    var w := SlowSetup(f);
    var next := Sleep(Probed(w, m), PROBE_POLL_SECS);
    assert Elapsed(m) == 10 + 30 * k;
    if k < 8 {
      SlowProbes(f, k + 1, next);
    } else {
      assert Elapsed(next) == 280;
    }
  }

  lemma SlowSetupRuns(f: real)
    requires 0.0 <= f < 1.0
    ensures var (end, created) := Run(SlowSetup(f), true);
            end.now == 280.0 + f && end.lastProbeEnd == 270.0 + f && created == Pending
  {
    var w := SlowSetup(f);
    var first := Attempted(w, DISPATCH);
    assert Read(w, DISPATCH, 0) == (first, Found(GuestRunning));
    assert Started(w) == (first, Existing);
    SlowProbes(f, 0, first);
  }

  /** The clock counts whole seconds, so 280 s is not the bound: every time from 280 s up to 281 s is reached. */
  lemma BoundIsTight(f: real)
    requires 0.0 <= f < 1.0
    ensures exists w :: Run(w, true).0.now == 280.0 + f && Run(w, true).0.lastProbeEnd == 270.0 + f
  {
    SlowSetupRuns(f);
  }

  class Session {
    const w: World
    var at: Moment

    constructor (w: World)
      ensures this.w == w && at == DISPATCH
    {
      this.w, at := w, DISPATCH;
    }

    method WithReadRetries() returns (reply: Reply)
      modifies this
      ensures (at, reply) == ReadOnce(w, old(at))
    {
      var tries := 0;
      while true
        invariant tries <= READ_RETRIES
        invariant Read(w, at, tries) == ReadOnce(w, old(at))
        decreases READ_RETRIES - tries
      {
        reply := w.gets(at.gets).reply;
        at := Attempted(w, at);
        if reply.TimedOut? && tries < READ_RETRIES {
          tries := tries + 1;
        } else {
          return;
        }
      }
    }

    method PollUntilRunning() returns (created: Created)
      modifies this
      ensures (at, created) == AwaitRunning(w, old(at))
    {
      while Elapsed(at) < READY_TIMEOUT_SECS
        invariant AwaitRunning(w, at) == AwaitRunning(w, old(at))
        decreases READY_TIMEOUT_SECS - Elapsed(at)
      {
        var reply := WithReadRetries();
        match reply {
          case Found(GuestRunning) => return Running;
          case Found(GuestOther) => at := Sleep(at, POLL_SECS);
          case _ => return Error;
        }
      }
      created := Pending;
    }

    method PollUntilProvisioned(created: Created) returns (answer: Created)
      modifies this
      ensures (at, answer) == AwaitProvisioned(w, old(at), created)
    {
      while true
        invariant AwaitProvisioned(w, at, created) == AwaitProvisioned(w, old(at), created)
        decreases CREATE_BUDGET_SECS - Elapsed(at)
      {
        if Elapsed(at) + PROBE_TIMEOUT_SECS > CREATE_BUDGET_SECS {
          return Pending;
        }
        var present := w.probes(at.probes).present;
        at := Probed(w, at);
        if present {
          return created;
        }
        at := Sleep(at, PROBE_POLL_SECS);
      }
    }

    method Create(hasScript: bool) returns (created: Created)
      requires at == DISPATCH
      modifies this
      ensures (at, created) == Run(w, hasScript)
      ensures at.now < 281.0
    {
      CreateAnswersInTime(w, hasScript);
      var reply := WithReadRetries();
      match reply {
        case TimedOut => return Error;
        case ReadFailed => return Error;
        case Found(GuestRunning) => created := Existing;
        case Found(_) => created := PollUntilRunning();
        case NoGuest =>
          at := Sleep(at, w.post.took);
          if w.post.reply.TimedOut? || w.post.reply.ReadFailed? {
            return Error;
          }
          created := PollUntilRunning();
      }
      if hasScript && !created.Pending? && !created.Error? {
        created := PollUntilProvisioned(created);
      }
    }
  }
}
