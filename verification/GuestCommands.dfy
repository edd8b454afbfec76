/** A command sent into an Orchard guest, over every retry of the hop that carries it. */
module GuestCommands {
  import opened Wrappers
  import opened Protocol
  import opened Execution
  import opened KeyedExecutor
  import opened OrchardExecute
  import opened Resume
  import opened ResumeRuns
  import opened LaunchHistory
  import R = ReceiptProtocol

  /** The one process a key starts: whether it runs the command in the guest, and what it ends with. */
  datatype Processes = Processes(ran: string -> bool, ends: string -> ExecutionOutput)

  /** A process that ends with a setup failure and wrote nothing did not run the command. */
  ghost predicate NoneHidden(x: Processes) {
    forall key :: NeverStarted(x.ends(key).stdout, x.ends(key).stderr) ==> !x.ran(key)
  }

  /** One call of the adapter, answered from these processes; it may find any of them unreachable or still running. */
  ghost predicate ServedBy(x: Processes, requestId: string, w: World) {
    forall k: nat ::
      && w.ran(k) == x.ran(CarrierKey(requestId, k))
      && (w.answers(k).Some? && w.answers(k).value.exitCode.Some? ==>
            w.answers(k).value == x.ends(CarrierKey(requestId, k)))
  }

  predicate CarrierOf(key: string, requestId: string, k: nat) {
    key == CarrierKey(requestId, k)
  }

  /** Some call of the adapter for this request, so served, makes the attempt that goes under this key. */
  ghost predicate AskedFor(x: Processes, requestId: string, key: string) {
    exists w: World, k: nat ::
      ServedBy(x, requestId, w) && k < OrchardExecute.Sent(w, 0) && CarrierOf(key, requestId, k)
  }

  ghost predicate IsCarrier(key: string, requestId: string) {
    exists k: nat :: CarrierOf(key, requestId, k)
  }

  /** The process started under this key ran the command of this request. */
  ghost predicate Runs(x: Processes, requestId: string, key: string) {
    IsCarrier(key, requestId) && x.ran(key)
  }

  /** An attempt is only made, by whichever call, when none before it ran the command. */
  lemma EarlierAttemptsDidNotRun(x: Processes, requestId: string, key: string, k: nat, earlier: nat)
    requires NoneHidden(x) && AskedFor(x, requestId, key) && CarrierOf(key, requestId, k) && earlier < k
    ensures !x.ran(CarrierKey(requestId, earlier))
  {
    var w: World, n: nat :|
      ServedBy(x, requestId, w) && n < OrchardExecute.Sent(w, 0) && CarrierOf(key, requestId, n);
    CarrierKeysAreDistinct(requestId, n, requestId, k);
    AllButLastRetryable(w, 0, earlier);
    assert w.answers(earlier).value == x.ends(CarrierKey(requestId, earlier));
  }

  lemma OnlyOneRuns(x: Processes, requestId: string, one: string, other: string)
    requires NoneHidden(x) && AskedFor(x, requestId, one) && AskedFor(x, requestId, other)
    requires Runs(x, requestId, one) && Runs(x, requestId, other)
    ensures one == other
  {
    var i: nat :| CarrierOf(one, requestId, i);
    var j: nat :| CarrierOf(other, requestId, j);
    if i < j {
      EarlierAttemptsDidNotRun(x, requestId, other, j, i);
    } else if j < i {
      EarlierAttemptsDidNotRun(x, requestId, one, i, j);
    }
  }

  /** However often one request is sent to the adapter, the command runs in at most one process. */
  lemma CommandRunsOnceForAllCalls(x: Processes, requestId: string, asks: seq<Ask<string>>, p: nat, q: nat)
    requires NoneHidden(x)
    requires forall ask :: ask in asks && IsCarrier(ask.key, requestId) ==> AskedFor(x, requestId, ask.key)
    requires p < |Started(asks)| && q < |Started(asks)|
    requires Runs(x, requestId, Started(asks)[p]) && Runs(x, requestId, Started(asks)[q])
    ensures p == q
  {
    var one, other := Started(asks)[p], Started(asks)[q];
    KeysStartOnce(asks);
    assert Ask(one, true) in asks && Ask(other, true) in asks;
    OnlyOneRuns(x, requestId, one, other);
  }

  /** This call of the store goes out through the transport as a launch, and its adapter asks under this key. */
  ghost predicate LaunchAsks(env: Env, base: AdapterRequest, e: R.Event, extension: string, nonce: string,
                             x: Processes, key: string)
  {
    && LaunchOf(e, base.requestId) && e.previous.Some?
    && var sent := Resent(env, base, e.previous.value, extension, nonce);
       sent.Success? && sent.value.Executed? && AskedFor(x, sent.value.request.requestId, key)
  }

  /** Every call under a key of this hop was made by the call that started the hop or by a retry since. */
  ghost predicate AsksAreOfTheHop(env: Env, base: AdapterRequest, transport: AdapterRequest, events: seq<R.Event>,
                                  extension: string, x: Processes, asks: seq<Ask<string>>)
  {
    forall ask :: ask in asks && IsCarrier(ask.key, transport.requestId) ==>
      || AskedFor(x, transport.requestId, ask.key)
      || exists e, nonce :: e in events && LaunchAsks(env, base, e, extension, nonce, x, ask.key)
  }

  /**
   * A guest command runs at most once while its hop is on record: in every run of the store, over all callers, crashes,
   * lost writes and resends, and whatever else goes to the executor.
   */
  lemma GuestCommandRunsOnce(env: Env, base: AdapterRequest, transport: AdapterRequest, s: R.State, steps: seq<R.Step>,
                             t: R.State, extension: string, x: Processes, asks: seq<Ask<string>>, p: nat, q: nat)
    requires transport.previous != Some(Null)
    requires R.Inv(s) && Keeps(s, base.requestId, Holding(base, transport)) && R.Reaches(s, steps, t)
    requires |s.history| <= |t.history|
    requires forall e :: e in t.history[|s.history|..] ==> SaysHopStays(env, base, transport, e)
    requires NoneHidden(x)
    requires AsksAreOfTheHop(env, base, transport, t.history[|s.history|..], extension, x, asks)
    requires p < |Started(asks)| && q < |Started(asks)|
    requires Runs(x, transport.requestId, Started(asks)[p]) && Runs(x, transport.requestId, Started(asks)[q])
    ensures p == q
  {
    var events := t.history[|s.history|..];
    forall ask | ask in asks && IsCarrier(ask.key, transport.requestId)
      ensures AskedFor(x, transport.requestId, ask.key)
    {
      if e, nonce :| e in events && LaunchAsks(env, base, e, extension, nonce, x, ask.key) {
        HopIsResentInEveryRun(env, base, transport, s, steps, t, extension, nonce);
        assert CarriesHop(env, base, transport, e, extension, nonce);
      }
    }
    CommandRunsOnceForAllCalls(x, transport.requestId, asks, p, q);
  }
}
