/** Each undisturbed `up` is a run of the protocol: same receipts, same launches, same end. */
module LifecycleSimulation {
  import opened Wrappers
  import opened Protocol
  import opened Receipts
  import opened ReceiptProtocol
  import opened UpProtocol
  import opened Dispatch
  import opened LifecycleRetries
  import opened RequestIds
  import opened LifecycleProtocol

  function LaunchedCalls(history: seq<Event>): seq<Call> {
    if history == [] then []
    else
      var e := history[|history| - 1];
      LaunchedCalls(history[..|history| - 1]) + if e.Launched? then [e.call] else []
  }

  function InvokedCalls(invoked: seq<Invocation>): seq<Call> {
    seq(|invoked|, i requires 0 <= i < |invoked| => invoked[i].call)
  }

  /** Nobody is calling, and the protocol holds the world's receipts and has seen its launches. */
  predicate Mirrors(s: UpState, w: World) {
    && s.receipts.files == w.files && s.receipts.callers == map[] && s.receipts.locks == map[]
    && LaunchedCalls(s.receipts.history) == InvokedCalls(w.invoked)
  }

  lemma LaunchedExtends(history: seq<Event>, more: seq<Event>)
    requires |more| <= 1
    ensures LaunchedCalls(history + more)
         == LaunchedCalls(history) + if more != [] && more[0].Launched? then [more[0].call] else []
  {
    if more == [] {
      assert history + more == history;
    } else {
      assert (history + more)[..|history|] == history;
    }
  }

  lemma {:induction false} UpReaches2(plan: seq<Call>, s: UpState, first: seq<UpStep>, m: UpState, second: seq<UpStep>,
                                      t: UpState)
    requires UpReaches(plan, s, first, m) && UpReaches(plan, m, second, t)
    ensures UpReaches(plan, s, first + second, t)
    decreases |first|
  {
    if first == [] {
      assert first + second == second;
    } else {
      assert (first + second)[1..] == first[1..] + second;
      UpReaches2(plan, UpDo(plan, s, first[0]), first[1..], m, second, t);
    }
  }

  lemma UpReachesOne(plan: seq<Call>, s: UpState, step: UpStep)
    requires UpEnabled(plan, s, step)
    ensures UpReaches(plan, s, [step], UpDo(plan, s, step))
  {
    assert [step][1..] == [];
  }

  /** A step of the caller `u` itself, after it began and short of crashing. */
  predicate StepOf(step: Step, u: nat) {
    !step.Begin? && !step.Crash? && step.c == u
  }

  function CursorsOn(cursors: map<nat, nat>, u: nat, outcome: Outcome): map<nat, nat>
    requires u in cursors
  {
    if outcome.Success? && outcome.value.Complete() then cursors[u := cursors[u] + 1] else cursors - {u}
  }

  /** A step that is not the last of its call leaves the run where it is; the last one moves it by the answer. */
  lemma ServeMoves(plan: seq<Call>, s: UpState, step: Step, u: nat)
    requires StepOf(step, u) && Enabled(s.receipts, step) && u in s.cursors
    ensures var t := UpDo(plan, s, Serve(step));
            && (u in t.receipts.callers ==> t.cursors == s.cursors)
            && (u !in t.receipts.callers ==>
                  var e := Emitted(s.receipts, step);
                  |e| == 1 && e[0].Returned? && t.cursors == CursorsOn(s.cursors, u, e[0].outcome))
  {
  }

  function AdapterCalls(steps: seq<Step>): nat {
    if steps == [] then 0 else (if steps[0].CallAdapter? then 1 else 0) + AdapterCalls(steps[1..])
  }

  function Times(call: Call, n: nat): seq<Call> {
    seq(n, _ => call)
  }

  lemma EmitsLaunch(s: State, step: Step, u: nat)
    requires StepOf(step, u) && Enabled(s, step)
    ensures |Emitted(s, step)| <= 1
    ensures Emitted(s, step) != [] && Emitted(s, step)[0].Launched? <==> step.CallAdapter?
    ensures step.CallAdapter? ==> Emitted(s, step)[0].call == s.callers[u].call
    ensures u in Do(s, step).callers ==> Do(s, step).callers[u].call == s.callers[u].call
  {
  }

  lemma ServeLaunches(s: State, step: Step, u: nat)
    requires StepOf(step, u) && Enabled(s, step)
    ensures LaunchedCalls(Do(s, step).history)
         == LaunchedCalls(s.history) + Times(s.callers[u].call, if step.CallAdapter? then 1 else 0)
    ensures u in Do(s, step).callers ==> Do(s, step).callers[u].call == s.callers[u].call
  {
    EmitsLaunch(s, step, u);
    LaunchedExtends(s.history, Emitted(s, step));
    assert Times(s.callers[u].call, 0) == [];
    assert Times(s.callers[u].call, 1) == [s.callers[u].call];
  }

  lemma NothingFollows(s: State, steps: seq<Step>, t: State, u: nat)
    requires u !in s.callers && Reaches(s, steps, t) && forall i :: 0 <= i < |steps| ==> StepOf(steps[i], u)
    ensures steps == []
  {
  }

  /**
   * The run takes these steps to `t`: still in its call, or moved by the answer it got, with `n` launches on the way.
   */
  ghost predicate Lifted(plan: seq<Call>, s: UpState, u: nat, n: nat, t: State, ups: seq<UpStep>, final: UpState)
  {
    && UpReaches(plan, s, ups, final) && final.receipts == t
    && u in s.cursors && u in s.receipts.callers
    && (u !in t.callers ==>
          t.history != [] && var e := t.history[|t.history| - 1];
          e.Returned? && final.cursors == CursorsOn(s.cursors, u, e.outcome))
    && LaunchedCalls(t.history) == LaunchedCalls(s.receipts.history) + Times(s.receipts.callers[u].call, n)
  }

  lemma TimesAdds(call: Call, launched: seq<Call>, n: nat, k: nat)
    ensures (launched + Times(call, n)) + Times(call, k) == launched + Times(call, n + k)
  {
  }

  lemma UpReachesAfter(plan: seq<Call>, s: UpState, step: UpStep, m: UpState, ups: seq<UpStep>, final: UpState)
    requires UpEnabled(plan, s, step) && m == UpDo(plan, s, step) && UpReaches(plan, m, ups, final)
    ensures UpReaches(plan, s, [step] + ups, final)
  {
    assert ([step] + ups)[1..] == ups;
  }

  /** What a step in the middle of a call leaves for the rest. */
  lemma LiftedAfter(plan: seq<Call>, s: UpState, u: nat, n: nat, m: UpState, k: nat, t: State, ups: seq<UpStep>,
                    more: seq<UpStep>, final: UpState)
    requires u in s.receipts.callers && Lifted(plan, m, u, k, t, ups, final)
    requires m.cursors == s.cursors && m.receipts.callers[u].call == s.receipts.callers[u].call
    requires LaunchedCalls(m.receipts.history) == LaunchedCalls(s.receipts.history) + Times(s.receipts.callers[u].call,
                                                                                            n)
    requires UpReaches(plan, s, more, final)
    ensures Lifted(plan, s, u, n + k, t, more, final)
  {
    TimesAdds(s.receipts.callers[u].call, LaunchedCalls(s.receipts.history), n, k);
  }

  lemma LiftedOn(plan: seq<Call>, s: UpState, u: nat, step: Step, m: UpState, n: nat, t: State, ups: seq<UpStep>,
                 final: UpState)
    requires u in s.cursors && StepOf(step, u) && Enabled(s.receipts, step) && m == UpDo(plan, s, Serve(step))
    requires Lifted(plan, m, u, n, t, ups, final)
    ensures Lifted(plan, s, u, (if step.CallAdapter? then 1 else 0) + n, t, [Serve(step)] + ups, final)
  {
    ServeMoves(plan, s, step, u);
    ServeLaunches(s.receipts, step, u);
    UpReachesAfter(plan, s, Serve(step), m, ups, final);
    LiftedAfter(plan, s, u, if step.CallAdapter? then 1 else 0, m, n, t, ups, [Serve(step)] + ups, final);
  }

  lemma LastLifted(plan: seq<Call>, s: UpState, u: nat, step: Step)
    requires u in s.cursors && StepOf(step, u) && Enabled(s.receipts, step) && u !in Do(s.receipts, step).callers
    ensures !step.CallAdapter?
    ensures Lifted(plan, s, u, 0, Do(s.receipts, step), [Serve(step)], UpDo(plan, s, Serve(step)))
  {
    ServeMoves(plan, s, step, u);
    ServeLaunches(s.receipts, step, u);
    UpReachesOne(plan, s, Serve(step));
  }

  lemma NoneLifted(plan: seq<Call>, s: UpState, u: nat)
    requires u in s.cursors && u in s.receipts.callers
    ensures Lifted(plan, s, u, 0, s.receipts, [], s)
  {
    assert Times(s.receipts.callers[u].call, 0) == [];
    assert LaunchedCalls(s.receipts.history) + [] == LaunchedCalls(s.receipts.history);
  }

  /** The steps of one call, lifted to the run that makes it. */
  lemma {:induction false} Lift(plan: seq<Call>, s: UpState, u: nat, steps: seq<Step>, t: State)
    returns (ups: seq<UpStep>, final: UpState)
    requires u in s.cursors && u in s.receipts.callers && Reaches(s.receipts, steps, t)
    requires forall i :: 0 <= i < |steps| ==> StepOf(steps[i], u)
    ensures Lifted(plan, s, u, AdapterCalls(steps), t, ups, final)
    decreases |steps|
  {
    if steps == [] {
      ups, final := [], s;
      NoneLifted(plan, s, u);
      return;
    }
    var step, rest := steps[0], steps[1..];
    assert forall i :: 0 <= i < |rest| ==> rest[i] == steps[i + 1];
    var middle := UpDo(plan, s, Serve(step));
    if u in middle.receipts.callers {
      ServeMoves(plan, s, step, u);
      ups, final := Lift(plan, middle, u, rest, t);
      LiftedOn(plan, s, u, step, middle, AdapterCalls(rest), t, ups, final);
      ups := [Serve(step)] + ups;
    } else {
      NothingFollows(middle.receipts, rest, t, u);
      LastLifted(plan, s, u, step);
      ups, final := [Serve(step)], middle;
    }
  }

  /** The steps of a call alone, after its first. */
  lemma SoloShape(files: Files, u: nat, call: Call, invoke: Option<AdapterResponse> -> Outcome)
    ensures var steps := SoloSteps(files, u, call, invoke, SOUND);
            && steps != [] && steps[0] == Begin(u, call)
            && (forall i :: 1 <= i < |steps| ==> StepOf(steps[i], u))
            && AdapterCalls(steps[1..]) == if Decide(files, call).Invoke? then 1 else 0
  {
    var steps := SoloSteps(files, u, call, invoke, SOUND);
    if Decide(files, call).Invoke? {
      var answer := invoke(Carried(Decide(files, call).record));
      var saving := if answer.Success? then [Save(u, Done)] else [];
      assert steps[1..] == [Acquire(u), Read(u, true), Mark(u, Done), CallAdapter(u), Answer(u, answer)] + saving;
      CountsFive(Acquire(u), Read(u, true), Mark(u, Done), CallAdapter(u), Answer(u, answer), saving);
    } else {
      CountsOne(Read(u, true), []);
      CountsOne(Acquire(u), [Read(u, true)]);
      assert steps[1..] == [Acquire(u)] + [Read(u, true)];
    }
  }

  lemma CountsOne(step: Step, rest: seq<Step>)
    ensures AdapterCalls([step] + rest) == (if step.CallAdapter? then 1 else 0) + AdapterCalls(rest)
  {
    assert ([step] + rest)[1..] == rest;
  }

  lemma CountsFive(a: Step, b: Step, c: Step, d: Step, e: Step, rest: seq<Step>)
    requires !a.CallAdapter? && !b.CallAdapter? && !c.CallAdapter? && d.CallAdapter? && !e.CallAdapter?
    requires |rest| <= 1 && (rest != [] ==> !rest[0].CallAdapter?)
    ensures AdapterCalls([a, b, c, d, e] + rest) == 1
  {
    assert rest != [] ==> rest == [rest[0]] + [];
    assert AdapterCalls(rest) == 0;
    CountsOne(e, rest);
    CountsOne(d, [e] + rest);
    CountsOne(c, [d] + ([e] + rest));
    CountsOne(b, [c] + ([d] + ([e] + rest)));
    CountsOne(a, [b] + ([c] + ([d] + ([e] + rest))));
    assert [a] + ([b] + ([c] + ([d] + ([e] + rest)))) == [a, b, c, d, e] + rest;
  }

  function AfterCall(s: UpState, u: nat, reply: Reply): map<nat, nat>
    requires u in s.cursors
  {
    if L.Passes(reply) then s.cursors[u := s.cursors[u] + 1] else s.cursors - {u}
  }

  lemma InvokedExtends(invoked: seq<Invocation>, inv: Invocation)
    ensures InvokedCalls(invoked + [inv]) == InvokedCalls(invoked) + [inv.call]
  {
  }

  lemma SavedLaunches(site: Site, w: World, inv: Invocation)
    ensures InvokedCalls(Saved(site, w, inv).0.invoked)
         == InvokedCalls(w.invoked) + Times(inv.call, if Decide(w.files, inv.call).Invoke? then 1 else 0)
  {
    if Decide(w.files, inv.call).Invoke? {
      InvokedExtends(w.invoked, Handed(inv, Carried(Decide(w.files, inv.call).record)));
      assert Times(inv.call, 1) == [inv.call];
    } else {
      assert Times(inv.call, 0) == [];
    }
  }

  /** One call alone, as the run that makes it sees it. */
  lemma SoloUp(plan: seq<Call>, s: UpState, u: nat, call: Call, invoke: Option<AdapterResponse> -> Outcome)
    returns (steps: seq<UpStep>, t: UpState)
    requires s.receipts.callers == map[] && s.receipts.locks == map[]
    requires u in s.cursors && s.cursors[u] < |plan| && plan[s.cursors[u]] == call
    ensures UpReaches(plan, s, steps, t)
    ensures t.receipts.callers == map[] && t.receipts.locks == map[]
    ensures t.receipts.files == Applied(s.receipts.files, call, invoke).0
    ensures t.cursors == CursorsOn(s.cursors, u, Applied(s.receipts.files, call, invoke).1)
    ensures LaunchedCalls(t.receipts.history)
         == LaunchedCalls(s.receipts.history) + Times(call, if Decide(s.receipts.files, call).Invoke? then 1 else 0)
  {
    var files := s.receipts.files;
    var solo := SoloSteps(files, u, call, invoke, SOUND);
    SoloCall(s.receipts, u, call, invoke, SOUND);
    SoundDisk(files, call, invoke);
    var end :| Settles(s.receipts, solo, end, u, call, Applied(files, call, invoke).0, Applied(files, call, invoke).1);
    SoloShape(files, u, call, invoke);
    assert forall i :: 0 <= i < |solo[1..]| ==> solo[1..][i] == solo[i + 1];
    var ups;
    ups, t := Lift(plan, UpDo(plan, s, CallStage(u)), u, solo[1..], end);
    LiftedSolo(plan, s, u, call, AdapterCalls(solo[1..]), end, ups, t);
    steps := [CallStage(u)] + ups;
  }

  /** What a lifted call from its very beginning comes to. */
  lemma LiftedSolo(plan: seq<Call>, s: UpState, u: nat, call: Call, n: nat, end: State, ups: seq<UpStep>, t: UpState)
    requires s.receipts.callers == map[] && u in s.cursors && s.cursors[u] < |plan| && plan[s.cursors[u]] == call
    requires Lifted(plan, UpDo(plan, s, CallStage(u)), u, n, end, ups, t) && u !in end.callers
    ensures UpReaches(plan, s, [CallStage(u)] + ups, t) && t.receipts == end
    ensures end.history != [] && end.history[|end.history| - 1].Returned?
    ensures t.cursors == CursorsOn(s.cursors, u, end.history[|end.history| - 1].outcome)
    ensures LaunchedCalls(end.history) == LaunchedCalls(s.receipts.history) + Times(call, n)
  {
    UpReachesAfter(plan, s, CallStage(u), UpDo(plan, s, CallStage(u)), ups, t);
    LaunchedExtends(s.receipts.history, []);
  }

  lemma SavedAsApplied(site: Site, w: World, inv: Invocation)
    ensures var (after, reply) := Saved(site, w, inv);
            var (files, outcome) := Applied(w.files, inv.call, Answering(site, |w.invoked|, inv));
            after.files == files && (L.Passes(reply) <==> outcome.Success? && outcome.value.Complete())
  {
  }

  /** A mutation of the controller is the stage call of the run. */
  lemma SavedIsARun(plan: seq<Call>, s: UpState, u: nat, site: Site, w: World, inv: Invocation)
    returns (steps: seq<UpStep>, t: UpState)
    requires Mirrors(s, w) && u in s.cursors && s.cursors[u] < |plan| && plan[s.cursors[u]] == inv.call
    ensures UpReaches(plan, s, steps, t) && Mirrors(t, Saved(site, w, inv).0)
    ensures t.cursors == AfterCall(s, u, Saved(site, w, inv).1)
  {
    steps, t := SoloUp(plan, s, u, inv.call, Answering(site, |w.invoked|, inv));
    SavedLaunches(site, w, inv);
    SavedAsApplied(site, w, inv);
  }

  /** The calls of these stages lie ahead of the run. */
  predicate Ahead(plan: seq<Call>, s: UpState, u: nat, calls: seq<Call>) {
    u in s.cursors && s.cursors[u] + |calls| <= |plan| && plan[s.cursors[u]..s.cursors[u] + |calls|] == calls
  }

  function AfterStage(s: UpState, u: nat, n: nat, reply: Reply): map<nat, nat>
    requires u in s.cursors
  {
    if L.Passes(reply) then s.cursors[u := s.cursors[u] + n] else s.cursors - {u}
  }

  /** The run performs these steps, mirrors the world they leave, and stands behind its `n` calls or has ended. */
  ghost predicate RunsTo(plan: seq<Call>, s: UpState, u: nat, n: nat, left: (World, Reply), steps: seq<UpStep>,
                         t: UpState)
  {
    && UpReaches(plan, s, steps, t) && Mirrors(t, left.0)
    && u in s.cursors && t.cursors == AfterStage(s, u, n, left.1)
  }

  lemma QuitIsARun(plan: seq<Call>, s: UpState, u: nat, w: World) returns (steps: seq<UpStep>, t: UpState)
    requires Mirrors(s, w) && u in s.cursors
    ensures UpReaches(plan, s, steps, t) && Mirrors(t, w) && t.cursors == s.cursors - {u}
  {
    steps, t := [Quit(u)], UpDo(plan, s, Quit(u));
    UpReachesOne(plan, s, Quit(u));
  }

  lemma IntegrateIsARun(plan: seq<Call>, s: UpState, u: nat, site: Site, key: string, w: World, stage: L.Stage)
    returns (steps: seq<UpStep>, t: UpState)
    requires MutationKey(Some(key)).Success? && stage.Integrate? && IsSaved(site.manifest, stage)
    requires Mirrors(s, w) && Ahead(plan, s, u, StageCalls(site, key, stage))
    ensures RunsTo(plan, s, u, 1, L.Performed(site, w, Some(key), stage), steps, t)
  {
    assert plan[s.cursors[u]] == plan[s.cursors[u]..s.cursors[u] + 1][0];
    if site.manifest.Supports(stage.binding.extension, stage.operation) {
      steps, t := SavedIsARun(plan, s, u, site, w, SetupInvocation(site, key, stage));
    } else {
      steps, t := QuitIsARun(plan, s, u, w);
    }
  }

  lemma DirectoryIsARun(plan: seq<Call>, s: UpState, u: nat, site: Site, key: string, w: World)
    returns (steps: seq<UpStep>, t: UpState)
    requires MutationKey(Some(key)).Success?
    requires Mirrors(s, w) && Ahead(plan, s, u, [StageCall(site, key, "directory")])
    ensures RunsTo(plan, s, u, 1, L.Performed(site, w, Some(key), L.Directory), steps, t)
  {
    assert plan[s.cursors[u]] == plan[s.cursors[u]..s.cursors[u] + 1][0];
    steps, t := SavedIsARun(plan, s, u, site, w, StageInvocation(site, key, "directory"));
  }

  /** The second command of `Realize`, and what its output makes of it. */
  lemma IdentityIsARun(plan: seq<Call>, s: UpState, u: nat, site: Site, key: string, w: World, shell: AdapterResponse,
                       profile: string)
    returns (steps: seq<UpStep>, t: UpState)
    requires Mirrors(s, w) && Ahead(plan, s, u, [StageCall(site, key, "identity")])
    ensures var identified := Saved(site, w, StageInvocation(site, key, "identity"));
            RunsTo(plan, s, u, 1,
                   if L.Passes(identified.1) then L.Concluded(site, identified.0, shell, profile, identified.1.value)
                   else identified,
                   steps, t)
  {
    assert plan[s.cursors[u]] == plan[s.cursors[u]..s.cursors[u] + 1][0];
    var (identified, identity) := Saved(site, w, StageInvocation(site, key, "identity"));
    steps, t := SavedIsARun(plan, s, u, site, w, StageInvocation(site, key, "identity"));
    if L.Passes(identity) && L.Derivation(site, identity.value).Failure? {
      var quitting, quit := QuitIsARun(plan, t, u, identified);
      UpReaches2(plan, s, steps, t, quitting, quit);
      steps, t := steps + quitting, quit;
    }
  }

  lemma IdentifiedIsARun(plan: seq<Call>, s: UpState, u: nat, site: Site, key: string, w: World, shell: AdapterResponse)
    returns (steps: seq<UpStep>, t: UpState)
    requires MutationKey(Some(key)).Success?
    requires Mirrors(s, w) && Ahead(plan, s, u, [StageCall(site, key, "identity")])
    ensures RunsTo(plan, s, u, 1, L.Identified(site, w, Some(key), shell), steps, t)
  {
    if L.Profile(shell).Failure? {
      steps, t := QuitIsARun(plan, s, u, w);
    } else {
      steps, t := IdentityIsARun(plan, s, u, site, key, w, shell, L.Profile(shell).value);
    }
  }

  /** A run goes on from where its first part ended. */
  lemma RunsOn(plan: seq<Call>, s: UpState, u: nat, n: nat, left: (World, Reply), first: seq<UpStep>, m: UpState,
               k: nat, final: (World, Reply), second: seq<UpStep>, t: UpState)
    requires RunsTo(plan, s, u, n, left, first, m) && L.Passes(left.1)
    requires RunsTo(plan, m, u, k, final, second, t)
    ensures RunsTo(plan, s, u, n + k, final, first + second, t)
  {
    UpReaches2(plan, s, first, m, second, t);
  }

  lemma AheadSplits(plan: seq<Call>, s: UpState, u: nat, a: seq<Call>, b: seq<Call>, t: UpState)
    requires Ahead(plan, s, u, a + b)
    ensures Ahead(plan, s, u, a)
    ensures t.cursors == s.cursors[u := s.cursors[u] + |a|] ==> Ahead(plan, t, u, b)
  {
    var p := s.cursors[u];
    assert plan[p..p + |a|] == (a + b)[..|a|] == a;
    assert plan[p + |a|..p + |a| + |b|] == (a + b)[|a|..] == b;
  }

  lemma RealizedFromSaved(site: Site, key: string, w: World)
    requires MutationKey(Some(key)).Success?
    ensures var shelled := Saved(site, w, StageInvocation(site, key, "shell"));
            L.Realized(site, w, Some(key))
            == if L.Passes(shelled.1) then L.Identified(site, shelled.0, Some(key), shelled.1.value) else shelled
  {
  }

  lemma ShellIsARun(plan: seq<Call>, s: UpState, u: nat, site: Site, w: World, inv: Invocation, rest: seq<Call>)
    returns (steps: seq<UpStep>, t: UpState)
    requires Mirrors(s, w) && Ahead(plan, s, u, [inv.call] + rest)
    ensures RunsTo(plan, s, u, 1, Saved(site, w, inv), steps, t)
    ensures L.Passes(Saved(site, w, inv).1) ==> Ahead(plan, t, u, rest)
  {
    AheadSplits(plan, s, u, [inv.call], rest, s);
    assert plan[s.cursors[u]] == plan[s.cursors[u]..s.cursors[u] + 1][0];
    steps, t := SavedIsARun(plan, s, u, site, w, inv);
    AheadSplits(plan, s, u, [inv.call], rest, t);
  }

  lemma RealizeIsARun(plan: seq<Call>, s: UpState, u: nat, site: Site, key: string, w: World)
    returns (steps: seq<UpStep>, t: UpState)
    requires MutationKey(Some(key)).Success?
    requires Mirrors(s, w) && Ahead(plan, s, u, [StageCall(site, key, "shell")] + [StageCall(site, key, "identity")])
    ensures RunsTo(plan, s, u, 2, L.Realized(site, w, Some(key)), steps, t)
  {
    var inv := StageInvocation(site, key, "shell");
    var shelled := Saved(site, w, inv);
    RealizedFromSaved(site, key, w);
    steps, t := ShellIsARun(plan, s, u, site, w, inv, [StageCall(site, key, "identity")]);
    if L.Passes(shelled.1) {
      var more, end := IdentifiedIsARun(plan, t, u, site, key, shelled.0, shelled.1.value);
      RunsOn(plan, s, u, 1, shelled, steps, t, 1, L.Identified(site, shelled.0, Some(key), shelled.1.value), more, end);
      steps, t := steps + more, end;
    }
  }

  lemma StageIsARun(plan: seq<Call>, s: UpState, u: nat, site: Site, key: string, w: World, stage: L.Stage)
    returns (steps: seq<UpStep>, t: UpState)
    requires MutationKey(Some(key)).Success? && IsSaved(site.manifest, stage)
    requires Mirrors(s, w) && Ahead(plan, s, u, StageCalls(site, key, stage))
    ensures RunsTo(plan, s, u, |StageCalls(site, key, stage)|, L.Performing(site, Some(key))(w, stage), steps, t)
  {
    match stage
    case Integrate(_, _, _) => steps, t := IntegrateIsARun(plan, s, u, site, key, w, stage);
    case Directory => steps, t := DirectoryIsARun(plan, s, u, site, key, w);
    case Realize =>
      assert StageCalls(site, key, stage) == [StageCall(site, key, "shell")] + [StageCall(site, key, "identity")];
      steps, t := RealizeIsARun(plan, s, u, site, key, w);
    case Abort(_) => steps, t := QuitIsARun(plan, s, u, w);
  }

  /** Where a walk leaves the run: behind all calls if it finished, ended otherwise. */
  ghost predicate WalksTo(plan: seq<Call>, s: UpState, u: nat, n: nat, walked: L.Walked, steps: seq<UpStep>,
                          t: UpState)
  {
    && UpReaches(plan, s, steps, t) && Mirrors(t, walked.world)
    && u in s.cursors
    && t.cursors == if walked.stop.Finished? then s.cursors[u := s.cursors[u] + n] else s.cursors - {u}
  }

  lemma WalksOn(plan: seq<Call>, s: UpState, u: nat, n: nat, left: (World, Reply), first: seq<UpStep>, m: UpState,
                k: nat, rest: L.Walked, walked: L.Walked, second: seq<UpStep>, t: UpState)
    requires RunsTo(plan, s, u, n, left, first, m) && L.Passes(left.1)
    requires WalksTo(plan, m, u, k, rest, second, t)
    requires walked.world == rest.world && walked.stop == rest.stop
    ensures WalksTo(plan, s, u, n + k, walked, first + second, t)
  {
    UpReaches2(plan, s, first, m, second, t);
  }

  /** From here the stage, as `perform` has it, is a run of its calls. */
  ghost predicate StageRuns(plan: seq<Call>, site: Site, key: string, perform: L.Perform, s: UpState, u: nat, w: World,
                            stage: L.Stage)
  {
    IsSaved(site.manifest, stage) && Mirrors(s, w) && Ahead(plan, s, u, StageCalls(site, key, stage)) ==>
      exists steps, t :: RunsTo(plan, s, u, |StageCalls(site, key, stage)|, perform(w, stage), steps, t)
  }

  ghost predicate StagesRun(plan: seq<Call>, site: Site, key: string, perform: L.Perform) {
    forall s, u, w, stage :: StageRuns(plan, site, key, perform, s, u, w, stage)
  }

  lemma LifecycleStageRuns(plan: seq<Call>, site: Site, key: string, s: UpState, u: nat, w: World, stage: L.Stage)
    requires MutationKey(Some(key)).Success?
    ensures StageRuns(plan, site, key, L.Performing(site, Some(key)), s, u, w, stage)
  {
    if IsSaved(site.manifest, stage) && Mirrors(s, w) && Ahead(plan, s, u, StageCalls(site, key, stage)) {
      var steps, t := StageIsARun(plan, s, u, site, key, w, stage);
    }
  }

  lemma LifecycleStagesRun(plan: seq<Call>, site: Site, key: string)
    requires MutationKey(Some(key)).Success?
    ensures StagesRun(plan, site, key, L.Performing(site, Some(key)))
  {
    forall s, u, w, stage ensures StageRuns(plan, site, key, L.Performing(site, Some(key)), s, u, w, stage) {
      LifecycleStageRuns(plan, site, key, s, u, w, stage);
    }
  }

  lemma WalkEnds(plan: seq<Call>, s: UpState, u: nat, n: nat, k: nat, perform: L.Perform, w: World,
                 stages: seq<L.Stage>,
                 steps: seq<UpStep>, t: UpState)
    requires stages != [] && RunsTo(plan, s, u, n, perform(w, stages[0]), steps, t)
    requires !L.Passes(perform(w, stages[0]).1)
    ensures WalksTo(plan, s, u, k, L.Walk(perform, w, stages), steps, t)
  {
  }

  lemma WalkGoesOn(plan: seq<Call>, s: UpState, u: nat, n: nat, k: nat, perform: L.Perform, w: World,
                   stages: seq<L.Stage>,
                   first: seq<UpStep>, m: UpState, second: seq<UpStep>, t: UpState)
    requires stages != [] && RunsTo(plan, s, u, n, perform(w, stages[0]), first, m) && L.Passes(perform(w, stages[0]).1)
    requires WalksTo(plan, m, u, k, L.Walk(perform, perform(w, stages[0]).0, stages[1..]), second, t)
    ensures WalksTo(plan, s, u, n + k, L.Walk(perform, w, stages), first + second, t)
  {
    WalksOn(plan, s, u, n, perform(w, stages[0]), first, m, k, L.Walk(perform, perform(w, stages[0]).0, stages[1..]),
            L.Walk(perform, w, stages), second, t);
  }

  /** The first stage of a walk, as a run, and what then lies ahead of it. */
  lemma FirstStageIsARun(plan: seq<Call>, s: UpState, u: nat, site: Site, key: string, perform: L.Perform,
                         w: World, stage: L.Stage, tail: seq<Call>)
    returns (steps: seq<UpStep>, t: UpState)
    requires StagesRun(plan, site, key, perform) && IsSaved(site.manifest, stage)
    requires Mirrors(s, w) && Ahead(plan, s, u, StageCalls(site, key, stage) + tail)
    ensures RunsTo(plan, s, u, |StageCalls(site, key, stage)|, perform(w, stage), steps, t)
    ensures L.Passes(perform(w, stage).1) ==> Ahead(plan, t, u, tail)
  {
    var head := StageCalls(site, key, stage);
    AheadSplits(plan, s, u, head, tail, s);
    assert StageRuns(plan, site, key, perform, s, u, w, stage);
    steps, t :| RunsTo(plan, s, u, |head|, perform(w, stage), steps, t);
    AheadSplits(plan, s, u, head, tail, t);
  }

  lemma {:induction false} WalkIsARun(plan: seq<Call>, s: UpState, u: nat, site: Site, key: string, perform: L.Perform,
                                      w: World, stages: seq<L.Stage>)
    returns (steps: seq<UpStep>, t: UpState)
    requires StagesRun(plan, site, key, perform) && forall i :: 0 <= i < |stages| ==> IsSaved(site.manifest, stages[i])
    requires Mirrors(s, w) && Ahead(plan, s, u, Calls(site, key, stages))
    ensures WalksTo(plan, s, u, |Calls(site, key, stages)|, L.Walk(perform, w, stages), steps, t)
    decreases |stages|
  {
    if stages == [] {
      steps, t := [], s;
      return;
    }
    var n, tail := |StageCalls(site, key, stages[0])|, Calls(site, key, stages[1..]);
    steps, t := FirstStageIsARun(plan, s, u, site, key, perform, w, stages[0], tail);
    if L.Passes(perform(w, stages[0]).1) {
      var more, end := WalkIsARun(plan, t, u, site, key, perform, perform(w, stages[0]).0, stages[1..]);
      WalkGoesOn(plan, s, u, n, |tail|, perform, w, stages, steps, t, more, end);
      steps, t := steps + more, end;
    } else {
      WalkEnds(plan, s, u, n, n + |tail|, perform, w, stages, steps, t);
    }
  }

  lemma WholeWalkIsARun(plan: seq<Call>, site: Site, key: string, perform: L.Perform, stages: seq<L.Stage>,
                        s: UpState, u: nat, w: World)
    returns (steps: seq<UpStep>, t: UpState)
    requires StagesRun(plan, site, key, perform) && forall i :: 0 <= i < |stages| ==> IsSaved(site.manifest, stages[i])
    requires Mirrors(s, w) && u !in s.cursors && plan == Calls(site, key, stages)
    ensures UpReaches(plan, s, steps, t) && Mirrors(t, L.Walk(perform, w, stages).world)
    ensures t.cursors == if L.Walk(perform, w, stages).stop.Finished? then s.cursors[u := |plan|] else s.cursors
  {
    var started := UpDo(plan, s, StartUp(u));
    assert plan[0..0 + |plan|] == plan;
    var more;
    more, t := WalkIsARun(plan, started, u, site, key, perform, w, stages);
    assert ([StartUp(u)] + more)[1..] == more;
    steps := [StartUp(u)] + more;
  }

  /**
   * One undisturbed `up`, from any quiet state: the run it makes ends with the receipts and the
   * launches of the method, and stands behind the whole plan exactly if the method's report is ok.
   */
  lemma UpIsARun(site: Site, key: string, s: UpState, u: nat, w: World, now: World, r: L.Reported)
    returns (steps: seq<UpStep>, t: UpState)
    requires MutationKey(Some(key)).Success? && SetupIsSaved(site.manifest)
    requires Mirrors(s, w) && u !in s.cursors
    requires L.Reports(L.Performing(site, Some(key)), w, L.UpStages(site.manifest), L.Preamble(site.manifest), now, r)
    ensures UpReaches(UpCalls(site, key), s, steps, t) && Mirrors(t, now)
    ensures t.cursors == if r.Success? && r.value.ok then s.cursors[u := |UpCalls(site, key)|] else s.cursors
  {
    var stages := L.UpStages(site.manifest);
    UpIsSaved(site.manifest);
    assert forall i :: 0 <= i < |stages| ==> Saving(site.manifest)(stages[i]);
    LifecycleStagesRun(UpCalls(site, key), site, key);
    UpIsOkIffFinished(site, Some(key), w);
    steps, t := WholeWalkIsARun(UpCalls(site, key), site, key, L.Performing(site, Some(key)), stages, s, u, w);
  }

  /* Any number of `up`s */

  const NOTHING_YET := World(map[], map[], 0, [], None)

  /** The world after `n` calls of `up` under one key, whatever each of them ended with. */
  function AfterUps(site: Site, key: string, n: nat): World {
    if n == 0 then NOTHING_YET
    else L.Walk(L.Performing(site, Some(key)), AfterUps(site, key, n - 1), L.UpStages(site.manifest)).world
  }

  predicate CallsOnly(w: World, calls: seq<Call>) {
    forall call :: call in InvokedCalls(w.invoked) ==> call in calls
  }

  lemma SavedCallsOnly(site: Site, w: World, inv: Invocation, calls: seq<Call>)
    requires CallsOnly(w, calls) && inv.call in calls
    ensures CallsOnly(Saved(site, w, inv).0, calls)
  {
    SavedLaunches(site, w, inv);
  }

  lemma StageCallsOnly(site: Site, key: string, w: World, stage: L.Stage, calls: seq<Call>)
    requires MutationKey(Some(key)).Success? && IsSaved(site.manifest, stage) && CallsOnly(w, calls)
    requires forall call :: call in StageCalls(site, key, stage) ==> call in calls
    ensures CallsOnly(L.Performed(site, w, Some(key), stage).0, calls)
  {
    match stage
    case Integrate(binding, operation, _) =>
      if site.manifest.Supports(binding.extension, operation) {
        SavedCallsOnly(site, w, SetupInvocation(site, key, stage), calls);
      }
    case Directory => SavedCallsOnly(site, w, StageInvocation(site, key, "directory"), calls);
    case Realize =>
      var shelling, identifying := StageInvocation(site, key, "shell"), StageInvocation(site, key, "identity");
      SavedCallsOnly(site, w, shelling, calls);
      SavedCallsOnly(site, Saved(site, w, shelling).0, identifying, calls);
    case Abort(_) =>
  }

  /** Whatever these stages do, they call adapters for these calls only. */
  ghost predicate StagesCallOnly(perform: L.Perform, stages: seq<L.Stage>, calls: seq<Call>) {
    forall w, stage :: stage in stages && CallsOnly(w, calls) ==> CallsOnly(perform(w, stage).0, calls)
  }

  lemma {:induction false} WalkCallsOnly(perform: L.Perform, w: World, stages: seq<L.Stage>, calls: seq<Call>)
    requires StagesCallOnly(perform, stages, calls) && CallsOnly(w, calls)
    ensures CallsOnly(L.Walk(perform, w, stages).world, calls)
    decreases |stages|
  {
    if stages != [] {
      assert stages[0] in stages;
      assert CallsOnly(perform(w, stages[0]).0, calls);
      WalkCallsOnly(perform, perform(w, stages[0]).0, stages[1..], calls);
    }
  }

  lemma {:induction false} CallsCover(site: Site, key: string, stages: seq<L.Stage>, stage: L.Stage)
    requires stage in stages
    ensures forall call :: call in StageCalls(site, key, stage) ==> call in Calls(site, key, stages)
  {
    if stage != stages[0] {
      CallsCover(site, key, stages[1..], stage);
    }
  }

  lemma UpStagesCallOnly(site: Site, key: string)
    requires MutationKey(Some(key)).Success? && SetupIsSaved(site.manifest)
    ensures StagesCallOnly(L.Performing(site, Some(key)), L.UpStages(site.manifest), UpCalls(site, key))
  {
    var stages, calls := L.UpStages(site.manifest), UpCalls(site, key);
    UpIsSaved(site.manifest);
    forall w, stage | stage in stages && CallsOnly(w, calls)
      ensures CallsOnly(L.Performing(site, Some(key))(w, stage).0, calls)
    {
      var i :| 0 <= i < |stages| && stages[i] == stage;
      assert Saving(site.manifest)(stages[i]);
      CallsCover(site, key, stages, stage);
      StageCallsOnly(site, key, w, stage, calls);
    }
  }

  lemma UpCallsOnly(site: Site, key: string, w: World)
    requires MutationKey(Some(key)).Success? && SetupIsSaved(site.manifest) && CallsOnly(w, UpCalls(site, key))
    ensures CallsOnly(L.Walk(L.Performing(site, Some(key)), w, L.UpStages(site.manifest)).world, UpCalls(site, key))
  {
    UpStagesCallOnly(site, key);
    WalkCallsOnly(L.Performing(site, Some(key)), w, L.UpStages(site.manifest), UpCalls(site, key));
  }

  /** Every call they make is one of the plan's. */
  lemma {:induction false} UpsCallOnly(site: Site, key: string, n: nat)
    requires MutationKey(Some(key)).Success? && SetupIsSaved(site.manifest)
    ensures CallsOnly(AfterUps(site, key, n), UpCalls(site, key))
  {
    if n > 0 {
      UpsCallOnly(site, key, n - 1);
      UpCallsOnly(site, key, AfterUps(site, key, n - 1));
    }
  }

  /** Together they are one run of the protocol. */
  lemma {:induction false} UpsAreARun(site: Site, key: string, n: nat) returns (steps: seq<UpStep>, t: UpState)
    requires MutationKey(Some(key)).Success? && SetupIsSaved(site.manifest)
    ensures UpReaches(UpCalls(site, key), UP_INIT, steps, t) && Mirrors(t, AfterUps(site, key, n))
    ensures forall u :: u in t.cursors ==> u < n
    decreases n
  {
    steps, t := [], UP_INIT;
    if n > 0 {
      var perform, stages, w := L.Performing(site, Some(key)), L.UpStages(site.manifest), AfterUps(site, key, n - 1);
      steps, t := UpsAreARun(site, key, n - 1);
      var r := L.Told(stages, L.Walk(perform, w, stages), L.Preamble(site.manifest));
      var more, end := UpIsARun(site, key, t, n - 1, w, AfterUps(site, key, n), r);
      UpReaches2(UpCalls(site, key), UP_INIT, steps, t, more, end);
      steps, t := steps + more, end;
    }
  }

  /** Where two launches of a history stand in it. */
  lemma {:induction false} LaunchedAt(history: seq<Event>, i: nat) returns (p: nat)
    requires i < |LaunchedCalls(history)|
    ensures p < |history| && history[p].Launched? && history[p].call == LaunchedCalls(history)[i]
    ensures |LaunchedCalls(history[..p])| == i
    decreases |history|
  {
    var before := history[..|history| - 1];
    if i < |LaunchedCalls(before)| {
      p := LaunchedAt(before, i);
      assert before[..p] == history[..p];
    } else {
      p := |history| - 1;
    }
  }

  lemma {:induction false} LaunchedGrows(history: seq<Event>, p: nat, q: nat)
    requires p <= q <= |history|
    ensures |LaunchedCalls(history[..p])| <= |LaunchedCalls(history[..q])|
    decreases q
  {
    if p < q {
      LaunchedGrows(history, p, q - 1);
      assert history[..q][..q - 1] == history[..q - 1];
    }
  }

  /** However often `up` is called, its adapters are called in the order of the lifecycle. */
  lemma UpsInvokeInOrder(site: Site, key: string, n: nat, i: nat, k: nat)
    requires MutationKey(Some(key)).Success? && SetupIsSaved(site.manifest)
    requires i < k < |AfterUps(site, key, n).invoked|
    ensures var invoked := AfterUps(site, key, n).invoked;
            Rank(invoked[i].call.identity.operation) <= Rank(invoked[k].call.identity.operation)
  {
    var invoked, plan := AfterUps(site, key, n).invoked, UpCalls(site, key);
    UpsCallOnly(site, key, n);
    var steps, t := UpsAreARun(site, key, n);
    var history := t.receipts.history;
    var p := LaunchedAt(history, i);
    var q := LaunchedAt(history, k);
    assert p < q by {
      if q <= p {
        LaunchedGrows(history, q, p);
      }
    }
    assert InvokedCalls(invoked)[i] == invoked[i].call && InvokedCalls(invoked)[k] == invoked[k].call;
    CallIsInPlan(plan, history[p].call);
    CallIsInPlan(plan, history[q].call);
    LaunchesFollowTheLifecycle(site, key, steps, t);
    assert IsStageLaunch(plan, history[p]) && IsStageLaunch(plan, history[q]);
  }

  lemma CallIsInPlan(plan: seq<Call>, call: Call)
    requires call in plan
    ensures InPlan(plan, call.requestId)
  {
  }
}
