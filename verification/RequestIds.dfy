/** The calls of a plan, and the request ids that tell them apart. */
module RequestIds {
  import opened Wrappers
  import opened Protocol
  import opened Receipts
  import opened Dispatch
  import opened Text
  import opened LifecycleRetries
  import L = Lifecycle

  /** The receipts a stage takes, in order. */
  function StageCalls(site: Site, key: string, stage: L.Stage): seq<Call> {
    match stage
    case Integrate(binding, operation, index) => [BindingCall(site, key, binding, operation, index, NO_INPUT, None)]
    case Directory => [StageCall(site, key, "directory")]
    case Realize => [StageCall(site, key, "shell"), StageCall(site, key, "identity")]
    case Abort(_) => []
  }

  function Calls(site: Site, key: string, stages: seq<L.Stage>): seq<Call> {
    if stages == [] then [] else StageCalls(site, key, stages[0]) + Calls(site, key, stages[1..])
  }

  function UpCalls(site: Site, key: string): seq<Call> {
    Calls(site, key, L.UpStages(site.manifest))
  }

  function BeforeColon(s: string): string {
    if s == "" || s[0] == ':' then "" else [s[0]] + BeforeColon(s[1..])
  }

  lemma {:induction false} ColonReads(a: string, x: string)
    requires ':' !in a
    ensures BeforeColon(a + ":" + x) == a
  {
    if a == "" {
      assert a + ":" + x == ":" + x;
    } else {
      assert (a + ":" + x)[1..] == a[1..] + ":" + x;
      ColonReads(a[1..], x);
    }
  }

  lemma PrefixBeforeColon(a: string, x: string, b: string, y: string)
    requires ':' !in a && ':' !in b && a + ":" + x == b + ":" + y
    ensures a == b && x == y
  {
    ColonReads(a, x);
    ColonReads(b, y);
    assert (a + ":" + x)[|a| + 1..] == x;
    assert (b + ":" + y)[|b| + 1..] == y;
  }

  lemma CommonPrefix(prefix: string, x: string, y: string)
    requires prefix + x == prefix + y
    ensures x == y
  {
    assert (prefix + x)[|prefix|..] == x && (prefix + y)[|prefix|..] == y;
  }

  lemma JoinedNamesOne(key: string, environment: string, a: string, x: string, b: string, y: string)
    requires ':' !in a && ':' !in b && Joined(key, environment, a, x) == Joined(key, environment, b, y)
    ensures a == b && x == y
  {
    var prefix := key + ":" + environment + ":";
    assert prefix + (a + ":" + x) == Joined(key, environment, a, x);
    assert prefix + (b + ":" + y) == Joined(key, environment, b, y);
    CommonPrefix(prefix, a + ":" + x, b + ":" + y);
    PrefixBeforeColon(a, x, b, y);
  }

  lemma {:induction false} DecimalHasNoColon(n: nat)
    ensures ':' !in Decimal(n)
  {
    if n >= 10 {
      DecimalHasNoColon(n / 10);
    }
  }

  /** How the request ids of both kinds of call are spelled, and whose receipts they are. */
  lemma CallsAreSpelled(site: Site, key: string, binding: Binding, operation: string, index: nat, input: Json,
                        previous: Option<Json>, stage: string)
    ensures var environment, call := site.manifest.environment,
                                     BindingCall(site, key, binding, operation, index, input, previous);
            && call.requestId
               == key + ":" + environment + ":" + operation + ":" + Decimal(index) + ":" + binding.extension
            && call.identity.environment == environment && call.identity.extension == binding.extension
            && call.identity.operation == operation
    ensures var environment, call := site.manifest.environment, StageCall(site, key, stage);
            && call.requestId == key + ":" + environment + ":devenv:" + stage
            && call.identity.environment == environment && call.identity.extension == "devenv"
            && call.identity.operation == stage
  {
    assert ":" + "devenv" + ":" == ":devenv:";
  }

  /** A request id gives back the operation, the index and the extension it was made of. */
  lemma BindingRequestIdNamesOne(key: string, environment: string, a: string, i: nat, x: string, b: string, k: nat,
                                 y: string)
    requires ':' !in a && ':' !in b
    requires BindingRequestId(key, environment, a, i, x) == BindingRequestId(key, environment, b, k, y)
    ensures a == b && i == k && x == y
  {
    JoinedNamesOne(key, environment, a, Decimal(i) + ":" + x, b, Decimal(k) + ":" + y);
    DecimalHasNoColon(i);
    DecimalHasNoColon(k);
    PrefixBeforeColon(Decimal(i), x, Decimal(k), y);
    DecimalReadsBack(i);
    DecimalReadsBack(k);
  }

  /** The place of a stage in the plan fixes its binding. */
  predicate Placed(m: Manifest, stage: L.Stage) {
    stage.Integrate? ==>
      && stage.operation in SETUP_OPERATIONS
      && if stage.operation == "create" then m.provider == Some(stage.binding)
         else stage.index < |m.integrations| && m.integrations[stage.index] == stage.binding
  }

  lemma {:induction false} StagesPlaced(m: Manifest, operation: string, i: nat)
    requires i <= |m.integrations| && operation in SETUP_OPERATIONS && operation != "create"
    ensures forall stage :: stage in L.Stages(m, operation, i) ==> Placed(m, stage)
    decreases |m.integrations| - i
  {
    if i < |m.integrations| {
      StagesPlaced(m, operation, i + 1);
      assert m.integrations[i] in m.integrations;
    }
  }

  lemma {:induction false} BootstrapsAreIntegrations(m: Manifest, bindings: seq<Binding>)
    ensures forall binding :: binding in L.Bootstraps(m, bindings) ==> binding in bindings
  {
    if bindings != [] {
      BootstrapsAreIntegrations(m, bindings[1..]);
    }
  }

  lemma UpPlaced(m: Manifest)
    ensures forall stage :: stage in L.UpStages(m) ==> Placed(m, stage)
  {
    StagesPlaced(m, "prepare", 0);
    StagesPlaced(m, "apply", 0);
    StagesPlaced(m, "register", 0);
    BootstrapsAreIntegrations(m, m.integrations);
    var found := L.Bootstraps(m, m.integrations);
    assert |found| > 0 ==> found[0] in found;
    assert forall stage :: stage in L.BootstrapStages(m) ==> Placed(m, stage);
    assert forall stage :: stage in L.CreateStages(m) ==> Placed(m, stage);
  }

  /** Where a call of the plan comes from. */
  predicate Arises(site: Site, key: string, call: Call, stage: L.Stage) {
    call in StageCalls(site, key, stage)
  }

  lemma {:induction false} CallsArise(site: Site, key: string, stages: seq<L.Stage>, call: Call)
    requires call in Calls(site, key, stages)
    ensures exists stage :: stage in stages && Arises(site, key, call, stage)
  {
    if Arises(site, key, call, stages[0]) {
      assert stages[0] in stages;
    } else {
      CallsArise(site, key, stages[1..], call);
      var stage :| stage in stages[1..] && Arises(site, key, call, stage);
      assert stage in stages;
    }
  }

  lemma SameBindingIdSameCall(site: Site, key: string, first: L.Stage, second: L.Stage)
    requires first.Integrate? && second.Integrate? && Placed(site.manifest, first) && Placed(site.manifest, second)
    requires BindingRequestId(key, site.manifest.environment, first.operation, first.index, first.binding.extension)
          == BindingRequestId(key, site.manifest.environment, second.operation, second.index, second.binding.extension)
    ensures first == second
  {
    BindingRequestIdNamesOne(key, site.manifest.environment, first.operation, first.index, first.binding.extension,
                             second.operation, second.index, second.binding.extension);
  }

  lemma BindingIdIsNoStageKey(key: string, environment: string, operation: string, index: nat, extension: string,
                              stage: string)
    requires operation in SETUP_OPERATIONS
    ensures BindingRequestId(key, environment, operation, index, extension) != StageKey(key, environment, stage)
  {
    if BindingRequestId(key, environment, operation, index, extension) == StageKey(key, environment, stage) {
      JoinedNamesOne(key, environment, operation, Decimal(index) + ":" + extension, "devenv", stage);
    }
  }

  lemma SameStageKeySameStage(key: string, environment: string, a: string, b: string)
    requires StageKey(key, environment, a) == StageKey(key, environment, b)
    ensures a == b
  {
    JoinedNamesOne(key, environment, "devenv", a, "devenv", b);
  }

  /** A stage that runs a command takes its receipts under the names of its commands. */
  lemma CommandCall(site: Site, key: string, call: Call, stage: L.Stage)
    requires Arises(site, key, call, stage) && !stage.Integrate?
    ensures call == StageCall(site, key, call.identity.operation)
  {
  }

  lemma SameIdSameCall(site: Site, key: string, a: Call, first: L.Stage, b: Call, second: L.Stage)
    requires Placed(site.manifest, first) && Placed(site.manifest, second)
    requires Arises(site, key, a, first) && Arises(site, key, b, second) && a.requestId == b.requestId
    ensures a == b
  {
    var environment := site.manifest.environment;
    if first.Integrate? && second.Integrate? {
      SameBindingIdSameCall(site, key, first, second);
    } else if first.Integrate? {
      CommandCall(site, key, b, second);
      BindingIdIsNoStageKey(key, environment, first.operation, first.index, first.binding.extension,
                            b.identity.operation);
    } else if second.Integrate? {
      CommandCall(site, key, a, first);
      BindingIdIsNoStageKey(key, environment, second.operation, second.index, second.binding.extension,
                            a.identity.operation);
    } else {
      CommandCall(site, key, a, first);
      CommandCall(site, key, b, second);
      SameStageKeySameStage(key, environment, a.identity.operation, b.identity.operation);
    }
  }

  /** Within one environment and key, a request id stands for one call, whatever the manifest repeats. */
  lemma RequestIdNamesOneCall(site: Site, key: string, a: Call, b: Call)
    requires a in UpCalls(site, key) && b in UpCalls(site, key) && a.requestId == b.requestId
    ensures a == b
  {
    CallsArise(site, key, L.UpStages(site.manifest), a);
    CallsArise(site, key, L.UpStages(site.manifest), b);
    var first :| first in L.UpStages(site.manifest) && Arises(site, key, a, first);
    var second :| second in L.UpStages(site.manifest) && Arises(site, key, b, second);
    UpPlaced(site.manifest);
    SameIdSameCall(site, key, a, first, b, second);
  }
}
