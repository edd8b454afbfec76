/** What `up` contains: which calls its plan holds, how often and in what order, and what a finished run leaves. */
module PlanContents {
  import opened Wrappers
  import opened Receipts
  import opened Dispatch
  import opened RequestIds
  import opened LifecycleProtocol

  /** A connection to be registered is among the integrations, and at most one of these bootstraps. */
  predicate Stands(m: Manifest) {
    && (m.connection.Some? && m.Supports(m.connection.value.extension, "register") ==>
          m.connection.value in m.integrations)
    && forall i, k :: 0 <= i < k < |m.integrations| ==> !(Boots(m, i) && Boots(m, k))
  }

  predicate Boots(m: Manifest, i: nat) {
    && i < |m.integrations| && m.Supports(m.integrations[i].extension, "bootstrap")
    && m.extensions[m.integrations[i].extension].place == OnController
  }

  /** The integration takes part in this stage of the lifecycle. */
  predicate TakesPart(m: Manifest, operation: string, i: nat) {
    && i < |m.integrations|
    && if operation == "bootstrap" then Boots(m, i) else m.Supports(m.integrations[i].extension, operation)
  }

  /** The call of the `i`th integration; a registration goes by its place, others by the first equal binding. */
  function CallOf(site: Site, key: string, operation: string, i: nat): Call
    requires i < |site.manifest.integrations|
  {
    var m := site.manifest;
    BindingCall(site, key, m.integrations[i], operation,
                if operation == "register" then i else Position(m.integrations, m.integrations[i]), NO_INPUT, None)
  }

  /* One operation at a time */

  function OfOperation(calls: seq<Call>, operation: string): seq<Call> {
    if calls == [] then []
    else (if calls[0].identity.operation == operation then [calls[0]] else []) + OfOperation(calls[1..], operation)
  }

  lemma {:induction false} OperationAppends(a: seq<Call>, b: seq<Call>, operation: string)
    ensures OfOperation(a + b, operation) == OfOperation(a, operation) + OfOperation(b, operation)
  {
    if a == [] {
      assert a + b == b;
    } else {
      assert (a + b)[1..] == a[1..] + b;
      OperationAppends(a[1..], b, operation);
      var own := if a[0].identity.operation == operation then [a[0]] else [];
      Regroup(own, OfOperation(a[1..], operation), OfOperation(b, operation));
    }
  }

  lemma Regroup(a: seq<Call>, b: seq<Call>, c: seq<Call>)
    ensures a + (b + c) == (a + b) + c
  {
  }

  lemma {:induction false} OperationIsMember(calls: seq<Call>, operation: string, call: Call)
    ensures call in OfOperation(calls, operation) <==> call in calls && call.identity.operation == operation
  {
    if calls != [] {
      OperationIsMember(calls[1..], operation, call);
    }
  }

  predicate Ascends(places: seq<nat>) {
    forall a, b :: 0 <= a < b < |places| ==> places[a] < places[b]
  }

  /** The places, from one on, that pass, in order. */
  ghost predicate PlacesFrom(passes: nat -> bool, from: nat, places: seq<nat>) {
    Ascends(places) && forall i: nat :: i in places <==> from <= i && passes(i)
  }

  ghost predicate At(call: nat -> Call, places: seq<nat>, calls: seq<Call>) {
    |places| == |calls| && forall n :: 0 <= n < |calls| ==> calls[n] == call(places[n])
  }

  /** These are the calls of exactly the places that pass, in order. */
  ghost predicate Lists(passes: nat -> bool, call: nat -> Call, from: nat, calls: seq<Call>) {
    exists places: seq<nat> :: PlacesFrom(passes, from, places) && At(call, places, calls)
  }

  lemma ListsNone(passes: nat -> bool, call: nat -> Call, from: nat)
    requires forall i: nat :: from <= i ==> !passes(i)
    ensures Lists(passes, call, from, [])
  {
    assert PlacesFrom(passes, from, []) && At(call, [], []);
  }

  lemma ListsMore(passes: nat -> bool, call: nat -> Call, from: nat, calls: seq<Call>)
    requires Lists(passes, call, from + 1, calls)
    ensures passes(from) ==> Lists(passes, call, from, [call(from)] + calls)
    ensures !passes(from) ==> Lists(passes, call, from, calls)
  {
    var places: seq<nat> :| PlacesFrom(passes, from + 1, places) && At(call, places, calls);
    if passes(from) {
      PlacesMore(passes, from, places);
      assert At(call, [from] + places, [call(from)] + calls);
    } else {
      assert PlacesFrom(passes, from, places);
    }
  }

  lemma PlacesMore(passes: nat -> bool, from: nat, places: seq<nat>)
    requires PlacesFrom(passes, from + 1, places) && passes(from)
    ensures PlacesFrom(passes, from, [from] + places)
  {
    var more := [from] + places;
    forall a, b | 0 <= a < b < |more| ensures more[a] < more[b] {
      assert more[b] == places[b - 1] && places[b - 1] in places;
    }
  }

  lemma ListedIsTaken(passes: nat -> bool, call: nat -> Call, calls: seq<Call>, i: nat)
    requires Lists(passes, call, 0, calls) && passes(i)
    ensures call(i) in calls
  {
    var places: seq<nat> :| PlacesFrom(passes, 0, places) && At(call, places, calls);
    var n :| 0 <= n < |places| && places[n] == i;
    assert calls[n] == call(i);
  }

  lemma ListedOnce(passes: nat -> bool, call: nat -> Call, calls: seq<Call>)
    requires Lists(passes, call, 0, calls) && forall i: nat, k: nat :: passes(i) && passes(k) ==> i == k
    ensures |calls| <= 1
  {
    var places: seq<nat> :| PlacesFrom(passes, 0, places) && At(call, places, calls);
    if |places| > 1 {
      var i, k := TwoPass(passes, places);
    }
  }

  lemma TwoPass(passes: nat -> bool, places: seq<nat>) returns (i: nat, k: nat)
    requires PlacesFrom(passes, 0, places) && |places| > 1
    ensures i < k && passes(i) && passes(k)
  {
    i, k := places[0], places[1];
    assert i in places && k in places;
  }

  function Taking(m: Manifest, operation: string): nat -> bool {
    (i: nat) => TakesPart(m, operation, i)
  }

  function Calling(site: Site, key: string, operation: string): nat -> Call {
    (i: nat) => if i < |site.manifest.integrations| then CallOf(site, key, operation, i)
                else StageCall(site, key, operation)
  }

  /** These are the calls of exactly the integrations that take part, from the `from`th on, in their order. */
  ghost predicate ListsFrom(site: Site, key: string, operation: string, from: nat, calls: seq<Call>) {
    Lists(Taking(site.manifest, operation), Calling(site, key, operation), from, calls)
  }

  lemma CallsOfOne(site: Site, key: string, stage: L.Stage, rest: seq<L.Stage>)
    ensures Calls(site, key, [stage] + rest) == StageCalls(site, key, stage) + Calls(site, key, rest)
    ensures Calls(site, key, [stage]) == StageCalls(site, key, stage)
  {
    assert ([stage] + rest)[1..] == rest;
    assert [stage][1..] == [];
    assert StageCalls(site, key, stage) + [] == StageCalls(site, key, stage);
  }

  lemma {:induction false} RowLists(site: Site, key: string, operation: string, i: nat)
    requires i <= |site.manifest.integrations| && operation != "bootstrap"
    ensures ListsFrom(site, key, operation, i, Calls(site, key, L.Stages(site.manifest, operation, i)))
    decreases |site.manifest.integrations| - i
  {
    var m, passes, call := site.manifest, Taking(site.manifest, operation), Calling(site, key, operation);
    if i == |m.integrations| {
      ListsNone(passes, call, i);
    } else {
      RowLists(site, key, operation, i + 1);
      var rest := L.Stages(m, operation, i + 1);
      ListsMore(passes, call, i, Calls(site, key, rest));
      if passes(i) {
        var stage := L.Integrate(m.integrations[i], operation,
                                 if operation == "register" then i else Position(m.integrations, m.integrations[i]));
        CallsOfOne(site, key, stage, rest);
        assert L.Stages(m, operation, i) == [stage] + rest;
        assert StageCalls(site, key, stage) == [call(i)];
      } else {
        assert L.Stages(m, operation, i) == rest;
      }
    }
  }

  function BootCalls(site: Site, key: string, found: seq<Binding>): (calls: seq<Call>)
    ensures |calls| == |found|
  {
    if found == [] then []
    else
      [BindingCall(site, key, found[0], "bootstrap", Position(site.manifest.integrations, found[0]), NO_INPUT, None)]
      + BootCalls(site, key, found[1..])
  }

  lemma BootstrapsFrom(site: Site, key: string, i: nat)
    requires i < |site.manifest.integrations|
    ensures var m := site.manifest;
            BootCalls(site, key, L.Bootstraps(m, m.integrations[i..]))
            == (if Boots(m, i) then [CallOf(site, key, "bootstrap", i)] else [])
               + BootCalls(site, key, L.Bootstraps(m, m.integrations[i + 1..]))
  {
    var m := site.manifest;
    var rest := L.Bootstraps(m, m.integrations[i + 1..]);
    assert m.integrations[i..][1..] == m.integrations[i + 1..];
    assert L.IsBootstrap(m, m.integrations[i]) <==> Boots(m, i);
    if Boots(m, i) {
      assert ([m.integrations[i]] + rest)[1..] == rest;
    } else {
      assert [] + rest == rest;
    }
  }

  /** The integrations that bootstrap are exactly those found, in their order. */
  lemma {:induction false} BootstrapsList(site: Site, key: string, i: nat)
    requires i <= |site.manifest.integrations|
    ensures ListsFrom(site, key, "bootstrap", i,
                      BootCalls(site, key, L.Bootstraps(site.manifest, site.manifest.integrations[i..])))
    decreases |site.manifest.integrations| - i
  {
    var passes, call := Taking(site.manifest, "bootstrap"), Calling(site, key, "bootstrap");
    if i == |site.manifest.integrations| {
      ListsNone(passes, call, i);
    } else {
      var rest := BootCalls(site, key, L.Bootstraps(site.manifest, site.manifest.integrations[i + 1..]));
      BootstrapsList(site, key, i + 1);
      BootstrapsFrom(site, key, i);
      ListsMore(passes, call, i, rest);
      assert [] + rest == rest;
    }
  }

  /** The bootstrap row, where it is not refused. */
  lemma BootstrapRow(site: Site, key: string)
    requires Stands(site.manifest)
    ensures ListsFrom(site, key, "bootstrap", 0, Calls(site, key, L.BootstrapStages(site.manifest)))
  {
    var m := site.manifest;
    var found := L.Bootstraps(m, m.integrations);
    BootstrapsList(site, key, 0);
    assert m.integrations[0..] == m.integrations;
    ListedOnce(Taking(m, "bootstrap"), Calling(site, key, "bootstrap"), BootCalls(site, key, found));
    if |found| == 1 {
      CallsOfOne(site, key, L.BootstrapStages(m)[0], []);
      assert BootCalls(site, key, found[1..]) == [];
    }
  }

  /* The plan */

  lemma {:induction false} NoneOfOthers(calls: seq<Call>, own: string, operation: string)
    requires forall i :: 0 <= i < |calls| ==> calls[i].identity.operation == own
    ensures OfOperation(calls, operation) == if own == operation then calls else []
  {
    if calls != [] {
      NoneOfOthers(calls[1..], own, operation);
      assert [calls[0]] + calls[1..] == calls;
    }
  }

  lemma OwnRow(site: Site, key: string, own: string, operation: string, calls: seq<Call>)
    requires ListsFrom(site, key, own, 0, calls)
    ensures OfOperation(calls, operation) == if own == operation then calls else []
  {
    forall n | 0 <= n < |calls| ensures calls[n].identity.operation == own {
      var i := ListedAt(Taking(site.manifest, own), Calling(site, key, own), calls, n);
      CallingIs(site, key, own, i);
    }
    NoneOfOthers(calls, own, operation);
  }

  lemma CallingIs(site: Site, key: string, operation: string, i: nat)
    ensures Calling(site, key, operation)(i).identity.operation == operation
  {
    if i < |site.manifest.integrations| {
      assert Calling(site, key, operation)(i) == CallOf(site, key, operation, i);
    } else {
      assert Calling(site, key, operation)(i) == StageCall(site, key, operation);
    }
  }

  lemma ListedAt(passes: nat -> bool, call: nat -> Call, calls: seq<Call>, n: nat) returns (i: nat)
    requires Lists(passes, call, 0, calls) && n < |calls|
    ensures calls[n] == call(i)
  {
    var places: seq<nat> :| PlacesFrom(passes, 0, places) && At(call, places, calls);
    i := places[n];
  }

  function CreateCalls(site: Site, key: string): seq<Call> {
    match site.manifest.provider
    case None => []
    case Some(binding) =>
      [BindingCall(site, key, binding, "create", Position(site.manifest.integrations, binding), NO_INPUT, None)]
  }

  function Row(site: Site, key: string, operation: string): seq<Call> {
    Calls(site, key, L.Stages(site.manifest, operation, 0))
  }

  function Boot(site: Site, key: string): seq<Call> {
    Calls(site, key, L.BootstrapStages(site.manifest))
  }

  function Shelled(site: Site, key: string): seq<Call> {
    [StageCall(site, key, "shell"), StageCall(site, key, "identity")]
  }

  lemma ApplyParts(site: Site, key: string)
    ensures Calls(site, key, L.ApplyStages(site.manifest))
         == Boot(site, key) + ([StageCall(site, key, "directory")]
            + (Row(site, key, "prepare") + (Shelled(site, key) + Row(site, key, "apply"))))
  {
    var m := site.manifest;
    var realizing := [L.Realize] + L.Stages(m, "apply", 0);
    var preparing := L.Stages(m, "prepare", 0) + realizing;
    CallsOfOne(site, key, L.Realize, L.Stages(m, "apply", 0));
    CallsAppend(site, key, L.Stages(m, "prepare", 0), realizing);
    CallsOfOne(site, key, L.Directory, preparing);
    CallsAppend(site, key, L.BootstrapStages(m), [L.Directory] + preparing);
  }

  lemma UpParts(site: Site, key: string)
    requires Stands(site.manifest)
    ensures UpCalls(site, key)
         == CreateCalls(site, key) + (Calls(site, key, L.ApplyStages(site.manifest)) + Row(site, key, "register"))
  {
    var m := site.manifest;
    var applying := L.ApplyStages(m) + L.Stages(m, "register", 0);
    CallsAppend(site, key, L.ApplyStages(m), L.Stages(m, "register", 0));
    CallsAppend(site, key, L.CreateStages(m), applying);
    assert L.GateStages(m) == [] && [] + (L.CreateStages(m) + applying) == L.CreateStages(m) + applying;
    if m.provider.Some? {
      CallsOfOne(site, key, L.CreateStages(m)[0], []);
    }
  }

  lemma OfFive(a: seq<Call>, b: seq<Call>, c: seq<Call>, d: seq<Call>, e: seq<Call>, operation: string)
    ensures OfOperation(a + (b + (c + (d + e))), operation)
         == OfOperation(a, operation) + (OfOperation(b, operation) + (OfOperation(c, operation)
            + (OfOperation(d, operation) + OfOperation(e, operation))))
  {
    OperationAppends(d, e, operation);
    OperationAppends(c, d + e, operation);
    OperationAppends(b, c + (d + e), operation);
    OperationAppends(a, b + (c + (d + e)), operation);
  }

  lemma CommandsOnly(site: Site, key: string, operation: string)
    ensures OfOperation([StageCall(site, key, "directory")], operation)
         == if operation == "directory" then [StageCall(site, key, "directory")] else []
    ensures OfOperation(Shelled(site, key), operation)
         == if operation == "shell" then [StageCall(site, key, "shell")]
            else if operation == "identity" then [StageCall(site, key, "identity")] else []
  {
    var shell, identity := [StageCall(site, key, "shell")], [StageCall(site, key, "identity")];
    NoneOfOthers([StageCall(site, key, "directory")], "directory", operation);
    NoneOfOthers(shell, "shell", operation);
    NoneOfOthers(identity, "identity", operation);
    OperationAppends(shell, identity, operation);
    assert Shelled(site, key) == shell + identity;
  }

  /** What one operation has in the plan: its own row, and nothing of any other. */
  lemma UpOfOperation(site: Site, key: string, operation: string)
    requires Stands(site.manifest)
    ensures OfOperation(UpCalls(site, key), operation)
         == OfOperation(CreateCalls(site, key), operation)
            + ((OfOperation(Boot(site, key), operation)
                + (OfOperation([StageCall(site, key, "directory")], operation)
                   + (OfOperation(Row(site, key, "prepare"), operation)
                      + (OfOperation(Shelled(site, key), operation)
                         + OfOperation(Row(site, key, "apply"), operation)))))
               + OfOperation(Row(site, key, "register"), operation))
  {
    UpParts(site, key);
    ApplyParts(site, key);
    var apply := Calls(site, key, L.ApplyStages(site.manifest));
    OperationAppends(CreateCalls(site, key), apply + Row(site, key, "register"), operation);
    OperationAppends(apply, Row(site, key, "register"), operation);
    OfFive(Boot(site, key), [StageCall(site, key, "directory")], Row(site, key, "prepare"), Shelled(site, key),
           Row(site, key, "apply"), operation);
  }

  lemma RowsAreOwn(site: Site, key: string, operation: string)
    requires Stands(site.manifest)
    ensures OfOperation(CreateCalls(site, key), operation)
         == if operation == "create" then CreateCalls(site, key) else []
    ensures OfOperation(Boot(site, key), operation) == if operation == "bootstrap" then Boot(site, key) else []
  {
    NoneOfOthers(CreateCalls(site, key), "create", operation);
    BootstrapRow(site, key);
    OwnRow(site, key, "bootstrap", operation, Boot(site, key));
  }

  lemma RowIsOwn(site: Site, key: string, own: string, operation: string)
    requires own != "bootstrap"
    ensures ListsFrom(site, key, own, 0, Row(site, key, own))
    ensures OfOperation(Row(site, key, own), operation) == if own == operation then Row(site, key, own) else []
  {
    RowLists(site, key, own, 0);
    OwnRow(site, key, own, operation, Row(site, key, own));
  }

  /** The operations by number, so that rows are told apart without comparing names. */
  function Place(operation: string): nat {
    if operation == "create" then 0
    else if operation == "bootstrap" then 1
    else if operation == "directory" then 2
    else if operation == "prepare" then 3
    else if operation == "shell" then 4
    else if operation == "identity" then 5
    else if operation == "apply" then 6
    else if operation == "register" then 7
    else 8
  }

  lemma PlacesOf()
    ensures Place("create") == 0 && Place("bootstrap") == 1 && Place("directory") == 2 && Place("prepare") == 3
    ensures Place("shell") == 4 && Place("identity") == 5 && Place("apply") == 6 && Place("register") == 7
  {
  }

  /** A row of the `k`th operation, asked for the `n`th. */
  function If(n: nat, k: nat, calls: seq<Call>): seq<Call> {
    if n == k then calls else []
  }

  /** Rows in the order of the lifecycle, asked for one operation: that one's is all there is. */
  lemma OnlyOwn(n: nat, a: seq<Call>, b: seq<Call>, c: seq<Call>, d: seq<Call>, e: seq<Call>, f: seq<Call>,
                g: seq<Call>, h: seq<Call>)
    ensures If(n, 0, a) + ((If(n, 1, b) + (If(n, 2, c) + (If(n, 3, d) + ((If(n, 4, e) + If(n, 5, f)) + If(n, 6, g)))))
                           + If(n, 7, h))
         == match n case 0 => a case 1 => b case 2 => c case 3 => d case 4 => e case 5 => f case 6 => g case 7 => h
                    case _ => []
  {
  }

  lemma UpOfOwn(site: Site, key: string, operation: string)
    requires Stands(site.manifest)
    ensures var n := Place(operation);
            OfOperation(UpCalls(site, key), operation)
            == If(n, 0, CreateCalls(site, key))
               + ((If(n, 1, Boot(site, key))
                   + (If(n, 2, [StageCall(site, key, "directory")])
                      + (If(n, 3, Row(site, key, "prepare"))
                         + ((If(n, 4, [StageCall(site, key, "shell")]) + If(n, 5, [StageCall(site, key, "identity")]))
                            + If(n, 6, Row(site, key, "apply"))))))
                  + If(n, 7, Row(site, key, "register")))
  {
    UpOfOperation(site, key, operation);
    CommandsByPlace(site, key, operation);
    RowsByPlace(site, key, operation);
  }

  lemma PlaceIs(operation: string)
    ensures Place(operation) == 0 <==> operation == "create"
    ensures Place(operation) == 1 <==> operation == "bootstrap"
    ensures Place(operation) == 2 <==> operation == "directory"
    ensures Place(operation) == 3 <==> operation == "prepare"
    ensures Place(operation) == 4 <==> operation == "shell"
    ensures Place(operation) == 5 <==> operation == "identity"
    ensures Place(operation) == 6 <==> operation == "apply"
    ensures Place(operation) == 7 <==> operation == "register"
  {
  }

  lemma CommandsByPlace(site: Site, key: string, operation: string)
    ensures var n := Place(operation);
            && OfOperation([StageCall(site, key, "directory")], operation)
               == If(n, 2, [StageCall(site, key, "directory")])
            && OfOperation(Shelled(site, key), operation)
               == If(n, 4, [StageCall(site, key, "shell")]) + If(n, 5, [StageCall(site, key, "identity")])
  {
    PlaceIs(operation);
    CommandsOnly(site, key, operation);
  }

  lemma RowsByPlace(site: Site, key: string, operation: string)
    requires Stands(site.manifest)
    ensures var n := Place(operation);
            && OfOperation(CreateCalls(site, key), operation) == If(n, 0, CreateCalls(site, key))
            && OfOperation(Boot(site, key), operation) == If(n, 1, Boot(site, key))
            && OfOperation(Row(site, key, "prepare"), operation) == If(n, 3, Row(site, key, "prepare"))
            && OfOperation(Row(site, key, "apply"), operation) == If(n, 6, Row(site, key, "apply"))
            && OfOperation(Row(site, key, "register"), operation) == If(n, 7, Row(site, key, "register"))
  {
    PlaceIs(operation);
    RowsAreOwn(site, key, operation);
    RowIsOwn(site, key, "prepare", operation);
    RowIsOwn(site, key, "apply", operation);
    RowIsOwn(site, key, "register", operation);
  }

  /** What the plan holds of one operation. */
  lemma UpRow(site: Site, key: string, operation: string)
    requires Stands(site.manifest)
    ensures OfOperation(UpCalls(site, key), operation)
         == match Place(operation)
            case 0 => CreateCalls(site, key)
            case 1 => Boot(site, key)
            case 2 => [StageCall(site, key, "directory")]
            case 3 => Row(site, key, "prepare")
            case 4 => [StageCall(site, key, "shell")]
            case 5 => [StageCall(site, key, "identity")]
            case 6 => Row(site, key, "apply")
            case 7 => Row(site, key, "register")
            case _ => []
  {
    UpOfOwn(site, key, operation);
    OnlyOwn(Place(operation), CreateCalls(site, key), Boot(site, key), [StageCall(site, key, "directory")],
            Row(site, key, "prepare"), [StageCall(site, key, "shell")], [StageCall(site, key, "identity")],
            Row(site, key, "apply"), Row(site, key, "register"));
  }

  /** Unless it is refused, `up` makes the directory once. */
  lemma DirectoryIsMade(site: Site, key: string)
    requires Stands(site.manifest)
    ensures OfOperation(UpCalls(site, key), "directory") == [StageCall(site, key, "directory")]
  {
    PlacesOf();
    UpRow(site, key, "directory");
  }

  /** It builds the shell once, and identifies it once. */
  lemma ShellIsBuilt(site: Site, key: string)
    requires Stands(site.manifest)
    ensures OfOperation(UpCalls(site, key), "shell") == [StageCall(site, key, "shell")]
    ensures OfOperation(UpCalls(site, key), "identity") == [StageCall(site, key, "identity")]
  {
    PlacesOf();
    UpRow(site, key, "shell");
    UpRow(site, key, "identity");
  }

  /** It creates once if there is a provider, and otherwise not at all. */
  lemma ProviderCreates(site: Site, key: string)
    requires Stands(site.manifest)
    ensures OfOperation(UpCalls(site, key), "create") == CreateCalls(site, key)
  {
    PlacesOf();
    UpRow(site, key, "create");
  }

  /** The integrations that bootstrap do. */
  lemma BootstrapsAreMade(site: Site, key: string)
    requires Stands(site.manifest)
    ensures ListsFrom(site, key, "bootstrap", 0, OfOperation(UpCalls(site, key), "bootstrap"))
  {
    PlacesOf();
    UpRow(site, key, "bootstrap");
    BootstrapRow(site, key);
  }

  /**
   * Exactly the integrations that take part prepare, apply and register, each once and in their order. With the order
   * of the operations (`UpCallsRanked`) this is the whole plan.
   */
  lemma IntegrationsTakePart(site: Site, key: string)
    requires Stands(site.manifest)
    ensures ListsFrom(site, key, "prepare", 0, OfOperation(UpCalls(site, key), "prepare"))
    ensures ListsFrom(site, key, "apply", 0, OfOperation(UpCalls(site, key), "apply"))
    ensures ListsFrom(site, key, "register", 0, OfOperation(UpCalls(site, key), "register"))
  {
    PlacesOf();
    UpRow(site, key, "prepare");
    UpRow(site, key, "apply");
    UpRow(site, key, "register");
    RowIsOwn(site, key, "prepare", "prepare");
    RowIsOwn(site, key, "apply", "apply");
    RowIsOwn(site, key, "register", "register");
  }

  /** There is nothing else in it. */
  lemma NothingElse(site: Site, key: string, call: Call)
    requires Stands(site.manifest) && call in UpCalls(site, key)
    ensures || call.identity.operation == "create" || call.identity.operation == "bootstrap"
            || call.identity.operation == "directory" || call.identity.operation == "prepare"
            || call.identity.operation == "shell" || call.identity.operation == "identity"
            || call.identity.operation == "apply" || call.identity.operation == "register"
  {
    UpRow(site, key, call.identity.operation);
    OperationIsMember(UpCalls(site, key), call.identity.operation, call);
  }

  /** The call of one integration under one operation, if it takes part. */
  lemma TakerIsPlanned(site: Site, key: string, operation: string, i: nat)
    requires Stands(site.manifest) && TakesPart(site.manifest, operation, i)
    requires operation == "bootstrap" || operation == "prepare" || operation == "apply" || operation == "register"
    ensures CallOf(site, key, operation, i) in UpCalls(site, key)
  {
    BootstrapsAreMade(site, key);
    IntegrationsTakePart(site, key);
    var row := OfOperation(UpCalls(site, key), operation);
    ListedIsTaken(Taking(site.manifest, operation), Calling(site, key, operation), row, i);
    OperationIsMember(UpCalls(site, key), operation, CallOf(site, key, operation, i));
  }
}
