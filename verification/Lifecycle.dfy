/** `create`, `apply` and `up`: the stages of one environment, and what an undisturbed run of them does. */
module Lifecycle {
  import opened Wrappers
  import opened Protocol
  import opened Text
  import opened Dispatch

  /** One stage as the controller runs it; `Abort` stands where it refuses to go on. */
  datatype Stage =
    | Integrate(binding: Binding, operation: string, index: nat)
    | Directory
    | Realize
    | Abort(error: Error)

  datatype Item = ExistingHost | Step(name: string, response: AdapterResponse)

  datatype Report = Report(ok: bool, status: Status, results: seq<Item>)

  type Reported = Result<Report, Error>

  /* The plan */

  /** The bindings of the environment from the `i`th on that support an operation, each as a stage. */
  function Stages(m: Manifest, operation: string, i: nat): seq<Stage>
    requires i <= |m.integrations|
    decreases |m.integrations| - i
  {
    if i == |m.integrations| then []
    else
      var binding := m.integrations[i];
      var index := if operation == "register" then i else Position(m.integrations, binding);
      (if m.Supports(binding.extension, operation) then [Integrate(binding, operation, index)] else [])
      + Stages(m, operation, i + 1)
  }

  predicate IsBootstrap(m: Manifest, binding: Binding) {
    m.Supports(binding.extension, "bootstrap") && m.extensions[binding.extension].place.OnController?
  }

  function Bootstraps(m: Manifest, bindings: seq<Binding>): (found: seq<Binding>) {
    if bindings == [] then []
    else (if IsBootstrap(m, bindings[0]) then [bindings[0]] else []) + Bootstraps(m, bindings[1..])
  }

  function CreateStages(m: Manifest): seq<Stage> {
    match m.provider
    case None => []
    case Some(binding) => [Integrate(binding, "create", Position(m.integrations, binding))]
  }

  function BootstrapStages(m: Manifest): seq<Stage> {
    var found := Bootstraps(m, m.integrations);
    if |found| == 0 then []
    else if |found| == 1 then [Integrate(found[0], "bootstrap", Position(m.integrations, found[0]))]
    else [Abort(MultipleBootstrap)]
  }

  predicate ConnectionIntegrated(m: Manifest) {
    m.connection.Some? && m.Supports(m.connection.value.extension, "register") ==> m.connection.value in m.integrations
  }

  function GateStages(m: Manifest): seq<Stage> {
    if ConnectionIntegrated(m) then [] else [Abort(ConnectionNotIntegrated)]
  }

  function ApplyStages(m: Manifest): seq<Stage> {
    BootstrapStages(m) + ([Directory] + (Stages(m, "prepare", 0) + ([Realize] + Stages(m, "apply", 0))))
  }

  function UpStages(m: Manifest): seq<Stage> {
    GateStages(m) + (CreateStages(m) + (ApplyStages(m) + Stages(m, "register", 0)))
  }

  /* What one stage does */

  /** A directory that had to be made counts as a change. */
  function Prepared(response: AdapterResponse): AdapterResponse {
    if response.Complete() && response.data.At("stdout") == String("changed") then response.(status := Changed)
    else response
  }

  function OutputText(response: AdapterResponse): Result<string, Error> {
    match response.data.At("stdout")
    case String(text) => Success(Trim(text))
    case _ => Failure(NoStdout)
  }

  function Profile(shell: AdapterResponse): Result<string, Error> {
    match OutputText(shell)
    case Failure(error) => Failure(error)
    case Success(text) =>
      if StartsWith(text, "/nix/store/") && '\n' !in text then Success(text) else Failure(InvalidProfile)
  }

  function Derivation(site: Site, identity: AdapterResponse): Result<string, Error> {
    match OutputText(identity)
    case Failure(error) => Failure(error)
    case Success(text) =>
      match site.parse(text)
      case None => Failure(InvalidEvaluation)
      case Some(value) =>
        match value.At("shell.drvPath")
        case String(path) => Success(path)
        case _ => Failure(InvalidEvaluation)
  }

  function AppliedState(profile: string, derivation: string): Json {
    Object(map["package_profile" := String(profile), "shell_derivation" := String(derivation)])
  }

  function RealizedResponse(shell: AdapterResponse, state: Json, changed: bool): AdapterResponse {
    shell.(status := if changed then Changed else Ready, data := state)
  }

  function Concluded(site: Site, w: World, shell: AdapterResponse, profile: string,
                     identity: AdapterResponse): (World, Reply)
  {
    match Derivation(site, identity)
    case Failure(error) => (w, Failure(error))
    case Success(derivation) =>
      var state := AppliedState(profile, derivation);
      (w.(applied := Some(state)), Success(RealizedResponse(shell, state, w.applied != Some(state))))
  }

  predicate Passes(reply: Reply) {
    reply.Success? && reply.value.Complete()
  }

  /** What follows a shell that was built. */
  function Identified(site: Site, w: World, key: Option<string>, shell: AdapterResponse): (World, Reply) {
    match Profile(shell)
    case Failure(error) => (w, Failure(error))
    case Success(profile) =>
      var (identified, identity) := Commanded(site, w, key, "identity");
      if !Passes(identity) then (identified, identity)
      else Concluded(site, identified, shell, profile, identity.value)
  }

  function Realized(site: Site, w: World, key: Option<string>): (World, Reply) {
    var (shelled, shell) := Commanded(site, w, key, "shell");
    if Passes(shell) then Identified(site, shelled, key, shell.value) else (shelled, shell)
  }

  function PreparedReply(reply: Reply): Reply {
    if reply.Success? then Success(Prepared(reply.value)) else reply
  }

  function Performed(site: Site, w: World, key: Option<string>, stage: Stage): (World, Reply) {
    match stage
    case Integrate(binding, operation, index) => Called(site, w, key, binding, operation, index, NO_INPUT, None)
    case Directory =>
      var (prepared, reply) := Commanded(site, w, key, "directory");
      (prepared, PreparedReply(reply))
    case Realize => Realized(site, w, key)
    case Abort(error) => (w, Failure(error))
  }

  /* What a row of stages does, whatever one stage does */

  type Perform = (World, Stage) -> (World, Reply)

  function Performing(site: Site, key: Option<string>): Perform {
    (w: World, stage: Stage) => Performed(site, w, key, stage)
  }

  datatype Stop = Finished | Incomplete | Broken(error: Error)

  datatype Walked = Walked(world: World, answers: seq<AdapterResponse>, stop: Stop)

  /** Stages one after the other, up to the first that is not complete. */
  function Walk(perform: Perform, w: World, stages: seq<Stage>): (r: Walked)
    ensures |r.answers| <= |stages|
    decreases |stages|
  {
    if stages == [] then Walked(w, [], Finished)
    else
      var (after, reply) := perform(w, stages[0]);
      if reply.Failure? then Walked(after, [], Broken(reply.error))
      else if !reply.value.Complete() then Walked(after, [reply.value], Incomplete)
      else
        var rest := Walk(perform, after, stages[1..]);
        rest.(answers := [reply.value] + rest.answers)
  }

  function Label(stage: Stage): string {
    match stage
    case Integrate(binding, _, _) => binding.extension
    case Directory => "directory"
    case Realize => "devenv"
    case Abort(_) => ""
  }

  function Shown(stages: seq<Stage>, answers: seq<AdapterResponse>): (items: seq<Item>)
    requires |answers| <= |stages|
    ensures |items| == |answers|
    ensures forall i :: 0 <= i < |answers| ==> items[i] == Step(Label(stages[i]), answers[i])
  {
    if answers == [] then [] else [Step(Label(stages[0]), answers[0])] + Shown(stages[1..], answers[1..])
  }

  predicate SomeStatus(results: seq<Item>, status: Status) {
    exists i :: 0 <= i < |results| && results[i].Step? && results[i].response.status == status
  }

  function Aggregate(results: seq<Item>): Report {
    var status :=
      if SomeStatus(results, Failed) then Failed
      else if SomeStatus(results, Unsupported) then Unsupported
      else if SomeStatus(results, Pending) then Pending
      else if SomeStatus(results, Changed) then Changed
      else Ready;
    Report(status.Ready? || status.Changed?, status, results)
  }

  /** The report is ok exactly when every answer in it is complete. */
  lemma AggregateOk(results: seq<Item>)
    ensures Aggregate(results).ok <==> forall i :: 0 <= i < |results| && results[i].Step? ==>
              results[i].response.Complete()
  {
    if !Aggregate(results).ok {
      var i :| 0 <= i < |results| && results[i].Step? && !results[i].response.Complete();
    }
    forall i | Aggregate(results).ok && 0 <= i < |results| && results[i].Step?
      ensures results[i].response.Complete()
    {
      assert !SomeStatus(results, Failed) && !SomeStatus(results, Unsupported) && !SomeStatus(results, Pending);
    }
  }

  /** Every answer but the last is complete, and the last one too if the walk finished. */
  lemma {:induction false} WalkAnswers(perform: Perform, w: World, stages: seq<Stage>)
    ensures var r := Walk(perform, w, stages);
            && (r.stop.Finished? ==> |r.answers| == |stages|)
            && (r.stop.Incomplete? ==> r.answers != [] && !r.answers[|r.answers| - 1].Complete())
            && forall i :: 0 <= i < |r.answers| && (r.stop.Incomplete? ==> i < |r.answers| - 1) ==>
              r.answers[i].Complete()
    decreases |stages|
  {
    if stages != [] {
      WalkAnswers(perform, perform(w, stages[0]).0, stages[1..]);
    }
  }

  lemma {:induction false} ShownAppends(a: seq<Stage>, b: seq<Stage>, x: seq<AdapterResponse>, y: seq<AdapterResponse>)
    requires |x| <= |a| && |x + y| <= |a + b| && (y == [] || (|x| == |a| && |y| <= |b|))
    ensures Shown(a + b, x + y) == Shown(a, x) + if y == [] then [] else Shown(b, y)
  {
  }

  /** Walking two rows is walking the first and, if that finished, the second from where it ended. */
  lemma {:induction false} WalkAppends(perform: Perform, w: World, a: seq<Stage>, b: seq<Stage>)
    ensures var first := Walk(perform, w, a);
            Walk(perform, w, a + b)
            == if !first.stop.Finished? then first
               else var second := Walk(perform, first.world, b); second.(answers := first.answers + second.answers)
    decreases |a|
  {
    if a == [] {
      assert a + b == b;
    } else {
      assert (a + b)[1..] == a[1..] + b;
      WalkAppends(perform, perform(w, a[0]).0, a[1..], b);
    }
  }

  /** From here, with these items reported, the rest of the stages ends as the whole would have. */
  ghost predicate Follows(perform: Perform, w: World, stages: seq<Stage>, items: seq<Item>,
                          now: World, left: seq<Stage>, reported: seq<Item>)
  {
    var whole, rest := Walk(perform, w, stages), Walk(perform, now, left);
    && whole.world == rest.world && whole.stop == rest.stop
    && items + Shown(stages, whole.answers) == reported + Shown(left, rest.answers)
  }

  lemma AppendAssociates(a: seq<Item>, b: seq<Item>, c: seq<Item>)
    ensures a + (b + c) == (a + b) + c
  {
  }

  /** One complete stage is passed. */
  lemma FollowsStage(perform: Perform, w: World, stage: Stage, rest: seq<Stage>, items: seq<Item>)
    requires Passes(perform(w, stage).1)
    ensures var (now, reply) := perform(w, stage);
            Follows(perform, w, [stage] + rest, items, now, rest, items + [Step(Label(stage), reply.value)])
  {
    var (now, reply) := perform(w, stage);
    assert ([stage] + rest)[1..] == rest;
    var answers := Walk(perform, now, rest).answers;
    assert ([reply.value] + answers)[1..] == answers;
    AppendAssociates(items, [Step(Label(stage), reply.value)], Shown(rest, answers));
  }

  /** A finished row is passed. */
  lemma FollowsRow(perform: Perform, w: World, a: seq<Stage>, b: seq<Stage>, items: seq<Item>)
    requires Walk(perform, w, a).stop.Finished?
    ensures var first := Walk(perform, w, a);
            Follows(perform, w, a + b, items, first.world, b, items + Shown(a, first.answers))
  {
    var first := Walk(perform, w, a);
    var second := Walk(perform, first.world, b);
    WalkAppends(perform, w, a, b);
    WalkAnswers(perform, w, a);
    ShownAppends(a, b, first.answers, second.answers);
    AppendAssociates(items, Shown(a, first.answers), Shown(b, second.answers));
  }

  /** What a method reports of the stages it walked. */
  function Told(stages: seq<Stage>, walked: Walked, items: seq<Item>): Reported
    requires |walked.answers| <= |stages|
  {
    if walked.stop.Broken? then Failure(walked.stop.error)
    else Success(Aggregate(items + Shown(stages, walked.answers)))
  }

  ghost predicate Reports(perform: Perform, w: World, stages: seq<Stage>, items: seq<Item>, now: World, r: Reported) {
    var walked := Walk(perform, w, stages);
    now == walked.world && r == Told(stages, walked, items)
  }

  /** What a helper that appends to the results leaves: the items, and whether every stage was complete. */
  ghost predicate Appends(perform: Perform, w: World, stages: seq<Stage>, items: seq<Item>,
                          now: World, shown: seq<Item>, r: Result<bool, Error>)
  {
    var walked := Walk(perform, w, stages);
    && now == walked.world
    && (if walked.stop.Broken? then r == Failure(walked.stop.error)
        else r == Success(walked.stop.Finished?) && shown == items + Shown(stages, walked.answers))
  }

  lemma FollowsStart(perform: Perform, w: World, stages: seq<Stage>, items: seq<Item>)
    ensures Follows(perform, w, stages, items, w, stages, items)
  {
  }

  lemma FollowsOn(perform: Perform, w: World, stages: seq<Stage>, items: seq<Item>,
                  now: World, stage: Stage, rest: seq<Stage>, shown: seq<Item>)
    requires Follows(perform, w, stages, items, now, [stage] + rest, shown) && Passes(perform(now, stage).1)
    ensures Follows(perform, w, stages, items, perform(now, stage).0, rest,
                    shown + [Step(Label(stage), perform(now, stage).1.value)])
  {
    FollowsStage(perform, now, stage, rest, shown);
  }

  lemma FollowsPast(perform: Perform, w: World, stages: seq<Stage>, items: seq<Item>,
                    now: World, a: seq<Stage>, b: seq<Stage>, shown: seq<Item>)
    requires Follows(perform, w, stages, items, now, a + b, shown) && Walk(perform, now, a).stop.Finished?
    ensures Follows(perform, w, stages, items, Walk(perform, now, a).world, b,
                    shown + Shown(a, Walk(perform, now, a).answers))
  {
    FollowsRow(perform, now, a, b, shown);
  }

  /** A stage that is not complete ends the walk. */
  lemma StageEnds(perform: Perform, w: World, stages: seq<Stage>, items: seq<Item>,
                  now: World, stage: Stage, rest: seq<Stage>, shown: seq<Item>)
    requires Follows(perform, w, stages, items, now, [stage] + rest, shown) && !Passes(perform(now, stage).1)
    ensures var (after, reply) := perform(now, stage);
            var walked := Walk(perform, w, stages);
            && walked.world == after
            && walked.stop == (if reply.Failure? then Broken(reply.error) else Incomplete)
            && (reply.Success? ==> items + Shown(stages, walked.answers) == shown + [Step(Label(stage), reply.value)])
  {
    assert ([stage] + rest)[0] == stage;
    var (after, reply) := perform(now, stage);
    if reply.Success? {
      assert Shown([stage] + rest, [reply.value]) == [Step(Label(stage), reply.value)];
    }
  }

  /** A row that does not finish ends the walk. */
  lemma RowEnds(perform: Perform, w: World, stages: seq<Stage>, items: seq<Item>,
                now: World, a: seq<Stage>, b: seq<Stage>, shown: seq<Item>)
    requires Follows(perform, w, stages, items, now, a + b, shown) && !Walk(perform, now, a).stop.Finished?
    ensures var walked, row := Walk(perform, w, stages), Walk(perform, now, a);
            && walked.world == row.world && walked.stop == row.stop
            && items + Shown(stages, walked.answers) == shown + Shown(a, row.answers)
  {
    WalkAppends(perform, now, a, b);
    var answers := Walk(perform, now, a).answers;
    assert answers + [] == answers;
    ShownAppends(a, b, answers, []);
    assert Shown(a, answers) + [] == Shown(a, answers);
  }

  /** With nothing left, the whole has finished. */
  lemma FollowsEnd(perform: Perform, w: World, stages: seq<Stage>, items: seq<Item>, now: World, shown: seq<Item>)
    requires Follows(perform, w, stages, items, now, [], shown)
    ensures var walked := Walk(perform, w, stages);
            walked.world == now && walked.stop.Finished? && items + Shown(stages, walked.answers) == shown
  {
    assert shown + [] == shown;
  }

  /** Whatever the stage answered, the items so far are those of the walk, which goes on or ends here. */
  ghost predicate Goes(perform: Perform, w: World, stages: seq<Stage>, items: seq<Item>,
                       now: World, rest: seq<Stage>, shown: seq<Item>, reply: Reply)
  {
    && (Passes(reply) ==> Follows(perform, w, stages, items, now, rest, shown))
    && (reply.Failure? ==> Appends(perform, w, stages, items, now, shown, Failure(reply.error)))
    && (reply.Success? && !Passes(reply) ==> Appends(perform, w, stages, items, now, shown, Success(false)))
  }

  function WithItem(shown: seq<Item>, name: string, reply: Reply): seq<Item> {
    if reply.Success? then shown + [Step(name, reply.value)] else shown
  }

  lemma OneStage(perform: Perform, w: World, stages: seq<Stage>, items: seq<Item>,
                 before: World, stage: Stage, rest: seq<Stage>, shown: seq<Item>, now: World, reply: Reply)
    requires Follows(perform, w, stages, items, before, [stage] + rest, shown)
    requires perform(before, stage) == (now, reply)
    ensures Goes(perform, w, stages, items, now, rest, WithItem(shown, Label(stage), reply), reply)
  {
    if Passes(reply) {
      FollowsOn(perform, w, stages, items, before, stage, rest, shown);
    } else {
      StageEnds(perform, w, stages, items, before, stage, rest, shown);
    }
  }

  lemma LastStage(perform: Perform, w: World, stages: seq<Stage>, items: seq<Item>, now: World, shown: seq<Item>)
    requires Follows(perform, w, stages, items, now, [], shown)
    ensures Appends(perform, w, stages, items, now, shown, Success(true))
  {
    FollowsEnd(perform, w, stages, items, now, shown);
  }

  function AsAppended(walked: Walked, error: Option<Error>): Result<bool, Error> {
    if error.Some? then Failure(error.value) else Success(walked.stop.Finished?)
  }

  lemma OneRow(perform: Perform, w: World, stages: seq<Stage>, items: seq<Item>,
               before: World, row: seq<Stage>, rest: seq<Stage>, shown: seq<Item>,
               now: World, longer: seq<Item>, r: Result<bool, Error>)
    requires Follows(perform, w, stages, items, before, row + rest, shown)
    requires Appends(perform, before, row, shown, now, longer, r)
    ensures r == Success(true) ==> Follows(perform, w, stages, items, now, rest, longer)
    ensures r != Success(true) ==> Appends(perform, w, stages, items, now, longer, r)
  {
    if r == Success(true) {
      FollowsPast(perform, w, stages, items, before, row, rest, shown);
    } else {
      RowEnds(perform, w, stages, items, before, row, rest, shown);
    }
  }

  /** The report is ok exactly when its stages all finished. */
  lemma ReportOk(perform: Perform, w: World, stages: seq<Stage>, items: seq<Item>)
    requires forall i :: 0 <= i < |items| ==> items[i].ExistingHost?
    requires !Walk(perform, w, stages).stop.Broken?
    ensures var walked := Walk(perform, w, stages);
            Aggregate(items + Shown(stages, walked.answers)).ok <==> walked.stop.Finished?
  {
    var walked := Walk(perform, w, stages);
    var shown := Shown(stages, walked.answers);
    WalkAnswers(perform, w, stages);
    AggregateOk(items + shown);
    if walked.stop.Incomplete? {
      var last := |items| + |walked.answers| - 1;
      assert (items + shown)[last] == shown[|walked.answers| - 1];
    }
  }

  /** A report's results go behind what is there; `opening` is what the report itself starts with. */
  lemma OneReport(perform: Perform, w: World, stages: seq<Stage>, items: seq<Item>,
                  before: World, row: seq<Stage>, rest: seq<Stage>, base: seq<Item>, opening: seq<Item>,
                  now: World, r: Reported)
    requires Follows(perform, w, stages, items, before, row + rest, base + opening)
    requires Reports(perform, before, row, opening, now, r)
    requires forall i :: 0 <= i < |opening| ==> opening[i].ExistingHost?
    ensures r.Failure? ==> Appends(perform, w, stages, items, now, base, Failure(r.error))
    ensures r.Success? && r.value.ok ==> Follows(perform, w, stages, items, now, rest, base + r.value.results)
    ensures r.Success? && !r.value.ok ==>
              Appends(perform, w, stages, items, now, base + r.value.results, Success(false))
  {
    var walked := Walk(perform, before, row);
    AppendAssociates(base, opening, Shown(row, walked.answers));
    if r.Success? {
      ReportOk(perform, before, row, opening);
    }
    if walked.stop.Finished? {
      FollowsPast(perform, w, stages, items, before, row, rest, base + opening);
    } else {
      RowEnds(perform, w, stages, items, before, row, rest, base + opening);
    }
  }

  lemma AppendedReports(perform: Perform, w: World, stages: seq<Stage>, items: seq<Item>, now: World, shown: seq<Item>,
                        r: Result<bool, Error>)
    requires Appends(perform, w, stages, items, now, shown, r)
    ensures Reports(perform, w, stages, items, now, if r.Failure? then Failure(r.error) else Success(Aggregate(shown)))
  {
  }

  lemma AbortEnds(perform: Perform, w: World, error: Error, rest: seq<Stage>, items: seq<Item>)
    requires perform(w, Abort(error)) == (w, Failure(error))
    ensures Reports(perform, w, [Abort(error)] + rest, items, w, Failure(error))
  {
    assert ([Abort(error)] + rest)[0] == Abort(error);
  }

  lemma SingleStage(perform: Perform, w: World, stage: Stage, now: World, reply: Reply)
    requires perform(w, stage) == (now, reply)
    ensures Reports(perform, w, [stage], [], now,
                    if reply.Failure? then Failure(reply.error)
                    else Success(Aggregate([Step(Label(stage), reply.value)])))
  {
    FollowsStart(perform, w, [stage] + [], []);
    OneStage(perform, w, [stage] + [], [], w, stage, [], [], now, reply);
    assert [stage] + [] == [stage];
    if reply.Success? {
      assert [] + [Step(Label(stage), reply.value)] == [Step(Label(stage), reply.value)];
    }
    if Passes(reply) {
      LastStage(perform, w, [stage], [], now, [] + [Step(Label(stage), reply.value)]);
    }
  }

  /* The methods */

  method PerformBinding(controller: Controller, key: Option<string>, binding: Binding, operation: string,
                        ghost perform: Perform)
    returns (r: Reply)
    requires controller.Valid() && perform == Performing(controller.site, key)
    modifies controller, controller.receipts
    ensures controller.Valid()
    ensures (controller.Now(), r)
         == perform(old(controller.Now()),
                    Integrate(binding, operation, Position(controller.site.manifest.integrations, binding)))
  {
    r := controller.SetupBinding(key, binding, operation);
  }

  lemma SkipsUnsupported(m: Manifest, operation: string, i: nat)
    requires i < |m.integrations| && !m.Supports(m.integrations[i].extension, operation)
    ensures Stages(m, operation, i) == Stages(m, operation, i + 1)
  {
  }

  method Create(controller: Controller, key: Option<string>) returns (r: Reported)
    requires controller.Valid()
    modifies controller, controller.receipts
    ensures controller.Valid()
    ensures Reports(Performing(controller.site, key), old(controller.Now()), CreateStages(controller.site.manifest),
                    Preamble(controller.site.manifest), controller.Now(), r)
  {
    ghost var perform, w := Performing(controller.site, key), controller.Now();
    var m := controller.site.manifest;
    if m.provider.None? {
      assert [ExistingHost] + [] == [ExistingHost];
      return Success(Report(true, Ready, [ExistingHost]));
    }
    var response := PerformBinding(controller, key, m.provider.value, "create", perform);
    SingleStage(perform, w, CreateStages(m)[0], controller.Now(), response);
    if response.Failure? {
      return Failure(response.error);
    }
    r := Success(Aggregate([Step(m.provider.value.extension, response.value)]));
  }

  function Preamble(m: Manifest): seq<Item> {
    if m.provider.None? then [ExistingHost] else []
  }

  method ApplyBootstrap(controller: Controller, key: Option<string>, results: seq<Item>)
    returns (items: seq<Item>, r: Result<bool, Error>)
    requires controller.Valid()
    modifies controller, controller.receipts
    ensures controller.Valid()
    ensures Appends(Performing(controller.site, key), old(controller.Now()), BootstrapStages(controller.site.manifest),
                    results, controller.Now(), items, r)
  {
    ghost var perform, w := Performing(controller.site, key), controller.Now();
    var m := controller.site.manifest;
    var found := Bootstraps(m, m.integrations);
    items := results;
    if |found| > 1 {
      AbortEnds(perform, w, MultipleBootstrap, [], results);
      assert [Abort(MultipleBootstrap)] + [] == BootstrapStages(m);
      return items, Failure(MultipleBootstrap);
    }
    if |found| == 0 {
      FollowsStart(perform, w, [], results);
      LastStage(perform, w, [], results, w, results);
      return items, Success(true);
    }
    var response := PerformBinding(controller, key, found[0], "bootstrap", perform);
    ghost var stage := BootstrapStages(m)[0];
    FollowsStart(perform, w, [stage] + [], results);
    OneStage(perform, w, [stage] + [], results, w, stage, [], results, controller.Now(), response);
    assert [stage] + [] == BootstrapStages(m);
    if response.Failure? {
      return items, Failure(response.error);
    }
    items := items + [Step(found[0].extension, response.value)];
    if response.value.Complete() {
      LastStage(perform, w, BootstrapStages(m), results, controller.Now(), items);
    }
    r := Success(response.value.Complete());
  }

  method PrepareDirectory(controller: Controller, key: Option<string>, ghost perform: Perform) returns (r: Reply)
    requires controller.Valid() && perform == Performing(controller.site, key)
    modifies controller, controller.receipts
    ensures controller.Valid() && (controller.Now(), r) == perform(old(controller.Now()), Directory)
  {
    r := controller.TargetCommand(key, "directory");
    if r.Success? && r.value.Complete() && r.value.data.At("stdout") == String("changed") {
      r := Success(r.value.(status := Changed));
    }
  }

  /** Build the shell, check its profile, read its derivation, and record both as applied. */
  method RealizeEnvironment(controller: Controller, key: Option<string>, ghost perform: Perform) returns (r: Reply)
    requires controller.Valid() && perform == Performing(controller.site, key)
    modifies controller, controller.receipts
    ensures controller.Valid() && (controller.Now(), r) == perform(old(controller.Now()), Realize)
  {
    ghost var w := controller.Now();
    var shell := controller.TargetCommand(key, "shell");
    if !Passes(shell) {
      return shell;
    }
    var profile := Profile(shell.value);
    if profile.Failure? {
      return Failure(profile.error);
    }
    ghost var shelled := controller.Now();
    var identity := controller.TargetCommand(key, "identity");
    if !Passes(identity) {
      return identity;
    }
    var derivation := Derivation(controller.site, identity.value);
    if derivation.Failure? {
      return Failure(derivation.error);
    }
    ghost var identified := controller.Now();
    var state := AppliedState(profile.value, derivation.value);
    var changed := controller.applied != Some(state);
    controller.applied := Some(state);
    r := Success(RealizedResponse(shell.value, state, changed));
    assert (controller.Now(), r) == Concluded(controller.site, identified, shell.value, profile.value, identity.value);
  }

  method ApplyPrepareIntegrations(controller: Controller, key: Option<string>, results: seq<Item>)
    returns (items: seq<Item>, r: Result<bool, Error>)
    requires controller.Valid()
    modifies controller, controller.receipts
    ensures controller.Valid()
    ensures Appends(Performing(controller.site, key), old(controller.Now()),
                    Stages(controller.site.manifest, "prepare", 0),
                    results, controller.Now(), items, r)
  {
    ghost var perform, w := Performing(controller.site, key), controller.Now();
    var m := controller.site.manifest;
    items := results;
    for i := 0 to |m.integrations|
      invariant controller.Valid()
      invariant Follows(perform, w, Stages(m, "prepare", 0), results, controller.Now(), Stages(m, "prepare", i), items)
    {
      var binding := m.integrations[i];
      if !m.Supports(binding.extension, "prepare") {
        SkipsUnsupported(m, "prepare", i);
        continue;
      }
      ghost var before, shown := controller.Now(), items;
      ghost var stage := Integrate(binding, "prepare", Position(m.integrations, binding));
      var response := PerformBinding(controller, key, binding, "prepare", perform);
      OneStage(perform, w, Stages(m, "prepare", 0), results, before, stage, Stages(m, "prepare", i + 1), shown,
               controller.Now(), response);
      if response.Failure? {
        return items, Failure(response.error);
      }
      items := items + [Step(binding.extension, response.value)];
      if !response.value.Complete() {
        return items, Success(false);
      }
    }
    LastStage(perform, w, Stages(m, "prepare", 0), results, controller.Now(), items);
    r := Success(true);
  }

  method ApplyIntegrations(controller: Controller, key: Option<string>, results: seq<Item>)
    returns (items: seq<Item>, error: Option<Error>)
    requires controller.Valid()
    modifies controller, controller.receipts
    ensures controller.Valid()
    ensures Appends(Performing(controller.site, key), old(controller.Now()),
                    Stages(controller.site.manifest, "apply", 0),
                    results, controller.Now(), items,
                    AsAppended(Walk(Performing(controller.site, key), old(controller.Now()),
                                    Stages(controller.site.manifest, "apply", 0)), error))
  {
    ghost var perform, w := Performing(controller.site, key), controller.Now();
    var m := controller.site.manifest;
    items := results;
    for i := 0 to |m.integrations|
      invariant controller.Valid()
      invariant Follows(perform, w, Stages(m, "apply", 0), results, controller.Now(), Stages(m, "apply", i), items)
    {
      var binding := m.integrations[i];
      if !m.Supports(binding.extension, "apply") {
        SkipsUnsupported(m, "apply", i);
        continue;
      }
      ghost var before, shown := controller.Now(), items;
      ghost var stage := Integrate(binding, "apply", Position(m.integrations, binding));
      var response := PerformBinding(controller, key, binding, "apply", perform);
      OneStage(perform, w, Stages(m, "apply", 0), results, before, stage, Stages(m, "apply", i + 1), shown,
               controller.Now(), response);
      if response.Failure? {
        return items, Some(response.error);
      }
      items := items + [Step(binding.extension, response.value)];
      if !response.value.Complete() {
        return items, None;
      }
    }
    LastStage(perform, w, Stages(m, "apply", 0), results, controller.Now(), items);
    error := None;
  }

  method RegisterIntegrations(controller: Controller, key: Option<string>, results: seq<Item>)
    returns (items: seq<Item>, error: Option<Error>)
    requires controller.Valid()
    modifies controller, controller.receipts
    ensures controller.Valid()
    ensures Appends(Performing(controller.site, key), old(controller.Now()),
                    Stages(controller.site.manifest, "register", 0),
                    results, controller.Now(), items,
                    AsAppended(Walk(Performing(controller.site, key), old(controller.Now()),
                                    Stages(controller.site.manifest, "register", 0)), error))
  {
    ghost var perform, w := Performing(controller.site, key), controller.Now();
    var m := controller.site.manifest;
    items := results;
    for i := 0 to |m.integrations|
      invariant controller.Valid()
      invariant Follows(perform, w, Stages(m, "register", 0), results, controller.Now(), Stages(m, "register", i),
                        items)
    {
      var binding := m.integrations[i];
      if !m.Supports(binding.extension, "register") {
        SkipsUnsupported(m, "register", i);
        continue;
      }
      ghost var before, shown := controller.Now(), items;
      ghost var stage := Integrate(binding, "register", i);
      var response := controller.CallBinding(key, binding, "register", i, NO_INPUT, None);
      assert perform(before, stage) == (controller.Now(), response);
      OneStage(perform, w, Stages(m, "register", 0), results, before, stage, Stages(m, "register", i + 1), shown,
               controller.Now(), response);
      if response.Failure? {
        return items, Some(response.error);
      }
      items := items + [Step(binding.extension, response.value)];
      if !response.value.Complete() {
        return items, None;
      }
    }
    LastStage(perform, w, Stages(m, "register", 0), results, controller.Now(), items);
    error := None;
  }

  method Apply(controller: Controller, key: Option<string>) returns (r: Reported)
    requires controller.Valid()
    modifies controller, controller.receipts
    ensures controller.Valid()
    ensures Reports(Performing(controller.site, key), old(controller.Now()), ApplyStages(controller.site.manifest),
                    [], controller.Now(), r)
  {
    ghost var perform, w := Performing(controller.site, key), controller.Now();
    var m := controller.site.manifest;
    ghost var plan := ApplyStages(m);
    ghost var realizing := [Realize] + Stages(m, "apply", 0);
    ghost var preparing := Stages(m, "prepare", 0) + realizing;
    FollowsStart(perform, w, plan, []);
    var results, booted := ApplyBootstrap(controller, key, []);
    OneRow(perform, w, plan, [], w, BootstrapStages(m), [Directory] + preparing, [], controller.Now(), results, booted);
    if booted != Success(true) {
      AppendedReports(perform, w, plan, [], controller.Now(), results, booted);
      return if booted.Failure? then Failure(booted.error) else Success(Aggregate(results));
    }
    ghost var before, shown := controller.Now(), results;
    var prepared := PrepareDirectory(controller, key, perform);
    OneStage(perform, w, plan, [], before, Directory, preparing, shown, controller.Now(), prepared);
    if prepared.Failure? {
      return Failure(prepared.error);
    }
    results := results + [Step("directory", prepared.value)];
    if !prepared.value.Complete() {
      return Success(Aggregate(results));
    }
    before, shown := controller.Now(), results;
    var ready;
    results, ready := ApplyPrepareIntegrations(controller, key, results);
    OneRow(perform, w, plan, [], before, Stages(m, "prepare", 0), realizing, shown, controller.Now(), results, ready);
    if ready != Success(true) {
      AppendedReports(perform, w, plan, [], controller.Now(), results, ready);
      return if ready.Failure? then Failure(ready.error) else Success(Aggregate(results));
    }
    r := ApplyRealized(controller, key, perform, w, plan, results);
  }

  /** The second half of `Apply`: realize the shell, then the integrations. */
  method ApplyRealized(controller: Controller, key: Option<string>, ghost perform: Perform, ghost w: World,
                       ghost plan: seq<Stage>, results: seq<Item>) returns (r: Reported)
    requires controller.Valid() && perform == Performing(controller.site, key)
    requires Follows(perform, w, plan, [], controller.Now(),
                     [Realize] + Stages(controller.site.manifest, "apply", 0), results)
    modifies controller, controller.receipts
    ensures controller.Valid() && Reports(perform, w, plan, [], controller.Now(), r)
  {
    var m := controller.site.manifest;
    ghost var before := controller.Now();
    var realized := RealizeEnvironment(controller, key, perform);
    OneStage(perform, w, plan, [], before, Realize, Stages(m, "apply", 0), results, controller.Now(), realized);
    if realized.Failure? {
      return Failure(realized.error);
    }
    var shown := results + [Step("devenv", realized.value)];
    if !realized.value.Complete() {
      return Success(Aggregate(shown));
    }
    before := controller.Now();
    ghost var row := Stages(m, "apply", 0);
    assert row + [] == row;
    var items, error := ApplyIntegrations(controller, key, shown);
    ghost var ended := AsAppended(Walk(perform, before, row), error);
    OneRow(perform, w, plan, [], before, row, [], shown, controller.Now(), items, ended);
    if ended == Success(true) {
      LastStage(perform, w, plan, [], controller.Now(), items);
    }
    AppendedReports(perform, w, plan, [], controller.Now(), items, ended);
    r := if error.Some? then Failure(error.value) else Success(Aggregate(items));
  }

  method Up(controller: Controller, key: Option<string>) returns (r: Reported)
    requires controller.Valid()
    modifies controller, controller.receipts
    ensures controller.Valid()
    ensures Reports(Performing(controller.site, key), old(controller.Now()), UpStages(controller.site.manifest),
                    Preamble(controller.site.manifest), controller.Now(), r)
  {
    ghost var perform, w := Performing(controller.site, key), controller.Now();
    var m := controller.site.manifest;
    ghost var plan, opening, row := UpStages(m), Preamble(m), Stages(m, "register", 0);
    ghost var applying := ApplyStages(m) + row;
    if !ConnectionIntegrated(m) {
      AbortEnds(perform, w, ConnectionNotIntegrated, CreateStages(m) + applying, opening);
      return Failure(ConnectionNotIntegrated);
    }
    assert plan == CreateStages(m) + applying;
    FollowsStart(perform, w, plan, opening);
    var created := Create(controller, key);
    assert [] + opening == opening;
    OneReport(perform, w, plan, opening, w, CreateStages(m), applying, [], opening, controller.Now(), created);
    if created.Failure? {
      return Failure(created.error);
    }
    var results := [] + created.value.results;
    if !created.value.ok {
      AppendedReports(perform, w, plan, opening, controller.Now(), results, Success(false));
      return Success(Aggregate(results));
    }
    r := UpCreated(controller, key, perform, w, plan, opening, results);
  }

  /** The second half of `Up`: apply, then register. */
  method UpCreated(controller: Controller, key: Option<string>, ghost perform: Perform, ghost w: World,
                   ghost plan: seq<Stage>, ghost opening: seq<Item>, created: seq<Item>) returns (r: Reported)
    requires controller.Valid() && perform == Performing(controller.site, key)
    requires Follows(perform, w, plan, opening, controller.Now(),
                     ApplyStages(controller.site.manifest) + Stages(controller.site.manifest, "register", 0), created)
    modifies controller, controller.receipts
    ensures controller.Valid() && Reports(perform, w, plan, opening, controller.Now(), r)
  {
    var m := controller.site.manifest;
    ghost var before, row := controller.Now(), Stages(m, "register", 0);
    var applied := Apply(controller, key);
    assert created + [] == created;
    OneReport(perform, w, plan, opening, before, ApplyStages(m), row, created, [], controller.Now(), applied);
    if applied.Failure? {
      return Failure(applied.error);
    }
    var results := created + applied.value.results;
    if !applied.value.ok {
      AppendedReports(perform, w, plan, opening, controller.Now(), results, Success(false));
      return Success(Aggregate(results));
    }
    before := controller.Now();
    assert row + [] == row;
    var items, error := RegisterIntegrations(controller, key, results);
    ghost var ended := AsAppended(Walk(perform, before, row), error);
    OneRow(perform, w, plan, opening, before, row, [], results, controller.Now(), items, ended);
    if ended == Success(true) {
      LastStage(perform, w, plan, opening, controller.Now(), items);
    }
    AppendedReports(perform, w, plan, opening, controller.Now(), items, ended);
    r := if error.Some? then Failure(error.value) else Success(Aggregate(items));
  }
}
