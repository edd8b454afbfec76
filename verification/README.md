# workenv: a model of its receipts, lifecycle, providers, walks and printers

workenv drives development environments through adapters that cannot be trusted to answer once and only once. The
repository keeps a receipt per request so that a retry never does a thing twice, chains such requests into `up` and
`destroy`, and has its providers keep receipts of their own. This project models those parts in Dafny and proves what
they guarantee over every input, every retry, every crash point and every interleaving.

The model takes the form of the code. What updates state in place is a class with methods (`ReceiptStore`,
`Controller`, `PriorReceipts`, `Provider`, `Destroyer`, `Session`, `CycleDetector`); loops are methods with invariants;
what is made of expressions is functions. Protocols that may crash between two steps, or run many callers at once, are
state machines over their steps, and the methods are tied to them: an undisturbed call of a method is one run of the
machine, with the same files, the same launches and the same answer.

| files | what they model |
|---|---|
| `Protocol`, `Execution`, `Wrappers` | requests, responses and their JSON form |
| `Receipts`, `ReceiptProtocol`, `LaunchHistory` | the receipt store, and any number of callers of it with crashes and failing writes |
| `UpProtocol` | any number of `up` runs on top of the receipt protocol |
| `Dispatch`, `Lifecycle`, `LifecycleRetries`, `RequestIds`, `LifecycleProtocol`, `LifecycleSimulation` | the controller's `create`, `apply` and `up`, their retries, their order, and their place in the protocol |
| `PlanContents`, `UpResults` | which calls the plan of `up` holds, and what a finished or refused `up` leaves and reports |
| `Selection`, `OrderedNames`, `Teardown`, `TeardownSafety` | choosing receipts, `destroy`, and the cleanups |
| `CleanupTurns`, `CreateThenDestroy` | what a `destroy` must do and report, and that it acts on what the create answered |
| `Resume`, `ResumeRuns`, `TargetHops` | launch, observe or resend; the pending transport hop; retries as the store makes them; the first hop from the target command to its answer |
| `KeyedExecutor` | the executor's idempotency keys |
| `ExedevCreate`, `ExedevDestroy`, `ExedevKeys`, `ExedevStore`, `ExedevRuns`, `ExedevLeaks` | the exe.dev provider's phases, the keys of its mutations, what reaches exe.dev through store and executor, and what the provider's answers come to in the receipt store and in `destroy` |
| `OrchardCreate`, `OrchardAnswers`, `OrchardLeaks` | the Orchard time budget, what a create answers, and creates that end too soon |
| `OrchardExecute`, `GuestAnswers`, `GuestCommands` | the guarded retry of guest commands, in one call and over all retries of a hop, and what they are reported as |
| `StuckCreates` | what a create that is pending for good does to its retries and to `destroy` |
| `Cycles`, `SymlinkWalk` | the depth-first cycle search and the symlink walk |
| `Text`, `Base64`, `ShellQuoting`, `ShellScript`, `SshArgv`, `WrapperScripts`, `ResultLine`, `NixString` | printers and the readers that undo them |
| `ScriptRuns` | the files and the format of the wrapper scripts: what one run of them prints |

## What turned out false

Where the code does less than it says, the code is kept, a lemma shows an input, and the exact condition is proved.

- An Orchard create may answer later than 280 s, and a probe may start that ends after 270 s: the clock counts whole
  seconds. That happens if and only if a probe starts after 250 s and before 251 s, runs past 270 s, and neither it nor
  one before it finds the marker. Every time from 280 s up to 281 s is reached (`OrchardCreate.CreateAnswersInTime`,
  `LateIff`, `BoundIsTight`).
- A create that answers `pending` cannot be finished by a retry, against docs/operate.md:33. Neither provider names an
  execution in its answer, so the store refuses every further call under that key, and `destroy`, while that create is
  the newest owned one, reports its answer for ever without acting. This takes an exe.dev VM that is still booting when the budget ends, against
  adapters/exedev/src/provider/calls.rs:75-79 (`ExedevLeaks.SlowVmIsStuck`), and an Orchard guest whose setup outlasts
  it, against adapters/orchard/src/provider/ready.rs:82 (`OrchardLeaks.PendingGuestIsStuck`). A create can be tried
  again exactly if the VM showed a difference (`ExedevLeaks.CreatedIsRetriedIff`), or the Orchard create failed
  (`OrchardLeaks.RetriedIff`).
- An exe.dev VM that shows a difference right after its `new` can be torn down if and only if the first retry sees it as
  asked for. After any other retry the complete create receipt disclaims it, and `destroy` answers that nothing is owned
  (`ExedevLeaks.DriftingVmIsTornDownIff`).
- An exe.dev create whose `new` is refused because the name was just taken claims the VM that took it, as the claim
  follows from what is seen alone, and its destroy removes that VM (`ExedevLeaks.RefusedNewRemovesAnothersVm`,
  `ExedevCreate.ClaimIgnoresRefusal`).
- An exe.dev destroy refused because the VM is another one hands back that VM's identity, and a retry then removes it
  (`ExedevDestroy.RetriedRefusalRemovesForeignVm`, `RemovesOwnVmIff`).
- `destroy` asks that the resource id be a string, not that it name anything: an owned create with an empty id is sent
  to the provider (`TeardownSafety.NamelessResourceIsDestroyed`, `OpenGateIsSent`); `GateIsBacked` says exactly when the id is not empty.
- The exe.dev wrapper prints its own `cannot change directory` unencoded, so the reader drops the message and keeps the
  status (`ResultLine.ChdirMessageIsDropped`).

An exe.dev create is made at most once, although the provider may ask for its `new` twice with no VM ever seen, over an
answer `failed` that the store holds (`ExedevRuns.NewIsAskedForTwice`). Both calls go to the executor under one key, as
the provider's receipt fixes the machine asked for and the store's fingerprint the setup script, so the second is
answered from the first's process: exe.dev gets at most one `new` per request id in every run
(`ExedevStore.NewReachesExedevOnce`). The provider's own receipt would not be enough, since it does not cover the setup
script, and a script that comes or goes changes the key (`ExedevKeys.NewsShareKeyIff`).

Two more laws hold only under a condition, which the program itself always meets. A request whose `previous` is an
explicit `null` is not given back by its JSON form (`Protocol.RequestRoundTrip`, `Resume.PackUnpack`), but new transport
requests have none and reading never yields one (`Resume.ReadRequestsHaveNoNull`). A text with a raw carriage return
does not survive as a Nix string (`NixString.JsonNixRoundTrip`), but the texts printed are serialised JSON, which
escapes it.

## Model

| member | source | states |
|---|---|---|
| Protocol.ResponseRoundTrip | crates/workenv-protocol/src/adapter.rs:71-105 | every response survives its JSON form, with unknown fields refused and absent optional ones read as nothing |
| Protocol.RequestRoundTrip | crates/workenv-protocol/src/adapter.rs:31-50 | a request survives its JSON form if and only if its `previous` is not an explicit null |
| Protocol.RequestDecodes | crates/workenv-protocol/src/adapter.rs:31-50 | what a request reads back as in every case |
| Protocol.TargetRoundTrip | crates/workenv-protocol/src/adapter.rs:10-27 | every target survives its JSON form |
| Receipts.InvokeCarriesRecord | crates/workenv-core/src/receipts.rs:142-164 | a call goes ahead only over no receipt or an unfinished answer under its own fingerprint, and is handed that very answer |
| Receipts.ReceiptStore.ApplyLocked | crates/workenv-core/src/receipts.rs:131-177 | the whole effect of one call, whatever its adapter answers and however its lock, its read and its two writes fail: files, write times, launches and answer |
| Receipts.ReceiptStore.WriteRecord | crates/workenv-platform/src/json_store.rs:27-41 | one receipt is replaced and stamped, or left, and a failure may be reported either way; every other stays |
| ReceiptProtocol.StepKeepsInv | crates/workenv-core/src/receipts.rs:54-71 | every step of every caller, crashes and failed writes included, keeps the invariant that ties locks, markers and launches |
| ReceiptProtocol.RunKeepsInv | crates/workenv-core/src/receipts.rs:54-71 | so does every run |
| ReceiptProtocol.AtMostOneBlindLaunch | crates/workenv-core/src/receipts.rs:145-163 | in any run the adapter is called with nothing to go on at most once per request id |
| ReceiptProtocol.CompleteIsReplayedForever | crates/workenv-core/src/receipts.rs:246-253 | once Ready or Changed is recorded it stays, the adapter is never called for that id again, and every later call with the fingerprint gets that response |
| ReceiptProtocol.NothingRecordedIsLost | crates/workenv-core/src/receipts.rs:158-164 | a recorded response is never lost, the fingerprint never changes, and failed or crashed retries leave the response as it was |
| ReceiptProtocol.MismatchNeitherWritesNorLaunches | crates/workenv-core/src/receipts.rs:179-189 | a call under another fingerprint only ever reads and is refused |
| ReceiptProtocol.DeadEndIsRefusedForever | crates/workenv-core/src/receipts.rs:255-269 | a marker without a response, and a pending answer without an execution, refuse every later call in every run and are never written over |
| ReceiptProtocol.EveryResponseCameFromTheAdapter | crates/workenv-core/src/receipts.rs:165-176 | no response on record, and none returned, was made up |
| ReceiptProtocol.SoloCall | crates/workenv-core/src/receipts.rs:131-177 | a call of the store that nobody crashes, whatever its disk does, is a run of the protocol that ends with the same files and answer and frees its lock |
| ReceiptProtocol.StepKeepsLock | crates/workenv-platform/src/json_store.rs:43-57 | a lock is always held by a live caller of that very request id |
| LaunchHistory.LaunchesAreFounded | crates/workenv-core/src/receipts.rs:142-165 | in every run the first launch of a request id goes by nothing, and every later one by an answer given before it, incomplete and, if pending, with an execution |
| LaunchHistory.KindIsHandedOn | crates/workenv-core/src/receipts.rs:158-164 | while the adapter answers in kind, what is on record and what every later call is handed stays of that kind, over any callers, crashes and lost writes |
| UpProtocol.StagesLaunchInOrder | crates/workenv-core/src/environment_lifecycle.rs:9-22 | over any retries, crashes and concurrent runs, stages of a plan are launched in plan order only |
| UpProtocol.StageStartsOnlyWhenDue | crates/workenv-core/src/environment.rs:56-77 | when a stage is launched every earlier one is complete on record and it is not |
| UpProtocol.CompletedStageIsNeverRelaunched | crates/workenv-core/src/environment_lifecycle.rs:9-22 | no later run launches a complete stage again |
| UpProtocol.LaunchesAreOfThePlan | crates/workenv-core/src/dispatch.rs:89-106 | what is launched under a request id of the plan is a call of the plan |
| UpProtocol.UpStepKeepsInv | crates/workenv-core/src/environment_lifecycle.rs:9-22 | every step of every run keeps what the order rests on |
| UpProtocol.Projects | crates/workenv-core/src/receipts.rs:54-71 | whatever the runs do, the receipts see a run of their own protocol |
| Dispatch.Controller.InvokeSaved | crates/workenv-core/src/dispatch.rs:89-106 | a recorded answer takes the place of the caller's previous one, and the receipts, their times and the adapter calls move as the store moves them, whatever its disk does |
| Dispatch.Controller.CallBinding | crates/workenv-core/src/dispatch.rs:62-87 | unknown operations and missing keys are refused untouched; mutations take a receipt, observations none |
| Dispatch.BlankKeysAreRefused | crates/workenv-core/src/dispatch.rs:146-149 | a mutation key must hold more than white space |
| Dispatch.NoKeyNoMutation | crates/workenv-core/src/dispatch.rs:62-87 | without one no mutation is made and nothing is touched, whatever is on record |
| Dispatch.Controller.SetupBinding | crates/workenv-core/src/environment.rs:181-206 | the index in the request id is that of the first equal binding, or 0 |
| Dispatch.Controller.TargetCommand | crates/workenv-core/src/target.rs:26-44 | a recorded target command takes a receipt under its stage |
| Dispatch.Position | crates/workenv-core/src/environment.rs:188-196 | the first equal binding, with none equal before it |
| Lifecycle.Create | crates/workenv-core/src/environment.rs:29-41 | the create stage, or the existing host reported as ready |
| Lifecycle.ApplyBootstrap | crates/workenv-core/src/environment.rs:208-234 | none, one or the refusal of several bootstrap bindings |
| Lifecycle.PrepareDirectory | crates/workenv-core/src/devenv.rs:11-37 | a directory that had to be made is reported as changed |
| Lifecycle.ApplyPrepareIntegrations | crates/workenv-core/src/environment.rs:236-255 | the walk over the prepare stages up to the first that is not complete, with its items behind the earlier ones |
| Lifecycle.RealizeEnvironment | crates/workenv-core/src/devenv.rs:39-79 | shell, profile gate, identity, derivation gate, and changed exactly if the applied state differs |
| Lifecycle.ApplyIntegrations | crates/workenv-core/src/environment.rs:268-287 | the walk over the apply stages |
| Lifecycle.RegisterIntegrations | crates/workenv-core/src/environment_lifecycle.rs:41-83 | the walk over the register stages, each under its own index |
| Lifecycle.Apply | crates/workenv-core/src/environment.rs:56-77 | apply is the walk over its stages and reports exactly their answers |
| Lifecycle.Up | crates/workenv-core/src/environment_lifecycle.rs:9-22 | up is the walk over the whole plan, for every adapter and every receipt directory |
| Lifecycle.WalkAppends | crates/workenv-core/src/environment_lifecycle.rs:9-22 | walking two rows is walking the first and, only if it finished, the second from where it ended |
| Lifecycle.WalkAnswers | crates/workenv-core/src/environment_lifecycle.rs:31-39 | only the last answer of a walk can be incomplete |
| Lifecycle.AggregateOk | crates/workenv-core/src/outcome.rs:8-19 | a report is ok if and only if every answer in it is complete |
| Lifecycle.ReportOk | crates/workenv-core/src/environment_lifecycle.rs:31-39 | a stage report is ok if and only if its walk finished, which is what lets `up` go on |
| LifecycleRetries.UpIsOkIffFinished | crates/workenv-core/src/environment_lifecycle.rs:9-22 | the report of up is ok if and only if the whole plan was complete |
| LifecycleRetries.RetryResumes | crates/workenv-core/src/environment_lifecycle.rs:9-22 | a retry ends as a walk of what the first attempt left, without any adapter call or write before that |
| LifecycleRetries.UpAgainDoesNothing | crates/workenv-core/src/environment_lifecycle.rs:9-22 | after a finished up, up again finishes and changes nothing at all |
| LifecycleRetries.WalkSettles | crates/workenv-core/src/environment.rs:56-77 | every stage a walk passed is complete on record when it ends, however it ends |
| LifecycleRetries.StagesStaySettled | crates/workenv-core/src/devenv.rs:39-79 | no stage undoes another one's record |
| LifecycleRetries.PassedStageIsSettled | crates/workenv-core/src/devenv.rs:39-79 | a stage that passed has its receipts and, for realize, its applied state on record |
| LifecycleProtocol.UpCallsRanked | crates/workenv-core/src/environment.rs:56-77 | for every manifest the plan is create, bootstrap, directory, prepare, shell, identity, apply, register |
| PlanContents.DirectoryIsMade | crates/workenv-core/src/environment.rs:62-66 | unless it is refused, `up` makes the directory exactly once |
| PlanContents.ShellIsBuilt | crates/workenv-core/src/devenv.rs:39-79 | and builds and identifies the shell exactly once |
| PlanContents.ProviderCreates | crates/workenv-core/src/environment.rs:29-41 | and creates once if there is a provider and not otherwise |
| PlanContents.BootstrapsAreMade | crates/workenv-core/src/environment.rs:208-234 | and bootstraps exactly the integration that supports it on the controller |
| PlanContents.IntegrationsTakePart | crates/workenv-core/src/environment.rs:236-287 | and prepares, applies and registers exactly the integrations that support it, each once, in their order and under its own index |
| PlanContents.NothingElse | crates/workenv-core/src/environment_lifecycle.rs:9-22 | and does nothing else |
| UpResults.CameThroughStands | crates/workenv-core/src/environment.rs:208-234 | an `up` that is ok was not refused |
| UpResults.FinishedUpIsComplete | crates/workenv-core/src/environment_lifecycle.rs:9-22 | after an ok `up` every call of the plan is complete on record |
| UpResults.FinishedUpIsWhole | crates/workenv-core/src/environment.rs:56-77 | that is the directory, the shell, its identity and the create |
| UpResults.FinishedUpIntegrates | crates/workenv-core/src/environment.rs:236-287 | and every integration that takes part in a stage, whose recorded answer is in the report |
| UpResults.FinishedUpShowsDirectory | crates/workenv-core/src/devenv.rs:11-37 | an ok report shows the directory, as changed exactly if its command says so |
| UpResults.FinishedUpShowsShell | crates/workenv-core/src/devenv.rs:39-79 | and the shell with the state that is then applied |
| UpResults.FinishedUpShowsHost | crates/workenv-core/src/environment.rs:29-41 | and the existing host, in front, if and only if there is no provider |
| UpResults.UnintegratedIsRefused | crates/workenv-core/src/environment_lifecycle.rs:9-22 | a connection to be registered that is no integration refuses `up` before anything is called |
| UpResults.TwoBootstrapsAreRefused | crates/workenv-core/src/environment.rs:208-234 | two bootstraps refuse it once the provider created, and nothing else is called |
| UpResults.RealizedIsApplied | crates/workenv-core/src/devenv.rs:39-79 | realizing passes only with a store path and a derivation on record, which become the applied state; the answer is changed if and only if they were not that before |
| UpResults.UnrealizedIsNotApplied | crates/workenv-core/src/devenv.rs:39-79 | what does not pass leaves the applied state alone |
| UpResults.StatusIsWorst | crates/workenv-core/src/outcome.rs:8-19 | a report has the worst status of its answers |
| LifecycleProtocol.LaunchesFollowTheLifecycle | crates/workenv-core/src/environment_lifecycle.rs:9-22 | over any retries, crashes and concurrent runs, adapters are launched in that order |
| RequestIds.RequestIdNamesOneCall | crates/workenv-core/src/dispatch.rs:151-162 | two stages of one plan with the same request id are the same call, whatever the manifest repeats |
| RequestIds.BindingRequestIdNamesOne | crates/workenv-core/src/dispatch.rs:151-162 | a request id gives back its operation, index and extension |
| RequestIds.CallsAreSpelled | crates/workenv-core/src/dispatch.rs:151-172 | how request ids of both kinds are spelled, and whose receipts they are |
| RequestIds.BindingIdIsNoStageKey | crates/workenv-core/src/devenv.rs:129-131 | no binding's request id is that of a devenv stage |
| LifecycleSimulation.SavedIsARun | crates/workenv-core/src/dispatch.rs:89-106 | one mutation of the controller is one stage call of a protocol run: same receipts, same launch, same move |
| LifecycleSimulation.RealizeIsARun | crates/workenv-core/src/devenv.rs:39-79 | realize is two stage calls with a gate after each |
| LifecycleSimulation.WalkIsARun | crates/workenv-core/src/environment.rs:56-77 | a walk is a run that stands behind all its calls if it finished and has ended if not |
| LifecycleSimulation.UpIsARun | crates/workenv-core/src/environment_lifecycle.rs:9-22 | from any quiet state the method `up` is a run of the protocol with the same receipts and launches |
| LifecycleSimulation.UpsAreARun | crates/workenv-core/src/environment_lifecycle.rs:9-22 | any number of calls of `up`, each ending as it may, is one run of the protocol from the empty store |
| LifecycleSimulation.UpsInvokeInOrder | crates/workenv-core/src/environment_lifecycle.rs:9-22 | over any number of calls of `up` from the empty store, adapters are called in the order of the lifecycle |
| Selection.ReceiptPathsNewestFirst | crates/workenv-core/src/receipts_selection.rs:142-153 | exactly the receipts of the directory, newest first, ties in listing order; a directory that cannot be listed, or a receipt without a write time, fails the whole |
| Selection.LatestOwnedMatchingRecord | crates/workenv-core/src/receipts_selection.rs:67-84 | the walk answers with the newest owned match, or fails on an unreadable receipt before it or an unreadable directory |
| Selection.LatestMatchingRecord | crates/workenv-core/src/receipts_selection.rs:29-51 | the same for the newest answered match |
| Selection.LatestRecordedResponseBetween | crates/workenv-core/src/receipts_selection.rs:111-140 | the newest match inside the window, an error if it has no outcome |
| Selection.NewestIsNewest | crates/workenv-core/src/receipts_selection.rs:142-153 | the specification: nothing asked for is newer, and nothing equally new is listed before |
| Selection.WalkFindsNewest | crates/workenv-core/src/receipts_selection.rs:142-153 | the first match of the sorted listing is the newest match of the unsorted one |
| Selection.OwnedSelection | crates/workenv-core/src/receipts_selection.rs:67-84 | when the owned selection finds nothing, which receipt it finds, and when it fails, for every directory |
| Selection.AnsweredSelection | crates/workenv-core/src/receipts_selection.rs:29-51 | the same for answered receipts: none, the newest, or the unreadable one before it |
| Selection.OnlyReceiptsNeedTimes | crates/workenv-core/src/receipts_selection.rs:142-153 | a receipt without a write time fails the directory, anything else without one never matters |
| Selection.CurrentReceiptIff | crates/workenv-core/src/receipts_selection.rs:86-97 | a receipt is gone by if and only if it has the current fingerprint and was answered |
| Selection.UnownedReceiptsNeverMatter | crates/workenv-core/src/receipts_selection.rs:53-84 | adding or removing any unowned or outcomeless receipts anywhere never changes the answer |
| Selection.OthersNeverMatter | crates/workenv-core/src/receipts_selection.rs:29-51 | the same for any question asked of the directory |
| Teardown.CreatedProviderResource | crates/workenv-core/src/environment.rs:136-152 | the owned create under the current fingerprint, and only without one the latest answered create |
| Teardown.DestroyProviderResource | crates/workenv-core/src/environment.rs:154-179 | the provider is told the create's data, and the answer is read back from that request's own receipt |
| Teardown.Destroy | crates/workenv-core/src/environment.rs:95-134 | the whole new state and report, for every adapter and directory |
| Teardown.TearDown | crates/workenv-core/src/environment.rs:119-133 | the half behind the gate |
| Teardown.CleanupIntegrations | crates/workenv-core/src/environment_cleanup.rs:19-47 | every cleanup in order, incomplete answers not stopping it, nothing at all if bindings repeat |
| Teardown.RejectDuplicateCleanupBindings | crates/workenv-core/src/environment_cleanup.rs:49-67 | refuses if and only if two cleanup bindings share an extension |
| Teardown.CleanupOne | crates/workenv-core/src/environment_cleanup.rs:28-45 | one cleanup: its two refusals, what it is told, and its call |
| Teardown.CollectPrior | crates/workenv-core/src/environment_cleanup.rs:98-111 | the collected receipts are those of each setup operation in turn |
| Teardown.PriorReceipts.Push | crates/workenv-core/src/environment_cleanup.rs:113-129 | keeps all entries, the newest of them (the first of equally new ones) and apply's data |
| Teardown.Latest | crates/workenv-core/src/environment_cleanup.rs:121-125 | none is newer, and all before it are older |
| OrderedNames.OrderedAscends | crates/workenv-core/src/environment_cleanup.rs:137-144 | setup operations come in ascending name order, each once |
| TeardownSafety.GateIsBacked | crates/workenv-core/src/environment.rs:95-118 | destroy acts only for an ephemeral environment, on a complete create receipt with the current fingerprint that claims ownership; its id is not empty if and only if some receipt is owned, and then it is the newest of those |
| TeardownSafety.OwnedReceiptOpensGate | crates/workenv-core/src/environment.rs:136-152 | conversely an owned create opens the gate, whatever later creates failed or answered |
| TeardownSafety.UnownedCreateIsNotTornDown | crates/workenv-core/src/environment.rs:116-118 | where the only create on record claims nothing, destroy refuses and touches nothing |
| TeardownSafety.OnlyCreateDecides | crates/workenv-core/src/environment.rs:107-118 | where there is one create on record the gate opens if and only if it is complete and claims a resource |
| TeardownSafety.NamelessResourceIsDestroyed | crates/workenv-core/src/environment.rs:116-118 | counterexample: a create receipt with an empty resource id opens the gate, with nothing left between it and the provider |
| TeardownSafety.OpenGateIsSent | crates/workenv-core/src/environment.rs:119-133 | conversely a create that opens the gate and has no destroy on record is sent to the provider, before anything else |
| TeardownSafety.SafeTeardown | crates/workenv-core/src/environment.rs:95-134 | every adapter call of a destroy is the provider's destroy behind an open gate, or a cleanup after that destroy is complete on record, told what was on record at its turn |
| CreateThenDestroy.CreateOpensGate | crates/workenv-core/src/environment.rs:95-118 | after a create the gate of `destroy` opens if and only if it was complete and claims a resource, and on that very answer |
| CreateThenDestroy.CreateReachesDestroy | crates/workenv-core/src/environment.rs:154-179 | the provider's destroy is handed exactly what its create answered |
| CleanupTurns.FreshDestroyAnswers | crates/workenv-core/src/environment.rs:154-179 | a destroy that is not on record is answered by the provider, and that answer is the one gone by |
| CleanupTurns.DestroyGoesByItsReceipt | crates/workenv-core/src/receipts.rs:104-118 | the receipt read back is this request's, of this operation, under this fingerprint, and answered |
| CleanupTurns.IncompleteDestroyEnds | crates/workenv-core/src/environment.rs:119-133 | an incomplete destroy is all there is to report, and no cleanup is called |
| CleanupTurns.EveryCleanupIsCalled | crates/workenv-core/src/environment_cleanup.rs:28-45 | after a complete destroy every integration whose cleanup is allowed, readable and not on record is called at its turn, whatever earlier ones answered, and its answer stands at its place in the report or is what `destroy` fails with |
| CleanupTurns.TurnsInOrder | crates/workenv-core/src/environment_cleanup.rs:28-45 | the turns come in the order of the integrations |
| CleanupTurns.AllAreReported | crates/workenv-core/src/environment.rs:119-133 | where none fails, the report is the provider's answer and one item for every cleanup |
| CleanupTurns.FirstFailureStops | crates/workenv-core/src/environment_cleanup.rs:28-45 | the first that fails is the answer, and nothing is called after it |
| CleanupTurns.DuplicateStops | crates/workenv-core/src/environment_cleanup.rs:49-67 | an integration bound twice to a cleanup fails a `destroy` after the provider's, before any cleanup |
| CleanupTurns.OthersAreRefused | crates/workenv-core/src/environment_cleanup.rs:69-113 | a cleanup that leaves no receipt, runs on the target, or whose receipts cannot be read is refused without a call |
| CleanupTurns.ToldIffOnRecord | crates/workenv-core/src/environment_cleanup.rs:99-169 | a cleanup is told of a receipt if and only if it is the newest of a setup operation of its integration between create and destroy |
| CleanupTurns.ToldReceipts | crates/workenv-core/src/environment_cleanup.rs:99-169 | it is told the create, the destroy and each of those, every one under its own name and operation |
| CleanupTurns.ToldLatest | crates/workenv-core/src/environment_cleanup.rs:99-169 | and what was last applied and last done |
| CleanupTurns.ToldPrevious | crates/workenv-core/src/environment_cleanup.rs:99-169 | and goes on from the last of them |
| TeardownSafety.CleanedInvokes | crates/workenv-core/src/environment_cleanup.rs:28-45 | every call the cleanups make is one integration's cleanup in the world its turn began with |
| TeardownSafety.PriorReceiptIsNewest | crates/workenv-core/src/environment_cleanup.rs:147-159 | exactly which receipt of the window is told, when none is, and when it fails |
| TeardownSafety.PriorsAreNewest | crates/workenv-core/src/environment_cleanup.rs:98-111 | a cleanup is told of an operation if and only if it is a setup operation whose newest receipt between create and destroy is that one |
| TeardownSafety.PriorsFailIff | crates/workenv-core/src/environment_cleanup.rs:98-111 | it fails if and only if some setup operation's newest receipt in the window has no outcome |
| Resume.PackUnpack | crates/workenv-core/src/adapter_transport.rs:33-80 | unpacking a packed hop gives back request and output if and only if the request's previous is not an explicit null |
| Resume.AnswerIsTheTargetsOwn | crates/workenv-core/src/adapter_transport.rs:57-98 | every accepted answer carries the target's own request id |
| Resume.OnlyOwnExecutionIsResumed | crates/workenv-core/src/adapter_response.rs:97-113 | an execution is taken up again if and only if it is a pending adapter execution of this very request |
| Resume.ForeignHopIsRefused | crates/workenv-core/src/adapter_transport.rs:33-55 | a hop packed for another request is refused |
| TargetHops.NewHopCarries | crates/workenv-core/src/adapter_transport.rs:10-31 | field by field, a new hop is launched as `execute` of the transport for the same target, with the target command as its input and an id that a nonce tells apart exactly if anything is on record |
| TargetHops.NoCommandIsSent | crates/workenv-core/src/adapter.rs:244-250 | without a target command nothing is sent |
| TargetHops.ProcessAnswersIff | crates/workenv-core/src/adapter_response.rs:10-40 | a finished adapter process answers if and only if it exits with 0 and says an answer of this request that its contract accepts; an unfinished one is pending under its execution |
| TargetHops.AnswerComesBack | crates/workenv-core/src/adapter_transport.rs:57-98 | a finished transport with exit code 0 gives back exactly the target's own answer, its execution filled in only where it was missing |
| TargetHops.OnlyDeliveredComesBack | crates/workenv-core/src/adapter_transport.rs:57-98 | and nothing else is taken for one |
| TargetHops.CommandEntersShell | crates/workenv-core/src/adapter_target.rs:8-48 | the target command enters the target's devenv shell with its source and all its profiles in order, and runs the adapter |
| TargetHops.PlanReads | adapters/orchard/src/provider/execute.rs:97-129 | the guest's plan goes by the fields of its input, with a default for what is missing |
| TargetHops.CommandReachesGuest | crates/workenv-core/src/adapter.rs:244-250 | from the core to the guest's shell: exactly the target command, word by word, in the target's directory, with the request as its input |
| Resume.PendingIsOnlyObserved | crates/workenv-core/src/adapter.rs:219-230 | over any retries a recorded pending execution is only observed, each time the one last seen running, until an answer is accepted; failed looks and refused answers do not change that |
| Resume.OneExecutionIsObserved | crates/workenv-core/src/adapter.rs:219-230 | when looks report under their own execution, all of them are at the one first recorded |
| Resume.HopIsOnlyObserved | crates/workenv-core/src/adapter.rs:162-166 | the same through a transport: its own pending process is only observed, under the request first sent, until it gives an answer that both contracts accept |
| Resume.FirstLeftRunningIsObserved | crates/workenv-core/src/adapter.rs:151-172 | a new hop whose process is left running is observed by every retry: nothing is launched twice |
| ResumeRuns.RecordIsKept | crates/workenv-core/src/receipts.rs:158-176 | what a retry is handed next is what the store keeps: the new answer, or the one before when the attempt or a write failed |
| ResumeRuns.PendingIsOnlyObservedInEveryRun | crates/workenv-core/src/adapter.rs:219-230 | in every run of the store, with any callers, crashes and lost writes, a recorded pending execution is only observed until an answer is accepted |
| ResumeRuns.HopIsResentInEveryRun | crates/workenv-core/src/adapter.rs:162-166 | while a hop stays on record, every call in every run of the store goes out with the identical transport request |
| ResumeRuns.HopIsOnlyObservedInEveryRun | crates/workenv-core/src/adapter.rs:162-166 | the same through the transport, under the request on record |
| Resume.RelaunchKeyIsNew | crates/workenv-core/src/adapter.rs:232-242 | a launch goes out under the request id if and only if nothing is recorded |
| Resume.FirstSentIsResent | crates/workenv-core/src/adapter.rs:151-172 | what a new hop sent, after nothing or after an answer that is no hop, is what it records and what every retry resends |
| Resume.ResendsAreIdentical | crates/workenv-core/src/adapter.rs:162-166 | while the hop stays on record every resend carries the identical request, whatever fails in between |
| Resume.ReadRequestsHaveNoNull | crates/workenv-protocol/src/adapter.rs:31-50 | no request that was read holds an explicit null |
| Resume.ReadHopPacksBack | crates/workenv-core/src/adapter_transport.rs:33-80 | a hop that was read, packed again, reads as the same hop, without any condition |
| Resume.ResendKeepsTransport | crates/workenv-core/src/adapter_transport.rs:57-98 | one retry that leaves the hop on record leaves the same hop, with the transport's newest pending answer |
| ExedevCreate.Provider.CreateLocked | adapters/exedev/src/provider.rs:72-115 | an undisturbed create is a run of the phase machine and issues `new` if and only if unblocked, missing and within capacity |
| ExedevCreate.Provider.CreateMissing | adapters/exedev/src/provider.rs:117-165 | the half behind a missing VM, tied to the same machine |
| ExedevCreate.StepKeepsInv | adapters/exedev/src/provider.rs:72-165 | every step, crashes and failed writes included, keeps what the phases stand for |
| ExedevCreate.UncertainCreationIsNotRepeated | adapters/exedev/src/provider.rs:72-165 | between two `new`s of one request id lies a sighting |
| ExedevCreate.SightedVmIsReal | adapters/exedev/src/provider.rs:72-165 | with successful reads that sighting is of a VM |
| ExedevCreate.NewsAgree | adapters/exedev/src/provider.rs:72-84 | over any crashes and torn writes all `new`s of one request id are for the same machine, in all its receipt's fingerprint covers |
| ExedevCreate.FingerprintsAgreeIff | adapters/exedev/src/provider/receipt.rs:44-49 | a receipt tells two creates apart if and only if they differ in anything but the setup script |
| ExedevCreate.UnreadableInventoryAsksAgain | adapters/exedev/src/provider.rs:93-104 | the provider alone, were it retried after a pending answer: after one failed read it asks its executor for the same `new` again, for a VM never seen |
| ExedevKeys.KeysAreDistinct | adapters/exedev/src/provider/runner.rs:170-174 | two mutations share a key if and only if they are of one request and one command line |
| ExedevKeys.SameNewIff | adapters/exedev/src/provider/calls.rs:107-134 | two creates send one command line if and only if they agree in name, processors, memory, disk and on having a setup script; region and the script's text are not in it |
| ExedevKeys.NewIsRead | adapters/exedev/src/provider/calls.rs:107-134 | read option by option, `new` asks for the name, size, memory and disk that were given, and for a script if and only if it has text |
| ExedevKeys.NewsShareKeyIff | adapters/exedev/src/provider/runner.rs:170-174 | the provider alone: two `new`s of one request id go under one key if and only if both or neither have a setup script, which its own fingerprint does not cover |
| ExedevKeys.OneKeyStartsOnce | adapters/orchard/src/provider/carrier.rs:51-55 | a request whose calls share one key has one process started if any of them came through, and none otherwise, whoever else uses the executor |
| ExedevKeys.RemovalReachesExedevOnce | adapters/exedev/src/provider.rs:217-222 | in every run of the removal machine exe.dev gets at most one `rm` per destroy request, and one exactly if a call came through |
| KeyedExecutor.KeysStartOnce | adapters/orchard/src/provider/carrier.rs:51-55 | no key starts two processes, and a key starts one if and only if a call under it came through |
| ExedevCreate.IssuesIffNotBlocked | adapters/exedev/src/provider/receipt.rs:51-58 | a create that sees nothing can issue `new` if and only if its receipt does not wait and its fingerprint fits |
| ExedevCreate.OwnedOnlyAfterNew | adapters/exedev/src/provider/model.rs:105-120 | ownership is claimed only by a request id that issued `new` |
| ExedevCreate.RetryClaimsIffCreated | adapters/exedev/src/provider.rs:86-104 | a retry that sees the VM claims it if and only if the phase is still `created`, and its own write ends that |
| ExedevCreate.OwnershipStaysForgotten | adapters/exedev/src/provider.rs:86-104 | after that no answer claims it until another `new` |
| ExedevCreate.SlowVmEndsUnowned | adapters/exedev/src/provider.rs:72-165 | the provider alone, were it retried after a pending answer: two retries of a slow create, and the ready answer disclaims the VM it made |
| ExedevCreate.ClaimIgnoresRefusal | adapters/exedev/src/provider.rs:134-164 | what a create that sent `new` records and answers follows from what it sees afterwards alone, whether `new` was refused or not |
| ExedevCreate.RefusedNewIsClaimed | adapters/exedev/src/provider.rs:134-164 | counterexample: a refused `new` and the answer that claims the VM that took the name |
| ExedevCreate.AdoptionOnlyLooks | adapters/exedev/src/provider/model.rs:122-129 | adopting writes, creates and claims nothing in any run, and is ready if and only if the VM is seen as asked for |
| ExedevStore.AttemptsNeedFailures | crates/workenv-core/src/receipts.rs:255-269 | of two attempts behind the store, the first was made over a failed answer on record or a failed answer was given in between; so one with nothing to go on that answered pending or died is followed by none |
| ExedevStore.OneAttemptWithoutFailure | crates/workenv-core/src/receipts.rs:255-269 | until an attempt is answered failed there is only one, in every run of the store |
| ExedevStore.OneScript | crates/workenv-core/src/dispatch.rs:196-205 | the store binds a request id to one fingerprint and so to one setup script, in every run |
| ExedevStore.NewsHaveOneKey | adapters/exedev/src/provider/runner.rs:170-174 | store and provider together: all `new`s of one request id go to the executor under one key, in every run |
| ExedevStore.NewReachesExedevOnce | adapters/exedev/src/provider/runner.rs:74-81 | store, provider and executor together: exe.dev gets at most one `new` per request id in every run, whatever reads and writes fail, attempts answer and processes die, and one exactly if a call of the provider came through |
| ExedevStore.NewIsAskedForOnceWithoutFailure | adapters/exedev/src/provider.rs:72-165 | and until an attempt is answered failed, the provider asks for it at most once |
| ExedevRuns.NewIsAskedForTwice | adapters/exedev/src/provider.rs:93-104 | one run from nothing of all three: no room, a `new` the adapter dies after, an unreadable inventory, and a second call for `new` under the same key, of which exe.dev gets one |
| ExedevDestroy.Destroyer.DestroyResponse | adapters/exedev/src/provider.rs:167-189 | an undisturbed destroy is a run of the removal machine and removes under exactly this condition |
| ExedevDestroy.Destroyer.DestroyObserved | adapters/exedev/src/provider.rs:191-247 | the half behind the gate, tied to the same machine |
| ExedevDestroy.OwnedMeansCreated | adapters/exedev/src/provider/model.rs:131-135 | only the create's own record can satisfy the ownership gate |
| ExedevDestroy.RemovesOwnVmIff | adapters/exedev/src/provider/model.rs:137-141 | `rm` only for a resource recorded as owned, and of the recorded identity if and only if the handed-back answer names no other; a create without an identity included |
| ExedevDestroy.ForeignRemovalFollowsRefusal | adapters/exedev/src/provider.rs:191-247 | another VM is removed only after an attempt refused to remove that same VM |
| ExedevDestroy.RetriedRefusalRemovesForeignVm | adapters/exedev/src/provider/model.rs:225-244 | counterexample: that refusal, retried once, removes the other VM |
| ExedevDestroy.UncertainRemovalIsNotRepeated | adapters/exedev/src/provider.rs:191-247 | between two removals the first was confirmed gone |
| ExedevDestroy.ClaimedVmIsRemoved | adapters/exedev/src/provider.rs:191-247 | the VM a create claimed is the one its destroy removes |
| ExedevDestroy.GoneIsReady | adapters/exedev/src/provider.rs:191-201 | a destroy that finds its VM gone is ready, having changed nothing |
| ExedevDestroy.OpenRemovalWaits | adapters/exedev/src/provider.rs:180-187 | while its outcome is open, a removal is pending without a look |
| ExedevDestroy.RemovedIsChangedIff | adapters/exedev/src/provider.rs:217-247 | one that removed it is changed if and only if it is gone afterwards, and pending otherwise |
| ExedevLeaks.PendingCreateIsADeadEnd | crates/workenv-core/src/receipts.rs:265-267 | every exe.dev create that answered pending, with a VM in sight or not, is refused by the store from then on |
| ExedevLeaks.CreatedIsRetriedIff | adapters/exedev/src/provider/model.rs:97-103 | of all that may be seen after a `new`, the create can be tried again if and only if a VM with differences was |
| ExedevLeaks.SlowCreateLeaves | adapters/exedev/src/provider.rs:117-165 | the provider does answer so for a VM that is slow to boot, and that answer is what the store records |
| StuckCreates.IncompleteCreateIsNotTornDown | crates/workenv-core/src/environment.rs:108-115 | an owned create that is not complete keeps destroy from anything, under every key |
| StuckCreates.StuckForGood | crates/workenv-core/src/receipts.rs:255-269 | for any provider: after a pending answer without an execution no retry reaches it in any run, and no destroy acts on it |
| ExedevLeaks.SlowVmIsStuck | crates/workenv-core/src/receipts.rs:255-269 | so after a slow create no retry reaches the provider in any run, and no destroy acts |
| ExedevLeaks.DriftingVmAnswers | adapters/exedev/src/provider.rs:72-165 | for any number of retries that see differences or nothing readable: all answers fail, and the one that then sees the VM claims it if and only if there were none |
| ExedevLeaks.AttemptsAreRecorded | crates/workenv-core/src/receipts.rs:131-177 | the store hands on every attempt after failed answers only, and keeps the last answer |
| ExedevLeaks.DriftingVmIsTornDownIff | crates/workenv-core/src/environment.rs:95-118 | after such a create destroy's gate opens if and only if no retry saw anything else first, and otherwise every destroy answers that nothing is owned |
| ExedevLeaks.RefusedNewRemovesAnothersVm | adapters/exedev/src/provider.rs:134-164 | counterexample: the VM that took the name is claimed by the create and removed by its destroy |
| OrchardLeaks.RetriedIff | adapters/orchard/src/provider.rs:143-161 | an Orchard create can be tried again if and only if it failed, and is a dead end if and only if it was pending |
| OrchardLeaks.SlowSetupIsPending | adapters/orchard/src/provider/ready.rs:72-94 | a setup that outlasts the budget is answered so |
| OrchardLeaks.PendingGuestIsStuck | adapters/orchard/src/provider.rs:143-161 | then no retry reaches the adapter in any run, and no destroy acts |
| OrchardLeaks.AnswersClaimGuests | adapters/orchard/src/provider.rs:125-164 | a guest found running is ready, one that had to be made changed; each answer but an error claims it under its name |
| OrchardLeaks.GuestIsTornDownIff | crates/workenv-core/src/environment.rs:95-118 | once its create is all there is on record, a guest can be torn down if and only if that found or left it running |
| OrchardCreate.CreateAnswersInTime | adapters/orchard/src/provider/create.rs:129-173 | for every cluster and probe within their own limits a create answers before 281 s and no probe ends as late as 271 s; past 280 s if and only if the second loop makes a late probe, one that starts between 250 and 251 s, runs past 270 s and finds nothing |
| OrchardCreate.LateIff | adapters/orchard/src/provider/ready.rs:63-94 | the same for the second loop from any moment |
| OrchardCreate.ProbeRunsIff | adapters/orchard/src/provider/ready.rs:63-94 | a probe is made if and only if none before it found the marker and 250 whole seconds or fewer have passed when it starts |
| OrchardCreate.ProbesStartInTime | adapters/orchard/src/provider/ready.rs:63-94 | every probe starts before 251 s, and one that starts by 250 s ends by 270 s |
| OrchardCreate.BoundIsTight | adapters/orchard/src/provider/ready.rs:63-94 | every time from 280 s up to 281 s is reached |
| OrchardCreate.ReadyMeansProvisioned | adapters/orchard/src/provider/ready.rs:63-94 | with a setup script success is only reported after the marker was found |
| OrchardCreate.AwaitRunningTime | adapters/orchard/src/provider/create.rs:147-173 | the first loop ends before 227 s |
| OrchardCreate.AwaitProvisionedTime | adapters/orchard/src/provider/ready.rs:63-94 | the second loop keeps the budget it is given |
| OrchardCreate.ReadTime | adapters/orchard/src/provider/client.rs:92-101 | a read takes at most three attempts of 15 s |
| OrchardCreate.Session.WithReadRetries | adapters/orchard/src/provider/client.rs:92-101 | the retry loop does what the timed specification says |
| OrchardCreate.Session.PollUntilRunning | adapters/orchard/src/provider/create.rs:147-173 | the first waiting loop meets its specification |
| OrchardCreate.Session.PollUntilProvisioned | adapters/orchard/src/provider/ready.rs:63-94 | the second waiting loop meets its specification |
| OrchardCreate.Session.Create | adapters/orchard/src/provider/create.rs:129-145 | the whole create, within 281 s |
| OrchardAnswers.ReadSettles | adapters/orchard/src/provider/client.rs:92-101 | a read is settled by the first attempt that is no timeout, or the third, and takes their time |
| OrchardAnswers.LoopAnswers | adapters/orchard/src/provider/create.rs:147-173 | the first loop runs, fails or runs out of time if and only if some poll, all before it having found a guest neither running nor failed in time, finds it running, finds it lost, or comes too late |
| OrchardAnswers.CreateAnswers | adapters/orchard/src/provider/create.rs:129-145 | existing if and only if the first read finds the guest running; running, pending or failed exactly as the polls after that read or after a successful POST say |
| OrchardAnswers.ScriptedCreateAnswers | adapters/orchard/src/provider/ready.rs:63-94 | with a setup script success is kept if and only if some probe made in time is the first to find the marker, and becomes pending otherwise |
| OrchardExecute.Run | adapters/orchard/src/provider/execute.rs:157-217 | an input without a command is refused; otherwise the attempt loop sends exactly the specified attempts and answers from the last |
| OrchardExecute.CommandRunsAtMostOnce | adapters/orchard/src/provider/execute.rs:157-217 | at most three attempts, and the command runs in the last or not at all |
| OrchardExecute.OnlyUnstartedIsResent | adapters/orchard/src/provider/execute.rs:248-254 | nothing is resent after an attempt that is unfinished, failed to launch or wrote anything |
| OrchardExecute.AnswerIsTheCommandsOwn | adapters/orchard/src/provider/execute.rs:137-155 | a reserved wrapper status is never reported as the command's own code, and an unfinished attempt is reported as pending under its execution |
| GuestAnswers.PrintedResultIsAnswered | adapters/orchard/src/provider/execute.rs:137-155 | a printed result is answered with exactly its status, its output and its error text, under the execution |
| GuestAnswers.GuestCommandIsAnswered | adapters/orchard/src/provider/execute.rs:58-82 | so whatever a command in the guest ends with is what is reported of it |
| GuestAnswers.ExedevCommandIsRead | adapters/exedev/src/provider/wire.rs:31-89 | the same for the exe.dev wrapper, through any noise |
| GuestAnswers.OtherAnswers | adapters/orchard/src/provider/execute.rs:219-254 | ready if and only if a finished attempt names a status of its own; any other finished one is failed under its execution, an unfinished one pending |
| GuestAnswers.ReservedStatusIsFailed | adapters/orchard/src/provider/execute.rs:144-148 | a wrapper that could not start or enter its directory is a fault |
| GuestAnswers.AttemptsMade | adapters/orchard/src/provider/execute.rs:157-217 | a second and third attempt are made exactly if all before failed to start with one of three messages, never a fourth |
| OrchardExecute.CarrierKeysAreDistinct | adapters/orchard/src/provider/carrier.rs:56-73 | no two attempts share a key |
| GuestCommands.EarlierAttemptsDidNotRun | adapters/orchard/src/provider/execute.rs:157-217 | an attempt is only made, by whichever call of the adapter, when no attempt before it ran the command |
| GuestCommands.CommandRunsOnceForAllCalls | adapters/orchard/src/provider/carrier.rs:51-73 | however often one request is sent to the adapter, its command runs in at most one of the processes its attempts start |
| GuestCommands.GuestCommandRunsOnce | crates/workenv-core/src/adapter.rs:162-166 | so a guest command runs at most once while its hop is on record, in every run of the store, over all callers, crashes, lost writes and resends |
| Cycles.CycleDetector.Find | xtask/src/deps.rs:164-179 | the search ends on every graph with its stack restored and one record for each newly seen package with an edge back |
| Cycles.CycleDetector.VisitAll | xtask/src/deps.rs:170-178 | the loop over the dependencies |
| Cycles.CycleDetector.VisitDependency | xtask/src/deps.rs:181-193 | an edge back is recorded with the stack as it stands, any other edge is searched |
| Cycles.CycleDetector.RecordCycle | xtask/src/deps.rs:195-206 | one record with the whole stack, if the package has a manifest |
| Cycles.CheckCycles | xtask/src/deps.rs:133-154 | all searches together report nothing if and only if no package reaches itself |
| Cycles.RecordsIffOnCycle | xtask/src/deps.rs:164-193 | a search records something if and only if its package reaches itself |
| Cycles.ExactCount | xtask/src/deps.rs:164-193 | as many records as reachable packages with an edge back |
| Cycles.SearchComplete | xtask/src/deps.rs:164-193 | the packages seen are exactly those reachable, and each record is a real simple path |
| Cycles.EmptyIffAcyclic | xtask/src/deps.rs:133-154 | no violations if and only if no package is on a cycle |
| SymlinkWalk.FirstMissing | crates/workenv-platform/src/execution_path.rs:63-89 | the restarting walk ends on every link graph and gives the answer of resolution in place under the hop bound |
| SymlinkWalk.Prepend | crates/workenv-platform/src/execution_path.rs:91-95 | the path's parts go in front of the remaining ones, in order |
| SymlinkWalk.ResolveIsFaithful | crates/workenv-platform/src/execution_path.rs:61-89 | the answer is free of links, or its first missing piece, or a link below real directories only |
| SymlinkWalk.MoreHopsSameAnswer | crates/workenv-platform/src/execution_path.rs:63-89 | an answer below the bound is the answer under every larger bound |
| SymlinkWalk.StartingOverIsHarmless | crates/workenv-platform/src/execution_path.rs:74-86 | walking again from the root leads back without following a link |
| SymlinkWalk.Rejoin | crates/workenv-platform/src/execution_path.rs:74-95 | a link's target joined to its directory walks as the target does from there |
| Base64.RoundTrip | adapters/exedev/src/provider/wire.rs:31-58 | reading what was printed gives the bytes back, by section 4 of RFC 4648 |
| ShellQuoting.QuotedReadsBack | crates/workenv-platform/src/shell.rs:5-11 | a quoted value is read as one word, that value, whatever follows it |
| ShellQuoting.JoinSplits | crates/workenv-platform/src/shell.rs:13-16 | splitting a joined argv by sections 2.2.2 and 2.3 of the POSIX.1-2017 Shell Command Language gives the argv back |
| ShellQuoting.JoinIsInjective | crates/workenv-platform/src/shell.rs:13-16 | no two argvs print alike |
| SshArgv.NestedQuotingReadsBack | adapters/ssh/src/remote/argv.rs:5-23 | through both levels the far shell sees the argv that was given, its input and its directory |
| SshArgv.InputScriptReadsBack | adapters/ssh/src/remote/argv.rs:46-62 | both values in the wrapper script stand outside quotes and read back |
| SshArgv.StartOptionsRead | adapters/ssh/src/remote/argv.rs:25-44 | directory, purpose and key are read as given, and the command behind them untouched |
| ShellScript.SlotReadsBack | adapters/ssh/src/remote/argv.rs:46-62 | in a script of any number of quoted values set apart by fixed texts, the shell comes to each value outside quotes, where a word starts, and reads exactly it |
| ShellScript.ScriptReadsBack | adapters/ssh/src/remote/argv.rs:46-62 | all of them, in the one script |
| ShellScript.QuoteClosesItself | adapters/ssh/src/remote/argv.rs:127-129 | a quoted value leaves the quoting as it found it |
| WrapperScripts.WrapperReadsBack | adapters/exedev/src/provider/wire.rs:31-58 | a guest's shell reads the input, the directory and each word of any command, even an empty one, exactly as given |
| WrapperScripts.ExedevScriptReadsBack | adapters/exedev/src/provider/wire.rs:31-58 | the exe.dev script does |
| WrapperScripts.OrchardScriptReadsBack | adapters/orchard/src/provider/execute.rs:58-82 | the Orchard script does |
| ScriptRuns.OrchardRunPrints | adapters/orchard/src/provider/execute.rs:58-82 | going by its redirections and its format, a run of the Orchard script feeds the command its input and prints the status, output and error text it ends with |
| ScriptRuns.ExedevRunPrints | adapters/exedev/src/provider/wire.rs:31-58 | and the exe.dev script prints the same behind its sentinel, as one line |
| ScriptRuns.OrchardReserves | adapters/orchard/src/provider/execute.rs:50-82 | the Orchard script leaves with the very statuses its reader takes for faults |
| ScriptRuns.ExedevReserves | adapters/exedev/src/provider/wire.rs:37-44 | where the directory cannot be entered the exe.dev script prints its own result under the status it reserves |
| ScriptRuns.SshInputWritten | adapters/ssh/src/remote/argv.rs:46-62 | over ssh the input is written to one file |
| ScriptRuns.SshInputRead | adapters/ssh/src/remote/argv.rs:46-62 | and read from the same |
| ResultLine.ResultLineRoundTrip | adapters/exedev/src/provider/wire.rs:66-89 | for every code, output, error text and surrounding lines the reader recovers the printed triple |
| ResultLine.PayloadParses | adapters/exedev/src/provider/wire.rs:48-57 | the hand-written JSON is one valid object with exactly those fields |
| ResultLine.NoSentinelNoResult | adapters/exedev/src/provider/wire.rs:66-74 | without a result line nothing is read |
| ResultLine.ExitCodeReads | adapters/exedev/src/provider/wire.rs:84-88 | a status that is missing or out of range reads as -1, any other as itself |
| ResultLine.ChdirMessageIsDropped | adapters/exedev/src/provider/wire.rs:37-44 | the wrapper's own message is lost, its reserved status is not |
| NixString.NixDoubleString | crates/workenv/src/migration/render.rs:31-44 | the peeking loop prints the specified text |
| NixString.ReadsNormalised | crates/workenv/src/migration/render.rs:31-44 | read as a Nix string the text gives the value with line ends normalised, and ends at its own last quote |
| NixString.NormalisedIff | crates/workenv/src/migration/render.rs:31-44 | that is the value itself if and only if it has no raw carriage return |
| NixString.JsonNixRoundTrip | crates/workenv/src/migration/render.rs:26-29 | the literal is one plain string without interpolation that reads back as the JSON text under exactly that condition |

## Left out

- Cycles.CheckCycles: asks that every package has a manifest, which the caller builds from the same table; `RecordCycle` itself covers a package without one.
- ReceiptProtocol.RunKeepsInv: request ids stand for their receipt and lock files, SHA-256 being taken as injective.
- ReceiptProtocol.AtMostOneBlindLaunch: rests on a receipt that exists being seen. The code asks `path.exists()` first (crates/workenv-core/src/receipts.rs:180), which also says no when the file cannot be looked at; here such a read fails with an I/O error.
- Dispatch.Controller.CallBinding: its disk works. A mutation whose disk fails is `InvokeSaved`, and every run with such calls is a run of the protocol.
- Teardown.CreatedProviderResource: the directory can be listed; one that cannot be fails the selection as `Selection` says.
- Lifecycle.Up: one environment with its host; unknown environment and host names, and the refusal of a blank key before anything is looked at, are single lookups and are not modelled.
- Lifecycle.RealizeEnvironment: the applied state holds the profile and the derivation; the environment and host that are stored with them are constants of the manifest. Its file is taken to be readable and writable.
- LifecycleRetries.RetryResumes: as promised for manifests whose setup operations are mutating; others are observed again on every run.
- Teardown.Destroy: other processes appear as further entries of the directory at each time; they do not touch this request's own receipts while it runs, which is what its lock is for.
- TeardownSafety.SafeTeardown: speaks of one call from any state; a crash cuts its calls short and a retry is another call.
- OrchardCreate.CreateAnswersInTime: sleeps take exactly their time, an HTTP attempt at most 15 s and a probe at most 20 s.
- KeyedExecutor.KeysStartOnce: APoC, which keeps the receipts per key, is not part of this repository; that it answers a repeated key from the first process is what adapters/orchard/src/provider/carrier.rs:53-55 and provisioning/README.md:769-771 say of it.
- ExedevKeys.KeysAreDistinct: the key is the SHA-256 of what is compared here, taken as injective. The guest's own commands on exe.dev go under a fresh key each, so nothing is claimed of them.
- ExedevStore.NewReachesExedevOnce: that the fingerprint determines the setup script is the digest of configuration and input taken as injective; nobody else uses keys of this request, as every mutation key names its own.
- GuestCommands.GuestCommandRunsOnce: rests on the same reading of a setup failure as the next line.
- OrchardExecute.CommandRunsAtMostOnce: a setup-failure marker with empty standard output is taken to mean that the command did not start.
- ScriptRuns.OrchardRunPrints: a script is run by its redirections, its encoded files and its `printf` format; the other words of the script are fixed text, `base64` prints one line, and a directory that cannot be entered ends it before.
- TargetHops.CommandReachesGuest: the request's JSON text and its bytes are parameters.
- CreateThenDestroy.CreateOpensGate: other processes keep no receipts of their own in the directory; `GateIsBacked` says what holds when they do.
- ResultLine.ResultLineRoundTrip: the JSON reader covers what the wrapper can print (section 7 of RFC 8259 escapes and fractions are not part of this model), and the lossy conversion of bytes to text is a parameter.
- NixString.ReadsNormalised: the Nix reader is written from the language's rule for quoted strings, interpolation being refused rather than evaluated.
- `down` is `destroy` under another name in the report.
- `plan`, `status`, `connect`, conditions, manifest validation, and Orchard `reap` and `inventory`: single branches or short loops.
- JSON numbers with fractions, JSON Schema validation, and the text of error messages.
- File permissions, fsync, and temporary file names; a write replaces a file, leaves the old one, or replaces it and reports failure.
- Launching processes, HTTP, SSH, git and APoC Code Mode: adapters, probes, clusters and carriers are arbitrary functions.
- The command line, MCP, bootstrap scripts, identity profiles, clipboard and Tailscale adapters.
