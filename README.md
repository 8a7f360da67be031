# guac-remediator workflow core in Dafny

This project models the remediation core of guac-remediator. That core takes discovered vulnerability records, starts one remediation workflow per record and drives each workflow through a guarded lifecycle. It has five parts:

- **Workflow state machine** (`Fsm`). Five transitions, Start, Complete, Fail, Escalate and Retry, run over the states PENDING, IN_PROGRESS, COMPLETED, FAILED and ESCALATED. `Next` gives the transition table as a function on workflow values. The five methods update a `RemediationWorkflow` object in place, as the Go code updates `*RemediationWorkflow`. Each method is proved to leave behind what `Next` prescribes: the new workflow on success, or the unchanged workflow and the error on refusal.
- **Workflow table** (`Remediator`). `BasicRemediator` holds `workflows: map<string, RemediationWorkflow>`. Distinct ids point to distinct objects. Its four operations are proved against the functions `AfterStart`, `AfterPoll`, `AfterRollback` and `AfterCleanup`, which work on the table viewed as a map of workflow values. The lemmas state what those functions guarantee:
  - the three-step template;
  - not-found errors;
  - the completion heuristic;
  - rollback, which swallows errors;
  - the cleanup guard;
  - a table invariant. Every entry is stored under its own id, and every step's status agrees with the workflow's state.
- **Record store** (`Store`). `MockStore` inserts each record only if its id is absent. `SaveAll` gives that rule as a function on maps.
- **Event bus** (`Event`). It keeps an ordered list of subscriber ids and, as a ghost field, the history of the events published on it. `Publish` returns the delivery trace and appends the event to that history.
- **Dispatch** (`Manager`, `Orchestration`). The remediation manager starts a workflow for each record and publishes one REMEDIATION_STARTED event. The orchestrator routes a discovery event to the manager, one record at a time. Each method returns the events it published. The lemmas connect a discovery event to the resulting table and the published events.

Go's `error` results are `Option<E>`, where `None` is nil. A `(value, error)` pair is `Result<T, E>`. The vulnerability passed to the remediator is reduced to its record id. Two things force this. `remediation_manager.go` reads `r.CertifyVuln`, which `internal/store/store.go` does not declare. The guac type `model.AllCertifyVuln` is not part of this model. The `ctx` parameter of `SaveVulnerabilityRecords` and `HandleEvent` carries nothing the core uses, so it is dropped.

Three behaviours of the code are easy to miss, and the model keeps all three:

- `Rollback` discards the state machine's error (internal/remediator/remediator.go:103). A rollback of a workflow that is not IN_PROGRESS therefore returns nil and changes nothing (`RollbackRule`).
- `PollRemediationStatus` discards the error of `CompleteWorkflow` (internal/remediator/remediator.go:90).
- The mock store never reports an error (internal/store/mock_store.go:36).

## Model

| member | source | states |
|---|---|---|
| `Fsm.Next` | internal/remediator/fsm.go:18-80 | a transition succeeds exactly when the workflow is in the transition's guard state; a refusal records the state it found |
| `Fsm.ShapePreserved` | internal/remediator/fsm.go:18-80 | no transition changes the workflow id or the number, order, names or metadata of the steps |
| `Fsm.StartRule` | internal/remediator/fsm.go:19-28 | Start moves PENDING to IN_PROGRESS; steps with empty status become IN_PROGRESS, steps with any other status keep it |
| `Fsm.CompleteRule` | internal/remediator/fsm.go:34-40 | Complete moves IN_PROGRESS to COMPLETED and every step becomes COMPLETED whatever its status was |
| `Fsm.FailRule` | internal/remediator/fsm.go:46-54 | Fail moves IN_PROGRESS to FAILED; only IN_PROGRESS steps become FAILED, all others are unchanged |
| `Fsm.EscalateRule` | internal/remediator/fsm.go:60-63 | Escalate moves FAILED to ESCALATED and touches no step |
| `Fsm.RetryRule` | internal/remediator/fsm.go:70-78 | Retry moves FAILED to IN_PROGRESS; only FAILED steps become IN_PROGRESS, all others are unchanged |
| `Fsm.TerminalStatesAbsorb` | internal/remediator/fsm.go:18-72 | from COMPLETED or ESCALATED every one of the five transitions refuses |
| `Fsm.StartWorkflow` | internal/remediator/fsm.go:18-30 | in place: outside PENDING returns the error and leaves state and steps untouched; otherwise the object becomes `Next(Start, old value)` and nil is returned |
| `Fsm.CompleteWorkflow` | internal/remediator/fsm.go:33-42 | in place: outside IN_PROGRESS returns the error and changes nothing; otherwise the object becomes `Next(Complete, old value)` |
| `Fsm.FailWorkflow` | internal/remediator/fsm.go:45-56 | in place: outside IN_PROGRESS returns the error and changes nothing; otherwise the object becomes `Next(Fail, old value)` |
| `Fsm.EscalateWorkflow` | internal/remediator/fsm.go:59-65 | in place: outside FAILED returns the error and changes nothing; otherwise the object becomes `Next(Escalate, old value)` |
| `Fsm.RetryWorkflow` | internal/remediator/fsm.go:68-80 | in place: outside FAILED returns the error and changes nothing; otherwise the object becomes `Next(Retry, old value)` |
| `Remediator.StartBuildsTemplate` | internal/remediator/remediator.go:49-70 | start returns no error and a workflow with id "wf-" + vulnerability id, IN_PROGRESS, with steps download_patch, apply_patch, verify_patch in order, all IN_PROGRESS; the table maps that id to it (replacing any entry) and is otherwise unchanged |
| `Remediator.AbsentIdNotFound` | internal/remediator/remediator.go:73-112 | poll, rollback and cleanup of an absent id report not-found and leave the table unchanged |
| `Remediator.PollRule` | internal/remediator/remediator.go:73-94 | poll of a present id returns the current workflow without error; it completes the workflow (all steps COMPLETED) when it is IN_PROGRESS with every step IN_PROGRESS, and otherwise changes nothing; other entries untouched |
| `Remediator.RollbackRule` | internal/remediator/remediator.go:97-105 | rollback of a present id returns nil; an IN_PROGRESS workflow becomes FAILED with its IN_PROGRESS steps FAILED; a workflow in any other state is left as it is; other entries untouched |
| `Remediator.CleanupRule` | internal/remediator/remediator.go:108-121 | cleanup of a present id succeeds if and only if the workflow is COMPLETED or FAILED, and then removes only that entry; otherwise it reports the current state and the table is unchanged |
| `Remediator.CleanupTwiceNotFound` | internal/remediator/remediator.go:108-121 | after a successful cleanup, a second cleanup of the same id reports not-found |
| `Remediator.TransitionKeepsSettled` | internal/remediator/fsm.go:18-80 | every transition out of a started workflow, Escalate and Retry included, keeps a workflow whose step statuses agree with its state in that condition |
| `Remediator.OperationsKeepCoherent` | internal/remediator/remediator.go:49-121 | start, poll, rollback and cleanup keep every entry stored under its own id, started, with step statuses agreeing with its state |
| `Remediator.PollCompletesEveryStarted` | internal/remediator/remediator.go:79-91 | in a coherent table the "all steps IN_PROGRESS" check always holds for an IN_PROGRESS workflow, so polling it completes it |
| `Remediator.LifecycleScenarios` | internal/remediator/remediator.go:49-121 | start "V1" then poll "wf-V1" gives COMPLETED; start, rollback, cleanup gives FAILED then removed, and a second cleanup reports not-found |
| `Remediator.BasicRemediator.constructor` | internal/remediator/remediator.go:35-40 | a new remediator has an empty workflow table |
| `Remediator.BasicRemediator.StartRemediation` | internal/remediator/remediator.go:49-70 | inserts a fresh workflow object and starts it; the table and the result are `AfterStart` of the old table |
| `Remediator.BasicRemediator.AllStepsInProgress` | internal/remediator/remediator.go:81-87 | the flag-and-break scan returns true exactly when every step's status is IN_PROGRESS (true for no steps) |
| `Remediator.BasicRemediator.PollRemediationStatus` | internal/remediator/remediator.go:73-94 | the table and the result are `AfterPoll` of the old table; other workflow objects are not touched |
| `Remediator.BasicRemediator.Rollback` | internal/remediator/remediator.go:97-105 | the table and the result are `AfterRollback` of the old table; the state machine's refusal is discarded |
| `Remediator.BasicRemediator.Cleanup` | internal/remediator/remediator.go:108-121 | the table and the result are `AfterCleanup` of the old table |
| `Store.SaveAllKeys` | internal/store/mock_store.go:28-35 | after a save the keys are exactly the old keys plus every id in the batch: every batch id is stored and the key set only grows |
| `Store.SaveAllNeverOverwrites` | internal/store/mock_store.go:29-32 | an entry already in the store keeps its value whatever the batch holds, so keys outside the batch keep their values too |
| `Store.SaveAllFirstWins` | internal/store/mock_store.go:28-35 | for an id new to the store, the record stored is its first occurrence in the batch |
| `Store.SaveAllOfPresent` | internal/store/mock_store.go:29-32 | a batch whose ids are all present changes nothing |
| `Store.SaveAllIdempotent` | internal/store/mock_store.go:28-36 | saving the same batch twice leaves the same store as saving it once |
| `Store.MockStore.constructor` | internal/store/mock_store.go:18-22 | a new store is empty |
| `Store.MockStore.SaveVulnerabilityRecords` | internal/store/mock_store.go:24-37 | the store becomes `SaveAll(old store, batch)`, and nil is always returned |
| `Event.EventBus.constructor` | internal/event/event.go:34-36 | a new bus has no subscribers and an empty history of published events |
| `Event.EventBus.Subscribe` | internal/event/event.go:39-43 | the handler is appended at the end; earlier subscribers keep their places and order; the published-event history is unchanged |
| `Event.EventBus.Publish` | internal/event/event.go:46-54 | every subscription receives the event exactly once, in subscription order; the subscriber list is not modified and the event is appended to the bus's history |
| `Manager.ShouldRemediate` | internal/remediator/remediation_manager.go:52-54 | every record is eligible |
| `Manager.HandleStartsAndAnnounces` | internal/remediator/remediation_manager.go:27-49 | handling a record changes the table exactly as a start for its id does, and publishes exactly one REMEDIATION_STARTED event carrying the returned workflow's id, "wf-" + record id |
| `Manager.RemediationManager.constructor` | internal/remediator/remediation_manager.go:19-24 | the manager keeps the given remediator and bus |
| `Manager.RemediationManager.HandleVulnerability` | internal/remediator/remediation_manager.go:27-49 | one start per eligible record; on error nothing is published and nothing propagates; on success exactly the REMEDIATION_STARTED event for the returned id is published; the bus's history grows by exactly the returned events |
| `Orchestration.HandleAllAnnouncesEachRecord` | internal/remediator/orchestrator.go:26-36 | a batch publishes one REMEDIATION_STARTED event per record, in record order, each with that record's workflow id |
| `Orchestration.HandleAllStartsEachRecord` | internal/remediator/orchestrator.go:26-36 | after a batch, every record's workflow is in the table, IN_PROGRESS, with its three steps IN_PROGRESS |
| `Orchestration.OtherEventsIgnored` | internal/remediator/orchestrator.go:24-44 | a discovery event with a missing or ill-typed records payload, REMEDIATION_STARTED, PATCH_COMPLETE and unknown types cause no manager call: table unchanged, nothing published |
| `Orchestration.DiscoveryOfV1` | internal/remediator/orchestrator.go:24-36 | a discovery event carrying record "V1" leaves "wf-V1" IN_PROGRESS with three IN_PROGRESS steps and publishes exactly one REMEDIATION_STARTED event carrying "wf-V1" |
| `Orchestration.Orchestrator.constructor` | internal/remediator/orchestrator.go:17-21 | the orchestrator keeps the given manager |
| `Orchestration.Orchestrator.HandleEvent` | internal/remediator/orchestrator.go:24-45 | the table and the published events are `AfterHandleEvent` of the old table: one manager call per record, in order, for a well-formed discovery event, and none otherwise; the bus's history grows by exactly the returned events |

## Left out

- The poller and aggregator (`internal/aggregator/aggregator.go`, and the paginating, deduplicating poller built in `cmd/guac-remediator/cli/root.go`): HTTP and GraphQL I/O, JSON decoding and clock stamping. The paginating poller's source is not part of this model.
- The command line and process lifecycle (`cmd/guac-remediator/cli/root.go`, `cmd/guac-remediator/main.go`): flags, environment variables, signals, goroutines, sleeps and exit codes.
- The locks in the event bus and the store: the operations are modelled as sequential.
- `MarkTransition` has no effect beyond reading the clock. `Initialize` only prints and returns nil.
- All `fmt` output, including the orchestrator's logging of REMEDIATION_STARTED, PATCH_COMPLETE and unknown events.
- `AuthContext`: the manager always passes an empty one and the remediator never reads it. The guac vulnerability type is reduced to the record id.
- The `Remediator` interface: the manager is modelled with `BasicRemediator` itself, which is the one implementation.
- `FSMManager` has no fields, so its transitions are module-level methods.
- Event handlers are reduced to numeric ids. `Publish` returns the delivery trace and does not run the handlers. The manager's REMEDIATION_STARTED event is therefore not re-delivered to the orchestrator, which would only log it.
- Event payloads are the untyped map `map[string]interface{}`. Here the value under the key a receiver reads is `Absent`, `Records`, `WorkflowRef` or `OtherValue`.
- Go slice aliasing: the workflow returned by start and poll shares its step array with the table entry in Go. Here it is an independent value.
- `Fsm.Next`: its refusal `NotInState(transition, actual)` records the transition and the state found. The Go errors (internal/remediator/fsm.go:20, 35, 47, 61, 71) are fixed messages that name only the required state. Every caller either discards these errors or never receives one.
- Workflow and step states are strings in Go. The model admits only the five state constants, plus the empty string for a step status. Other strings are never assigned by the code.
