# Verified model of GoAl

GoAl supervises local AI processes: it admits launches, arbitrates them per model, restarts, stops and cleans them
up, and it keeps runtimes, models and pipelines in a repository that can be exported and imported. This project models
the parts of it whose correctness spans several functions and proves what they promise.

**Launch protocol** (`Launch*.dfy`). Admission, restart, stop, exit, shutdown drain, rollback and registry cleanup as
atomic steps over one shared state. A step is one lock region or one foreign call; every answer of the store, the
kernel and the contexts is an argument of the step, so a theorem about all runs covers every answer and every
interleaving. One admission or restart call makes at most one operation, claim, slot reservation, run, process and
`wait()` goroutine, so these are parts of one `Launch`; a `Controller` is the object that several launches of an
instance share. `LaunchSteps` holds the steps, `LaunchInvariant` the invariant, `LaunchFrames` and `LaunchMoves` what a
step leaves intact for other goroutines, `LaunchKeeps`, `LaunchArbitration`, `LaunchStops` and `LaunchCalls` the
preservation step by step, `LaunchRuns` the induction over runs, `LaunchTheorems` and `LaunchCleanup` the guarantees.

One promise of the code's comments is false: a controller that cleanup has removed can spawn again (`LaunchRace` is a
run that does). `LaunchComeback.RemovedControllerCanSpawnAgain` is the exact condition, for every removal: the record
is stored at the removal, and some call on the controller has neither ended nor can only be refused. One direction is
an invariant of what has left the registry; the other runs that call to a process from an arbitrary reachable state:
`LaunchBacked` proves that whatever is held has a holder at work, `LaunchSettle` that everybody else can therefore come
to rest, `LaunchScript` runs a call that finds everything free, and `LaunchPaths` composes the steps.

Another promise that is false: no second live process of a model with an incompatible owner. `LaunchSeen` and
`LaunchCollide` give the exact condition for each live process. Unless it is joined already, it is safe for as long as it
lives if and only if it is seen: its controller is registered, its state is in flight and speaks of this run, and no
other launch of the controller has a late `wait()` or an unpublished run. That is settled when the process is started and
never changes while it lives; from every state with an unseen process that is neither draining nor cancelled, and a limit
other than one, some continuation starts a second process beside it. `LaunchStale` shows that unseen processes occur: for
every limit other than one, and for no run with limit one, two registered manual controllers of a model can have live
processes at once.

**Import** (`Catalog`, `Import*`, `Repository`, `Portable*`). `ImportRules` states the verdict on each entity of a bundle
declaratively; `ImportPlanner` is the imperative planner, proved to compute those verdicts; `ImportApply` and
`ImportLaws` say what an applied plan is and prove soundness, idempotence and the frame; `ImportOrder` proves that list
order is irrelevant; `Repository` is the atomic apply with its pre-write name check; `Portable*` is validation,
conversion, scoped export, the import call, its repetition and the round trips.

**Smaller cores.** `ProcessManager`: the owner of one OS process and the bounded persist retry. `OrphanKill`: the kill
sequence with its history. `Argv`: the argument-list parser and printer of the web page. `Resolver`: `${NAME}`
substitution against a token grammar, and the bundle's syntax check. `DurableWrite`: the crash-safe file replacement
over a file system that loses unsynced data and reorders unsynced directory changes. `RateLimiter`: the login limiter
over runs. `PipelineStop`: which instances a group stop targets, and the order of a group stop and restart.
`InstanceStore`: the durable instance records.

Where the code and its documentation disagree the code is followed: the removed-controller promise above
(internal/process/supervisor.go:345-359), the promise that a model has no second live
generation with an incompatible owner (internal/process/arbitration.go:10-23; `LaunchCollide.CollisionIsDecided` is the
exact condition), and the round-trip guarantee of `renderArgs`
(internal/webui/static/app.js:489-490), which a token with a lone carriage return breaks; `Argv.RoundTrip` gives the
exact condition.

Foreign answers are parameters or nondeterministic choices: case folding (`lower`), the clock (`now`), success of a save
(`saves`), path equality (`samePath`), probe, signal and update answers, supervisor answers to group calls, generated
ids.

## Model

| member | source | states |
|---|---|---|
| `LaunchRuns.RunInv` | internal/process/supervisor.go:475-2037 | Every state of every run (any number of concurrent admissions, restarts, stops, cleanups, exits and store, kernel and context answers) satisfies the whole invariant. |
| `LaunchRuns.NextKeeps` | internal/process/supervisor.go:475-2037 | Any step of the system keeps the invariant and moves every launch and controller only forward (commit, spawn, outcome, drain). |
| `LaunchTheorems.AdmissionsAreCompatible` | internal/process/arbitration.go:154-279 | Two distinct registered controllers of one model that are both in flight or hold an operation are two different entries of one pipeline, in every reachable state. |
| `LaunchTheorems.RestartReservationIsExclusive` | internal/process/arbitration.go:247-279 | From publication to release a launch owns its controller alone and keeps it conflict-visible, over the whole gap between the old and the new process of a restart. |
| `LaunchTheorems.LiveProcessIsOwned` | internal/process/supervisor.go:1545-1624 | A live process is its Manager's process, is still being decided by startCore or watched by wait(), holds its slot, has an unfinished run, and its controller is in flight unless a stale wait() wrote the state. |
| `LaunchTheorems.LiveProcessesAreCompatible` | internal/process/supervisor.go:508-530 | Two live processes of one model whose registered controllers are conflict-visible (the guard of the arbitration scan) belong to different entries of one pipeline. |
| `LaunchTheorems.TokensAreCounted` | internal/process/supervisor.go:235-280 | preSpawnInFlight is the number of admissions between publication and commit or abort; zeroSig is closed exactly when draining and none is left. |
| `LaunchTheorems.TokensAreConsumedOnce` | internal/process/supervisor.go:1508-1518 | The token of an admission is consumed at most once; an ended admission consumed it exactly when it had got a claim; a restart never has one. |
| `LaunchTheorems.DrainFreezesCommits` | internal/process/supervisor.go:1498-1506 | Any launch or restart found committed after drain-start had passed commit C before it. |
| `LaunchTheorems.DrainStays` | internal/process/supervisor.go:241-249 | The drain latch never opens again and the token counter never grows under it. |
| `LaunchTheorems.ZeroSignalStays` | internal/process/supervisor.go:233-239 | Once zeroSig is closed it stays closed and no admission is ever pre-spawn again. |
| `LaunchTheorems.LateSpawnsWereCommitted` | internal/process/supervisor.go:853-889 | Every manager.Start after drain-start belongs to a launch that committed before it. |
| `LaunchTheorems.StartIsFailClosed` | internal/process/supervisor.go:1476-1701 | (nil, err): no live process and no slot. (instance, err): slot and run held, state starting (or stopping), until wait() sees the exit. Aborted: nothing was ever spawned. |
| `LaunchTheorems.SuccessWasDurable` | internal/process/supervisor.go:1566-1603 | A start that reported success had, in some earlier state of the run, its record stored as running with the identity of this very process. |
| `LaunchTheorems.SlotsAreConserved` | internal/process/supervisor.go:475-491 | Free tokens plus held reservations equal maxConcurrent; live processes never exceed it; a run whose done is closed has returned its slot; a held slot has a user. |
| `LaunchTheorems.SpawnsAreAuthorized` | internal/process/arbitration.go:393-425 | A launch spawns at most once, and only with a spent claim minted for its own controller, model and owner; no two launches share an operation. |
| `LaunchTheorems.ClaimsStandAtCommit` | internal/process/arbitration.go:393-425 | In every run the claim of a launch that stands at commit C satisfies every check of consumeSpawnClaimLocked. |
| `LaunchTheorems.ClaimsAreNeverRejected` | internal/process/arbitration.go:393-425 | In no run can the rejecting branch of consumeSpawnClaimLocked be taken. |
| `LaunchRuns.ClaimIsNeverRejected` | internal/process/arbitration.go:363-371 | The one-state form: under the invariant (operations set only when nil, cleared by exact id) the claim is accepted. |
| `LaunchCleanup.RemovalTakesOnlyIdleControllers` | internal/process/supervisor.go:395-463 | A cleanup removal takes only the entry that still names the candidate, and only a terminal controller with no operation, token, unfinished run or unreaped process; every other entry, a replacement included, stays. |
| `LaunchCleanup.RemovedControllersNeverSpawn` | internal/process/supervisor.go:345-359 | A removed controller never spawns again when its record was gone at the removal, or every call on it had ended or could only be refused (lifecycle cancelled before its arbitration looked, or drain begun before its claim); in the first case the record never comes back. |
| `LaunchComeback.RemovedControllerCanSpawnAgain` | internal/process/supervisor.go:345-414 | The exact condition, for every removal in every run: some continuation of the run starts another process for the removed controller if and only if at the removal its record is stored and some call on it has neither ended nor can only be refused. |
| `LaunchComeback.RunsToProcess` | internal/process/supervisor.go:727-889 | From every reachable state in which a call on an idle controller (recorded, if it is a restart) waits before its claim, some continuation takes that call to a process. |
| `LaunchScript.Launches` | internal/process/supervisor.go:604-889 | A call that finds the model lock, the controller, a slot and the registry free runs from its lookup to its process, admission or restart, while nobody else moves. |
| `LaunchSettle.Settles` | internal/process/supervisor.go:475-2037 | Nothing blocks for ever: from every such state everybody else can come to rest, with every operation, lock, slot and wait() given back, while the call waits where it is and any chosen set of live processes goes on running. |
| `LaunchBacked.RunIsBacked` | internal/process/arbitration.go:154-279 | In every state of every run a held arbitration lock, ic.mu or lifecycleMu is held by a call or a stop that is at work under it, and a registered controller in flight has a launch that is starting it or a wait() that will see its exit. |
| `LaunchRace.RemovedControllerSpawnsAgain` | internal/process/supervisor.go:360-414 | The promise does fail: a concrete run in which the record was created after the cleanup had listed the records and a restart was under way, and the removed controller spawns again. |
| `LaunchCleanup.StaleWaitsFollowRollbacks` | internal/process/supervisor.go:1588-1598 | A wait() that was not the current run wrote the state only after a rollback of the same controller had completed a run early. |
| `LaunchStale.ProcessesCanConflict` | internal/process/arbitration.go:10-23 | The promise that no second live generation of a model with an incompatible owner can start fails, and exactly when: for every limit and every initial store some run reaches two live processes of one model, of two registered manual controllers, if and only if maxConcurrent is not one. In the run that is built a rollback completes its run before wait() has seen the exit, a restart succeeds, the late wait() writes its state, and an admission of the same model starts a second process. |
| `LaunchCollide.CollisionIsDecided` | internal/process/arbitration.go:10-23 | The exact condition for one live process, in every reachable state that is neither draining nor cancelled: some continuation in which it is still alive has a live process of an incompatible registered controller of its model if and only if maxConcurrent is not one and the process is unseen, or such a process is there already. Seen: its controller is registered, in flight with this very run, and no other launch of the controller has a wait() still to see its exit or a run about to be published. |
| `LaunchCollide.UnseenCanCollide` | internal/process/arbitration.go:189-279 | The constructive half: from every such state everybody else comes to rest while the unseen process goes on running, and a new admission of its model passes the scan and starts. |
| `LaunchSeen.NoCollisionAhead` | internal/process/arbitration.go:189-279 | The safe half, without any premise on drain or cancellation: as long as a seen process lives, no process that collides with it appears. |
| `LaunchSeen.CollisionsAreUnseen` | internal/process/arbitration.go:10-23 | Of two live processes of one model that collide, one is unseen in that very state. |
| `LaunchSeen.SeenForLife` | internal/process/supervisor.go:1545-2037 | Whether a live process is seen never changes while it lives, whatever steps are taken in between. |
| `LaunchSeen.StartDecides` | internal/process/supervisor.go:1545-1564 | It is settled by manager.Start: the process is seen exactly when its controller is registered at that moment and no other launch of the controller has a wait() that has still to see its exit. |
| `LaunchStale.RollsBack` | internal/process/supervisor.go:1625-1701 | A restart whose running record cannot be stored, with its process found gone, gives everything back and leaves its wait() behind. |
| `LaunchRuns.ArbitrationStepKeeps` | internal/process/arbitration.go:154-326 | Keeps the invariant and moves everything only forward: taking the arbitration lock, a refusal (shutdown, restart target, conflict, orphan, drain), the restart state contract, one scanned instance, the end of the scan and the orphan fence. |
| `LaunchArbitration.PublishKeeps` | internal/process/arbitration.go:247-279 | Keeps the invariant and moves everything only forward: publication of operation and claim, with registration and token for an admission; exclusivity is established here. |
| `LaunchRuns.PrepareStepKeeps` | internal/process/supervisor.go:475-491 | Keeps the invariant and moves everything only forward: lifecycleMu, revalidation, the wait for the previous run, the slot taken or given up, the pending record. |
| `LaunchRuns.StartStepKeeps` | internal/process/supervisor.go:1476-1623 | Keeps the invariant and moves everything only forward: commit C with and without drain, the starting record, manager.Start, the running record with its bounded retry, the failed start. |
| `LaunchRuns.RollbackStepKeeps` | internal/process/supervisor.go:1625-1701 | Keeps the invariant and moves everything only forward: rollback outcomes A to D, release and completion of the run, and the delete by id. |
| `LaunchRuns.AbortStepKeeps` | internal/process/supervisor.go:251-280 | Keeps the invariant and moves everything only forward: slot, record, registration and token of an aborted launch. |
| `LaunchRuns.FinishStepKeeps` | internal/process/supervisor.go:282-316 | Keeps the invariant and moves everything only forward: the return of startWithReservation, failUnspawnedController, forgetController and the exact-operation release. |
| `LaunchRuns.StopOldStepKeeps` | internal/process/supervisor.go:1832-1838 | Keeps the invariant and moves everything only forward: the stop program inside a restart. |
| `LaunchRuns.ProcessStepKeeps` | internal/process/supervisor.go:1924-2037 | Keeps the invariant and moves everything only forward: exit and reaping of a process, and wait() with its terminal record, its slot and its completion. |
| `LaunchStops.StopCallKeeps` | internal/process/supervisor.go:1704-1802 | Keeps the invariant and moves everything only forward: every point of a Stop call: refusal of pending, stopping, Manager.Stop, persist, wait for done, final persist. |
| `LaunchRuns.CallKeeps` | internal/process/supervisor.go:604-777 | Keeps the invariant and moves everything only forward: a new admission with its unpublished controller, a restart that looks its controller up before arbitration, a stop. |
| `LaunchCalls.CleanupKeeps` | internal/process/supervisor.go:360-414 | Keeps the invariant and moves everything only forward: every point of ForgetCleanedControllers. |
| `LaunchCalls.EnvironmentKeeps` | internal/process/supervisor.go:1144-1168 | Keeps the invariant and moves everything only forward: lifecycle cancellation, drain-start, deletion of terminal records, the second persist of a terminal state at shutdown, and writes to records of instances this supervisor did not create. |
| `ProcessManager.Manager.Start` | internal/process/manager.go:122-219 | Refused while a process is owned; success owns the new generation with a fresh channel and no stop request; a failure owns nothing, opens no channel, and marks the status failed only once execution was tried. |
| `ProcessManager.Manager.Stop` | internal/process/manager.go:223-286 | Request, graceful signal and the two waits: nil exactly when nothing was owned or the process exited with every signal accepted, and then nothing is owned; a context error leaves the process owned and stopping. |
| `ProcessManager.Manager.Kill` | internal/process/manager.go:297-309 | Already gone exactly when nothing is owned, else the kernel's answer; the state does not change. |
| `ProcessManager.Manager.Reaped` | internal/process/manager.go:373-434 | The waiting goroutine always finds its own process current, so it updates the status, gives up ownership and closes exactly its own channel. |
| `ProcessManager.Manager.ClosedOnce` | internal/process/manager.go:418-433 | Every generation's channel is closed at most once, and has been closed exactly when its process is no longer owned. |
| `ProcessManager.RequestedStopsAreNotFailures` | internal/process/supervisor.go:1939-1967 | A process asked to stop ends as exited whatever its code; it ends as failed exactly when neither stop nor signal ended it and its code is not zero, or there is none and the wait failed. |
| `ProcessManager.PersistWithRetry` | internal/process/supervisor.go:36-58 | At most three attempts, each made exactly when the earlier ones failed transiently and no cancellation came before it; success exactly when a made attempt stored the record. |
| `InstanceStore.Store.Create` | internal/storage/repository.go:1395-1420 | Draws an id for a record without one, replaces the first record of the id or appends; a failed save leaves the list as it was. |
| `InstanceStore.Store.Update` | internal/storage/repository.go:1346-1362 | NotFound exactly when no record has the id; a failed save changes nothing; otherwise exactly that record is replaced. |
| `InstanceStore.Store.DeleteTerminal` | internal/storage/repository.go:796-855 | Refuses exactly the unknown modes; otherwise keeps, in order, exactly the records the mode does not delete, reports their number, or changes nothing. |
| `InstanceStore.CleanupKeeps` | internal/storage/repository.go:811-843 | A record survives a cleanup exactly when the mode does not delete it; a record that is not terminal always survives. |
| `InstanceStore.CleanedRecordCannotBeUpdated` | internal/storage/repository.go:1346-1362 | After every record of an id is cleaned up an update of that id fails, which is what stops a removed controller from starting. |
| `ImportPlanner.PlanGraphImport` | internal/storage/import_plan.go:218-451 | The imperative planner (maps, intents, name holders, three passes) computes exactly the declarative verdicts, in order, with the blocked list, the create and update lists and coherent counters. |
| `ImportPlanner.NameHolders` | internal/storage/import_plan.go:262-293 | The holder map holds exactly the claims: each current repository name and each intended name of an entry that would write. |
| `ImportPlanner.Intents` | internal/storage/import_plan.go:273-289 | Each runtime of the bundle is a create, a restore or no write, an id claimed earlier in the bundle included. |
| `ImportPlanner.ClassifyRuntime` | internal/storage/import_plan.go:311-336 | Blocked exactly when another id claims the folded name and it would write; the counterpart is the smallest other claimant. |
| `ImportPlanner.ClassifyModel` | internal/storage/import_plan.go:357-392 | Unchanged without reference check, blocked by an unresolved or blocked runtime, update or new. |
| `ImportPlanner.ClassifyPipeline` | internal/storage/import_plan.go:400-447 | Unchanged, blocked by emptiness or by the first dangling entry, update or new. |
| `ImportPlanner.SmallestOther` | internal/storage/import_plan.go:456-468 | The lexicographically smallest other id, whatever order the map yields its keys in. |
| `ImportPlanner.Plan.Classify` | internal/storage/import_plan.go:234-247 | Appends the classification and keeps every per-type counter equal to the number of classifications of its status. |
| `ImportPlanner.Plan.MarkBlocked` | internal/storage/import_plan.go:132-153 | Re-statuses exactly the first planned entity of the kind and id, moves it between counters and reports it; says so when there is none. |
| `ImportPlanner.Plan.AddEscapedBlock` | internal/storage/import_plan.go:161-173 | Reports the block in any case, re-statusing a bundle entity when there is one; the counters stay coherent. |
| `ImportRules.Restatus` | internal/storage/import_plan.go:138-148 | Changing one status moves one unit between two counters of its type and touches no other counter. |
| `ImportRules.RestatusAgrees` | internal/storage/import_plan.go:126-153 | Total = created + updated + unchanged + blocked per type survives a block. |
| `Catalog.RestoredRuntime` | internal/storage/import_projection.go:83-89 | The restored record has the bundle's projection and keeps id, environment and creation time. |
| `Catalog.RestoredModel` | internal/storage/import_projection.go:91-99 | The same for a model. |
| `Catalog.RestoredPipeline` | internal/storage/import_projection.go:111-126 | The same for a pipeline, with the bundle's entry list and entry ids. |
| `Catalog.LastIndex` | internal/storage/import_plan.go:221-232 | The record a map filled in list order keeps for an id. |
| `ImportLaws.ChangedModelsResolve` | internal/storage/import_plan.go:341-393 | Every model an import adds or changes names a runtime of the resulting graph. |
| `ImportLaws.ChangedPipelinesResolve` | internal/storage/import_plan.go:397-448 | Every pipeline an import adds or changes is non-empty and each entry names a model of the resulting graph. |
| `ImportLaws.WrittenNameIsFree` | internal/storage/import_plan.go:298-304 | A runtime that is written is the only claimant of its folded name. |
| `ImportLaws.CollisionsAreInherited` | internal/storage/import_plan.go:199-213 | Two runtimes of the result collide by name if and only if the import wrote neither and they collided before. |
| `ImportLaws.ReplanIsUnchanged` | internal/storage/import_plan.go:187-197 | Planning an applied distinct-id bundle again classifies everything unchanged. |
| `ImportLaws.RuntimeAfterIs` | internal/storage/repository.go:1141-1161 | After the import the graph holds, for every unblocked runtime of the bundle, a record with the bundle's projection. |
| `ImportLaws.ModelAfterIs` | internal/storage/repository.go:1163-1183 | The same for models. |
| `ImportLaws.PipelineAfterIs` | internal/storage/repository.go:1185-1205 | The same for pipelines. |
| `ImportLaws.RuntimesKeepTheirPlace` | internal/storage/repository.go:1141-1155 | An existing runtime keeps index, id, environment and creation time; one the bundle does not name is the same record. |
| `ImportLaws.ModelsKeepTheirPlace` | internal/storage/repository.go:1163-1177 | The same for models. |
| `ImportLaws.PipelinesKeepTheirPlace` | internal/storage/repository.go:1185-1199 | The same for pipelines. |
| `ImportLaws.NewRecordsAreAppended` | internal/storage/repository.go:1156-1161 | What follows the existing records is exactly the new ones, in bundle order, stamped. |
| `ImportOrder.OrderIsIrrelevant` | internal/storage/import_plan.go:207-215 | Permuting the lists of the bundle or of the repository (distinct ids) leaves the set of verdicts, with reasons and counterparts, unchanged. |
| `Repository.JSONRepository.ImportGraph` | internal/storage/repository.go:1113-1237 | Conflict, nothing to write and escaped collision exactly under their conditions; in all of them, and on a failed save, the three lists are as before; otherwise the state is exactly the applied plan. |
| `Repository.JSONRepository.ComposeGraph` | internal/storage/repository.go:1138-1205 | Composes the resulting lists without touching the repository's own; an update always finds its record. |
| `Repository.JSONRepository.WithAllocatedEntryIds` | internal/storage/repository.go:1260-1271 | Each empty entry id gets the next generated one, in order; nothing else changes but the time stamps. |
| `Repository.Compose` | internal/storage/repository.go:1141-1161 | Each update replaces the last record of its id, creates are appended, an unknown id is reported. |
| `Repository.RuntimeNameConflicts` | internal/storage/repository.go:1278-1326 | Reports every runtime that shares a folded name with another id and no other, ordered by name and id, with the smallest other id as counterpart. |
| `Repository.CollisionIsReported` | internal/storage/repository.go:1207-1215 | The pre-write check finds something exactly when two runtimes of the graph collide. |
| `Repository.ReportEscaped` | internal/storage/repository.go:1210-1215 | Every found conflict becomes one blocked entity of the plan, in order, with coherent counters. |
| `Repository.BlockedIsReported` | internal/storage/import_plan.go:115-116 | HasBlocked holds exactly when some verdict is blocked. |
| `Repository.MutationIsCounted` | internal/storage/import_plan.go:118-124 | Without blocks WillMutate holds exactly when some verdict is not unchanged. |
| `Portable.ValidateBundle` | internal/application/portable/portable.go:163-286 | Accepts exactly the well-formed bundles: ids present and distinct, references inside the bundle, names and executables present, variable syntax, unique folded runtime names. |
| `Portable.BuildBundle` | internal/application/portable/export.go:168-214 | The loops build the bundle of the graph, record by record. |
| `Portable.ConvertBundle` | internal/application/portable/import.go:162-214 | The loops convert the bundle back to records. |
| `PortableExport.ExportGraph` | internal/application/portable/export.go:38-126 | Refuses more than one root; fails otherwise exactly when the root or something it needs is missing, and in a repository with closed references only for a missing root; carries the first record of each needed id, once, in order of first use. |
| `PortableExport.ModelsOf` | internal/application/portable/export.go:84-94 | The first record of each model the entries name, once, in order of first use; fails exactly when one is missing, and names it. |
| `PortableExport.RuntimesOf` | internal/application/portable/export.go:96-106 | The first record of each runtime the models name, once, in order of first use; fails exactly when one is missing, and names it. |
| `PortableExport.ExportPipeline` | internal/application/portable/export.go:75-106 | A pipeline export succeeds exactly when every model its entries name and the runtime of each are there; it is closed and part of the repository. |
| `PortableLaws.ExportOfSelfIsUnchanged` | internal/application/portable/export.go:108-123 | An export of everything planned against its own repository writes nothing. |
| `PortableLaws.ExportOfPartIsUnchanged` | internal/application/portable/export.go:54-106 | So does an export of any part of it. |
| `PortableLaws.ScopedExportIsAccepted` | internal/application/portable/portable.go:163-286 | A scoped export of a repository whose full export is accepted is itself accepted, and importing it back writes nothing. |
| `PortableLaws.ExportIntoEmptyIsNew` | internal/application/portable/import.go:162-214 | Planned against an empty repository it is all new if and only if folded runtime names are unique, references resolve and no pipeline is empty. |
| `PortableLaws.ExportIntoEmptyRestores` | internal/storage/import_projection.go:18-52 | Then the new repository holds the exported records, in order, with equal ids and projections. |
| `PortableImport.BlocksHaveRootCauses` | internal/storage/import_plan.go:199-213 | A validated bundle is blocked if and only if some runtime's name is taken or some pipeline to be written is empty. |
| `PortableImport.BlockedModelHasCause` | internal/storage/import_plan.go:347-355 | A blocked model of a validated bundle depends on a runtime of the bundle whose name is taken, and reports it. |
| `PortableImport.BlockedPipelineHasCause` | internal/storage/import_plan.go:400-411 | A blocked pipeline of a validated bundle is empty or reports a blocked model of the bundle. |
| `PortableImport.ImportBundle` | internal/application/portable/import.go:67-105 | Invalid bundles are refused; a dry run and every error leave the repository as it was; success means the bundle was applied or there was nothing to write; a conflict is reported exactly when the plan is blocked or the resulting graph has a name collision; the reported counts and blocked list are those of the verdicts, except after a collision found late, when the list is exactly the colliding runtimes. |
| `PortableImport.NothingIsWrittenWhenHeld` | internal/storage/import_plan.go:294-451 | A distinct-id import writes nothing if and only if the repository already holds every record of the bundle with an equal projection. |
| `PortableImport.SecondImportWritesNothing` | internal/application/portable/import.go:67-105 | Importing an accepted bundle again, at any later time, is not blocked and writes nothing. |
| `Resolver.ResolveString` | internal/domain/varresolve.go:64-104 | The index loop, fast path included, computes the recursive resolution. |
| `Resolver.ResolvesByTokens` | internal/domain/varresolve.go:61-104 | A string resolves to v if and only if it has a token reading (plain, $$, lone $, ${NAME}) whose value is v. |
| `Resolver.MalformedByTokens` | internal/domain/varresolve.go:79-87 | A string is rejected as malformed if and only if a malformed reference follows a reading whose references are all defined. |
| `Resolver.ReadingIsResolved` | internal/domain/varresolve.go:72-102 | Resolution replaces a reading by its value or stops at its first undefined reference, whatever follows. |
| `Resolver.Read` | internal/domain/varresolve.go:72-102 | Every string has a reading up to its end or up to its first malformed reference. |
| `Resolver.DoublingIsUndone` | internal/domain/varresolve.go:74-78 | A string with every dollar doubled resolves to the original, for every source. |
| `Resolver.PlainTextIsItself` | internal/domain/varresolve.go:65-67 | The fast path is right: text without dollars is its own value. |
| `Resolver.IsValidVarName` | internal/domain/varresolve.go:43-59 | Accepts exactly the names of the grammar. |
| `Resolver.ResolveArgs` | internal/domain/varresolve.go:126-153 | Succeeds exactly when every argument resolves, with each argument's value in place; otherwise reports the first failure. The input is not changed. |
| `Resolver.ValidateVariableSyntax` | internal/application/portable/portable.go:151-159 | Rejects exactly what the always-defined source makes malformed. |
| `Resolver.SyntaxCheckIsExact` | internal/application/portable/portable.go:139-159 | The check accepts exactly the strings no source can make the resolver reject as malformed; what it rejects is an error for every source. |
| `Argv.ParseArgs` | internal/webui/static/app.js:456-487 | The index loop computes the recursive scan. |
| `Argv.RoundTrip` | internal/webui/static/app.js:489-502 | parseArgs(renderArgs(args)) = args if and only if every token is empty, contains a space, quote, tab or newline, or contains no white space at all. |
| `Argv.CarriageReturnIsLost` | internal/webui/static/app.js:489-490 | The documented guarantee does not hold for a token whose only white space is a carriage return. |
| `Argv.PrintedIsRead` | internal/webui/static/app.js:493-502 | Reading a printed list yields, for every list, the pieces of each token in order. |
| `Argv.QuotedIsRead` | internal/webui/static/app.js:465-474 | Inside quotes an escaped token is read back as itself. |
| `Argv.SpacesLost` | internal/webui/static/app.js:478-479 | The round trip loses exactly the white space of the tokens that are not kept, so none if and only if every token is kept. |
| `OrphanKill.Supervisor.KillOrphan` | internal/process/supervisor_kill.go:92-135 | For arbitrary answers: every signal follows a strict check with no signal between; terminated means an accepted signal and then an observed absence; reconciled means no signal was accepted and the absence was observed, or nothing was sent and there was no pid or the liveness probe failed; the record becomes stale exactly on a persisted success and keeps its state otherwise. |
| `OrphanKill.Supervisor.VerifyAndKill` | internal/process/supervisor_kill.go:113-135 | No signal without a pid, a live probe and a confirmed identity; which observation stands behind a reconciliation. |
| `OrphanKill.Supervisor.KillOrphanUnix` | internal/process/supervisor_kill.go:141-186 | At most two signals, the second only after a fresh strict check; every result is justified by the history. |
| `OrphanKill.Supervisor.ConfirmOrForce` | internal/process/supervisor_kill.go:148-170 | After an accepted SIGTERM: terminated on an observed absence, otherwise at most one more signal, after a fresh strict check. |
| `OrphanKill.Supervisor.ForceAndConfirm` | internal/process/supervisor_kill.go:191-216 | Success is attributed to SIGKILL only when it was accepted, else to the delivered SIGTERM. |
| `OrphanKill.Supervisor.KillOrphanWindows` | internal/process/supervisor_kill.go:222-245 | One forced signal, never a graceful one. |
| `OrphanKill.Supervisor.CheckIdentity` | internal/process/supervisor_kill.go:69-86 | Confirmed exactly when the probed identity passes the strict comparison, start times on both sides required. |
| `OrphanKill.Supervisor.PollGone` | internal/process/supervisor_kill.go:250-269 | Gone exactly when the last poll says so, after polls that all found the process alive; an error exactly on a failed probe or on a cancellation seen while the window is open; sends nothing. |
| `OrphanKill.Supervisor.FinishKill` | internal/process/supervisor_kill.go:272-287 | Stale with its reason when the update succeeds, else the record is unchanged and the kill failed. |
| `OrphanKill.Supervisor.RefuseKill` | internal/process/supervisor_kill.go:291-301 | The refusal is recorded and the state stays; a failed update changes nothing. |
| `OrphanKill.SignalsAreSeparatedByChecks` | internal/process/supervisor_kill.go:88-135 | Before each signal, and between any two, the identity was confirmed. |
| `DurableWrite.Disk.WriteFileDurable` | internal/fsutil/fsutil.go:86-114 | At every crash point the file is one it could have been or the complete data; nil means only the new data can be found; where data that could not be found before can be found over a file the existence check saw, path.bak can only be the complete old value; a check that fails leaves path.bak as it was. |
| `DurableWrite.Disk.Prepare` | internal/fsutil/fsutil.go:87-107 | After the temporary file is verified and the target backed up, the backup is durable; a failure leaves the target alone. |
| `DurableWrite.Disk.Publish` | internal/fsutil/fsutil.go:109-113 | Every point of the rename and sync leaves the old or the complete new file. |
| `DurableWrite.Disk.CopyFileAtomic` | internal/fsutil/fsutil.go:43-74 | Success means a crash can only leave the copy under dst; only dst and dst.tmp are touched. |
| `DurableWrite.Disk.WriteSynced` | internal/fsutil/fsutil.go:116-136 | Success means a complete synced file; only its own name is touched. |
| `DurableWrite.FileIsAlwaysComplete` | internal/fsutil/fsutil.go:83-86 | Over any sequence of writes and crashes at any points, path holds what it could be at first or one complete requested value. |
| `DurableWrite.CrashEndsWrite` | internal/fsutil/fsutil.go:86-114 | A call cut off at any of its points by a power failure is one write of such a sequence (WriteFileDurable gives the episode of the uncut call). |
| `DurableWrite.CrashIsPossible` | internal/fsutil/fsutil.go:83-86 | In every valid state a crash has some outcome. |
| `DurableWrite.FailedStatSkipsBackup` | internal/fsutil/fsutil.go:101-107 | A run in which the existence check fails on an existing file ends in a durable new file and no backup. |
| `DurableWrite.RenamedMayHold` | internal/fsutil/fsutil.go:109-109 | A rename adds the source's content to what the target may hold and touches no third name. |
| `DurableWrite.DirSyncedMayHold` | internal/fsutil/fsutil.go:26-39 | A directory sync leaves what programs read as the only possibility. |
| `DurableWrite.BootedIsReady` | internal/fsutil/fsutil.go:86-114 | After a crash and restart the next write's preconditions hold again. |
| `DurableWrite.Disk.Restart` | internal/fsutil/fsutil.go:86-114 | Whatever was found on the disk, the restarted file system holds exactly that and is ready for the next write. |
| `RateLimiter.Limiter.Allow` | internal/webui/security/ratelimit.go:41-55 | A first request, or one whose window has elapsed, opens a window and is allowed; a refusal changes nothing; other keys are untouched; counts stay between 1 and max(limit, 1). On a clock that never goes back a refusal means that limit requests of the key were allowed within the last window, and no interval of one window ever holds more than 2·max(limit, 1). |
| `RateLimiter.Limiter.Cleanup` | internal/webui/security/ratelimit.go:67-76 | Removes exactly the elapsed buckets, in any visiting order, and keeps the limiter consistent with its history. |
| `RateLimiter.RateIsBounded` | internal/webui/security/ratelimit.go:10-12 | With a non-decreasing clock any half-open interval of one window holds at most 2·max(limit, 1) allowed requests of a key. |
| `RateLimiter.RefusalsAreEarned` | internal/webui/security/ratelimit.go:50-52 | A request is refused only when limit requests of its key were allowed within the last window. |
| `RateLimiter.CleanupIsHarmless` | internal/webui/security/ratelimit.go:66-76 | Cleanups at any points change the answer to no request. |
| `PipelineStop.StopTargets` | internal/application/pipeline_service.go:361-405 | Per entry its own in-flight instances and, for the first entry of a model, the unattributed ones of that model. |
| `PipelineStop.TargetsPartition` | internal/application/pipeline_service.go:355-360 | An instance is stopped exactly once when it is in flight, owned, and names a listed entry or no entry and a listed model; never otherwise. |
| `PipelineStop.TargetsAreInstances` | internal/application/pipeline_service.go:388-403 | Nothing but such instances appears in a target list. |
| `PipelineStop.PipelineService.StopEntry` | internal/application/pipeline_service.go:524-543 | Every target gets one stop call; each is reported under the answer it got. |
| `PipelineStop.PipelineService.StopAll` | internal/application/pipeline_service.go:349-352 | Entries are stopped in reverse order, each fully, whatever the answers. |
| `PipelineStop.PipelineService.StopPipeline` | internal/application/pipeline_service.go:337-353 | The group succeeds exactly when every stop call it made succeeded. |
| `PipelineStop.PipelineService.RestartPipeline` | internal/application/pipeline_service.go:411-433 | All stops in reverse order, then all starts in order whatever the stops answered; success exactly when no stop failed and shutdown refused no start. |
| `PipelineStop.FailuresAreReported` | internal/application/pipeline_failures.go:101-120 | Some report lists a failure exactly when one of the calls made was answered with one. |
| `PipelineStop.ReportsPartition` | internal/application/pipeline_service.go:526-541 | The stopped and the failed instances of an entry together are its targets. |

## Left out

- AdmissionsAreCompatible: about registered controllers; a restart publishes without rechecking that its controller is still registered.
- LiveProcessesAreCompatible: about registered, conflict-visible controllers; what can happen to the others is `LaunchCollide.CollisionIsDecided`.
- CollisionIsDecided: under drain or cancellation only the safe half is proved (`LaunchSeen.NoCollisionAhead`); whether a call that is already past its commit can still start a second process there is not characterised.
- RunInv: a state machine over values, not Go objects. Mutexes are modelled as the regions they guard; a scan of the registry or of the records reads one entry per step or one snapshot.
- SuccessWasDurable: the PID and the start time of a generation are one identity, not two values.
- ProcessStepKeeps: in the launch protocol the Manager is the `process` field of its controller (`ProcessManager` is the Manager itself); a process that `AfterStart` kills inside manager.Start counts as a failed start, and exit codes and exit classes are one nondeterministic answer.
- CallKeeps: an admission passes the owner its instance is attributed to, as the callers do; an owner that disagrees with the instance is not modelled.
- LastError, time stamps, log forwarding, audit events and error texts of the launch path.
- FinishStepKeeps: the release of the operation and, for a restart, of lifecycleMu are one step.
- Stop: the waits of Manager.Stop are answers, log events are left out, and the caller's lock is what keeps a new start from coming between.
- `RemoveTerminal`, `PreflightRestart`, the test seams and the mode without a store.
- `Recover` and `DismissOrphan`: any write to records of foreign instances is allowed instead (`EnvironmentKeeps`).
- StopCallKeeps: the 15-second limit of a stop is a cancellation at any moment.
- KillOrphan: the record read at the start is the one written back; concurrent writers of the same record are not modelled, nor is the mode without store or prober. The polling window is a bound on the number of polls.
- WriteFileDurable: POSIX model with a single writer; the directory sync that is a no-op on Windows, permission bits and parent directory creation are left out. A failing existence check on an existing file skips the backup, as in the code; `sawTarget` tells.
- ImportGraph: a save is an atomic success or failure; lists are sequences of values, so pointer identity of untouched records is equality.
- ValidateBundle: says whether a bundle is valid, not which of several faults is reported.
- ImportBundle: the snapshot of a dry run is one state; environment keys, format and version, and JSON text are left out.
- RestoredPipeline: an absent argument list and an empty one are the same value.
- RestartPipeline: a start is one call with one answer; the mapping of its refusals to per-entry outcomes is left out, as is a pipeline or model that does not exist.
- RateIsBounded: time is an integer and never goes back.
- ResolveString: text is a sequence of characters, not bytes.
- `ResolveStringField`, `ResolveEnvValues` and the Lookup sources, which add only field names to errors and map plumbing.
- Schema migrations, JSON encoding, HTTP handlers, sessions, the process layer of the operating system and the user interface other than the two argument functions.
