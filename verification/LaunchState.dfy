/** The shared state of the launch supervisor.

Every call of AdmitAndStart or Restart is one `Launch`. The call mints at most one operation, one
spawn claim, one slot reservation, one run, one OS process and one wait() goroutine, so all of
them are parts of the launch and are named by its identifier. A `Controller` is the in-memory
object that several launches of the same instance share. */
module LaunchState {
  import opened Wrappers

  type LaunchId = int
  type ControllerId = int
  type StopId = int
  type CleanerId = int
  type InstanceId = int
  type ModelId = int

  datatype Owner = Manual | Pipeline(pipelineId: string, entryId: string)

  datatype Phase = Pending | Starting | Running | Stopping | Exited | Failed | Unknown | Stale | Orphan
  {
    predicate InFlight() { Pending? || Starting? || Running? || Stopping? }
    predicate Terminal() { Exited? || Failed? || Stale? }
  }

  /** A durable instance record. `identity` names the generation whose PID and start time it carries. */
  datatype Record = Record(modelId: ModelId, phase: Phase, identity: Option<LaunchId>)

  /** The published launch operation; its claim pointer is the identity of the launch. */
  datatype Operation = Operation(id: int, owner: Owner, claim: LaunchId)

  datatype SpawnClaim = SpawnClaim(modelId: ModelId, owner: Owner, instanceId: InstanceId, opId: int, restart: bool, consumed: bool)

  /** Goroutines that can hold a mutex of a controller. */
  datatype Holder = LaunchHolder(launch: LaunchId) | StopHolder(stop: StopId)

  datatype Controller = Controller(
    instanceId: InstanceId,
    modelId: ModelId,
    pipelineId: string,
    entryId: string,
    creator: LaunchId,              // the admission that allocated the controller
    born: bool,                     // it has been in the registry
    phase: Phase,
    identity: Option<LaunchId>,     // the generation whose PID and start time are recorded
    active: Option<Operation>,
    run: Option<LaunchId>,
    preSpawnToken: bool,
    process: Option<LaunchId>,      // the process the Manager owns (cmd and control)
    mu: Option<Holder>,
    lifecycleMu: Option<Holder>,
    clobbered: bool)                // history: a wait() that was not the current run wrote the state
  {
    /** The owner a restart derives from its target; None when it cannot be reconstructed. */
    function InstanceOwner(): Option<Owner> {
      if pipelineId == "" then Some(Manual)
      else if entryId == "" then None
      else Some(Pipeline(pipelineId, entryId))
    }

    /** Conflict-visible to arbitration. */
    predicate Visible() { phase.InFlight() || active.Some? }
  }

  /** The program of one stop, run by a Stop call or inside a restart. */
  datatype StopPc = Mark | LockMu | ManagerStop | PersistStopping(signalled: bool) | AwaitDone(signalled: bool) | Final(signalled: bool)

  datatype Pc =
    // arbitration
    | ArbWait | ArbCheck | Scan(todo: set<InstanceId>) | Fence | Publish
    // admission: slot, record, lifecycle lock; restart: lifecycle lock, stop or wait, slot
    | Lifecycle | Revalidate | StopOld(stop: StopPc) | AwaitRun(previous: LaunchId) | Slot | Create
    // startCore
    | Commit | PersistStarting | Spawn | PersistSpawnFailure | PersistRunning(attempt: int)
    | RollbackKill | ConfirmExit | PersistRolledBack
    | RunRelease(forget: bool) | RunComplete(forget: bool) | RunForget
    // abortPreSpawnCleanup
    | AbortRelease | AbortFail | AbortForget | AbortToken
    // after startCore
    | Returned | FailUnspawned | PersistUnspawned | Forget | ReleaseOp | Done

  /** What startCore returned. */
  datatype Outcome = NotReturned | Success | Residual | Aborted | Error(persistenceFailure: bool)

  datatype Process = NoProcess | Alive | Dead | Reaped

  /** The wait() goroutine of one run. */
  datatype Waiter = NoWaiter | Waiting | PersistTerminal(record: Record, attempt: int) | NoteFailure | ReleaseSlot | Complete | Finished

  datatype Launch = Launch(
    controller: ControllerId,
    owner: Owner,
    restart: bool,
    pc: Pc,
    claim: Option<SpawnClaim>,
    slot: bool,          // the reservation holds a semaphore token
    started: bool,       // the run exists
    done: bool,          // run.done is closed
    rolledBack: bool,    // rollback outcome A or B: the exit was confirmed and the run completed early
    process: Process,
    waiter: Waiter,
    outcome: Outcome,
    committed: bool,     // history: passed commit C
    spawns: int,         // history: processes started by manager.Start
    tokens: int)         // history: pre-spawn tokens consumed

  datatype StopCallPc = StopLock | StopRun(stop: StopPc) | StopUnlock | StopDone

  datatype StopCall = StopCall(controller: ControllerId, pc: StopCallPc)

  datatype Cleaner = ListRecords | ScanRegistry(durable: set<InstanceId>) | Remove(candidates: set<(InstanceId, ControllerId)>) | Cleaned

  datatype State = State(
    maxConcurrent: nat,
    controllers: map<ControllerId, Controller>,
    launches: map<LaunchId, Launch>,
    stops: map<StopId, StopCall>,
    cleaners: map<CleanerId, Cleaner>,
    registry: map<InstanceId, ControllerId>,
    arbLocks: map<ModelId, LaunchId>,
    opSeq: int,
    draining: bool,
    preSpawnInFlight: int,
    zeroSig: bool,
    cancelled: bool,
    free: int,
    durable: map<InstanceId, Record>,
    written: set<(InstanceId, Record)>)   // history: every record a store call made durable

  function Initial(maxConcurrent: nat, durable: map<InstanceId, Record>): State {
    State(maxConcurrent, map[], map[], map[], map[], map[], map[], 0, false, 0, false, false, maxConcurrent, durable, {})
  }
}
