/** The atomic steps of the launch supervisor: one step per lock region or foreign call.

A step is a relation between two states. Every answer of the store, the kernel and the contexts is
an argument of the step. */
module LaunchSteps {
  import opened Wrappers
  import opened LaunchState

  const PersistRetryAttempts: int := 3

  /** The answer a step receives from outside. `Quit` is a cancelled context or a permanent error. */
  datatype Answer = Ok | Fail | Quit | Visit(id: InstanceId)

  /* ---- helpers ---- */

  predicate Known(s: State, l: LaunchId) { l in s.launches && s.launches[l].controller in s.controllers }

  function RecordOf(c: Controller): Record { Record(c.modelId, c.phase, c.identity) }

  /** store.Update fails for a record that does not exist. */
  predicate CanUpdate(s: State, id: InstanceId, a: Answer) { a.Ok? ==> id in s.durable }

  function Stored(s: State, id: InstanceId, record: Record, a: Answer): map<InstanceId, Record> {
    if a.Ok? then s.durable[id := record] else s.durable
  }

  function Logged(s: State, id: InstanceId, record: Record, a: Answer): set<(InstanceId, Record)> {
    if a.Ok? then s.written + {(id, record)} else s.written
  }

  function Released(s: State, launch: Launch): int { if launch.slot then s.free + 1 else s.free }

  /** The token counter after the token of c is consumed, if c has one. */
  function Drained(s: State, c: Controller): int { if c.preSpawnToken then s.preSpawnInFlight - 1 else s.preSpawnInFlight }

  /** signalPreSpawnZeroLocked after the token of c is consumed. */
  predicate Signalled(s: State, c: Controller) { s.zeroSig || (c.preSpawnToken && s.draining && s.preSpawnInFlight == 1) }

  /** The compatibility matrix of a new claim against an existing instance. */
  predicate Compatible(owner: Owner, existing: Controller) {
    match owner
    case Manual => false
    case Pipeline(p, e) =>
      existing.pipelineId != "" && existing.pipelineId == p && existing.entryId != "" && existing.entryId != e
  }

  predicate Conflicts(s: State, launch: Launch, id: InstanceId) {
    && launch.controller in s.controllers
    && id in s.registry && s.registry[id] in s.controllers
    && id != s.controllers[launch.controller].instanceId
    && var other := s.controllers[s.registry[id]];
    && other.modelId == s.controllers[launch.controller].modelId
    && other.Visible()
    && !Compatible(launch.owner, other)
  }

  /** checkRestartTarget. */
  predicate RestartTarget(c: Controller) {
    (c.phase.Running? || c.phase.Stopping? || c.phase.Exited? || c.phase.Failed?) && c.active.None?
  }

  /** consumeSpawnClaimLocked accepts the claim. */
  predicate ClaimAccepted(l: LaunchId, launch: Launch, c: Controller) {
    && launch.claim.Some?
    && var claim := launch.claim.value;
    && claim.modelId == c.modelId && claim.instanceId == c.instanceId
    && c.active.Some?
    && c.active.value.claim == l && c.active.value.id == claim.opId && c.active.value.owner == claim.owner
    && !claim.consumed
  }

  predicate Consumed(launch: Launch) { launch.claim.Some? && launch.claim.value.consumed }

  function Spent(launch: Launch): Launch
    requires launch.claim.Some?
  { launch.(claim := Some(launch.claim.value.(consumed := true))) }

  /** Where a launch continues once startCore has returned. */
  function AfterStart(launch: Launch): Pc { if launch.restart then ReleaseOp else Returned }

  predicate OrphanRecorded(s: State, m: ModelId) {
    exists id :: id in s.durable && s.durable[id].modelId == m && s.durable[id].phase.Orphan?
  }

  /* ---- arbitration ---- */

  predicate AcquireArbitration(s: State, l: LaunchId, s': State) {
    && Known(s, l) && s.launches[l].pc.ArbWait?
    && var launch := s.launches[l]; var c := s.controllers[launch.controller];
    && c.modelId !in s.arbLocks
    && s' == s.(launches := s.launches[l := launch.(pc := ArbCheck)], arbLocks := s.arbLocks[c.modelId := l])
  }

  /** A refusal releases the lock and ends the call. */
  predicate Reject(s: State, l: LaunchId, a: Answer, s': State) {
    && Known(s, l)
    && var launch := s.launches[l]; var c := s.controllers[launch.controller];
    && (match launch.pc
        case ArbCheck => s.cancelled || (launch.restart && !RestartTarget(c))
        case Scan(todo) => a.Visit? && a.id in todo && Conflicts(s, launch, a.id)
        case Fence => OrphanRecorded(s, c.modelId)
        case Publish => c.mu.None? && s.draining
        case _ => false)
    && s' == s.(launches := s.launches[l := launch.(pc := Done)], arbLocks := s.arbLocks - {c.modelId},
                opSeq := if launch.pc.Publish? then s.opSeq + 1 else s.opSeq)
  }

  predicate CheckTarget(s: State, l: LaunchId, s': State) {
    && Known(s, l) && s.launches[l].pc.ArbCheck?
    && var launch := s.launches[l]; var c := s.controllers[launch.controller];
    && !s.cancelled && (launch.restart ==> RestartTarget(c))
    && s' == s.(launches := s.launches[l := launch.(pc := Scan(s.registry.Keys))])
  }

  predicate Examine(s: State, l: LaunchId, a: Answer, s': State) {
    && Known(s, l) && s.launches[l].pc.Scan? && a.Visit? && a.id in s.launches[l].pc.todo
    && var launch := s.launches[l];
    && !Conflicts(s, launch, a.id)
    && s' == s.(launches := s.launches[l := launch.(pc := Scan(launch.pc.todo - {a.id}))])
  }

  /** The scan is over, then the orphan fence; a failed read of the records lets the claimant pass. */
  predicate Pass(s: State, l: LaunchId, a: Answer, s': State) {
    && Known(s, l)
    && var launch := s.launches[l]; var c := s.controllers[launch.controller];
    && (launch.pc == Scan({}) || (launch.pc.Fence? && (a.Fail? || !OrphanRecorded(s, c.modelId))))
    && s' == s.(launches := s.launches[l := launch.(pc := if launch.pc.Fence? then Publish else Fence)])
  }

  /** publishClaimLocked: the linearization point of arbitration. */
  predicate PublishClaim(s: State, l: LaunchId, s': State) {
    && Known(s, l) && s.launches[l].pc.Publish?
    && var launch := s.launches[l]; var c := s.controllers[launch.controller];
    && c.mu.None? && !s.draining
    && var claim := SpawnClaim(c.modelId, launch.owner, c.instanceId, s.opSeq + 1, launch.restart, false);
    && var op := Operation(s.opSeq + 1, launch.owner, l);
    && (if launch.restart then
          s' == s.(opSeq := s.opSeq + 1, arbLocks := s.arbLocks - {c.modelId},
                   launches := s.launches[l := launch.(pc := Lifecycle, claim := Some(claim))],
                   controllers := s.controllers[launch.controller := c.(active := Some(op))])
        else
          s' == s.(opSeq := s.opSeq + 1, arbLocks := s.arbLocks - {c.modelId},
                   launches := s.launches[l := launch.(pc := Slot, claim := Some(claim))],
                   controllers := s.controllers[launch.controller := c.(active := Some(op), preSpawnToken := true, born := true)],
                   registry := s.registry[c.instanceId := launch.controller],
                   preSpawnInFlight := s.preSpawnInFlight + 1))
  }

  /* ---- from the claim to commit C ---- */

  predicate EnterLifecycle(s: State, l: LaunchId, s': State) {
    && Known(s, l) && s.launches[l].pc.Lifecycle?
    && var launch := s.launches[l]; var c := s.controllers[launch.controller];
    && c.lifecycleMu.None?
    && s' == s.(launches := s.launches[l := launch.(pc := if launch.restart then Revalidate else Commit)],
                controllers := s.controllers[launch.controller := c.(lifecycleMu := Some(LaunchHolder(l)))])
  }

  /** revalidateOperation, then the one view load that decides between stop, wait and start. */
  predicate RevalidateOperation(s: State, l: LaunchId, s': State) {
    && Known(s, l) && s.launches[l].pc.Revalidate?
    && var launch := s.launches[l]; var c := s.controllers[launch.controller];
    && var owned := c.active.Some? && launch.claim.Some? && c.active.value.claim == l && c.active.value.id == launch.claim.value.opId;
    && s' == s.(launches := s.launches[l := launch.(pc :=
                  if !owned then ReleaseOp else if c.phase.Running? then StopOld(Mark) else if c.run.Some? then AwaitRun(c.run.value) else Slot)])
  }

  predicate AwaitPrevious(s: State, l: LaunchId, a: Answer, s': State) {
    && Known(s, l) && s.launches[l].pc.AwaitRun?
    && var launch := s.launches[l];
    && (a.Quit? || (launch.pc.previous in s.launches && s.launches[launch.pc.previous].done))
    && s' == s.(launches := s.launches[l := launch.(pc := if a.Quit? then ReleaseOp else Slot)])
  }

  /** acquireSlot. */
  predicate TakeSlot(s: State, l: LaunchId, s': State) {
    && Known(s, l) && s.launches[l].pc.Slot?
    && var launch := s.launches[l];
    && (s.maxConcurrent == 0 || s.free > 0)
    && s' == s.(launches := s.launches[l := launch.(pc := if launch.restart then Commit else Create, slot := s.maxConcurrent > 0)],
                free := if s.maxConcurrent > 0 then s.free - 1 else s.free)
  }

  predicate GiveUpSlot(s: State, l: LaunchId, s': State) {
    && Known(s, l) && s.launches[l].pc.Slot? && s.maxConcurrent > 0
    && var launch := s.launches[l];
    && s' == s.(launches := s.launches[l := launch.(pc := if launch.restart then ReleaseOp else AbortRelease)])
  }

  predicate CreateRecord(s: State, l: LaunchId, a: Answer, s': State) {
    && Known(s, l) && s.launches[l].pc.Create?
    && var launch := s.launches[l]; var c := s.controllers[launch.controller];
    && s' == s.(launches := s.launches[l := launch.(pc := if a.Ok? then Lifecycle else AbortRelease)],
                durable := Stored(s, c.instanceId, RecordOf(c), a), written := Logged(s, c.instanceId, RecordOf(c), a))
  }

  /* ---- startCore ---- */

  /** Commit C: the claim is validated and spent before the drain latch is read. */
  predicate CommitSpawn(s: State, l: LaunchId, s': State) {
    && Known(s, l) && s.launches[l].pc.Commit?
    && var launch := s.launches[l]; var c := s.controllers[launch.controller];
    && c.mu.None? && ClaimAccepted(l, launch, c) && !s.draining
    && s' == s.(launches := s.launches[l := Spent(launch).(pc := PersistStarting, committed := true,
                                                          tokens := if c.preSpawnToken then launch.tokens + 1 else launch.tokens)],
                controllers := s.controllers[launch.controller := c.(phase := Starting, preSpawnToken := false, mu := Some(LaunchHolder(l)))],
                preSpawnInFlight := Drained(s, c), zeroSig := Signalled(s, c))
  }

  predicate CommitAfterDrain(s: State, l: LaunchId, s': State) {
    && Known(s, l) && s.launches[l].pc.Commit?
    && var launch := s.launches[l]; var c := s.controllers[launch.controller];
    && c.mu.None? && ClaimAccepted(l, launch, c) && s.draining
    && s' == s.(launches := s.launches[l := Spent(launch).(pc := AbortRelease)])
  }

  predicate ClaimRejected(s: State, l: LaunchId, s': State) {
    && Known(s, l) && s.launches[l].pc.Commit?
    && var launch := s.launches[l]; var c := s.controllers[launch.controller];
    && c.mu.None? && !ClaimAccepted(l, launch, c)
    && s' == s.(launches := s.launches[l := launch.(pc := AfterStart(launch), outcome := Error(false))])
  }

  /** The new run is published and the starting state is persisted. */
  predicate PersistStartingState(s: State, l: LaunchId, a: Answer, s': State) {
    && Known(s, l) && s.launches[l].pc.PersistStarting?
    && var launch := s.launches[l]; var c := s.controllers[launch.controller];
    && CanUpdate(s, c.instanceId, a)
    && s' == s.(launches := s.launches[l := launch.(pc := if a.Ok? then Spawn else RunRelease(true), started := true)],
                controllers := s.controllers[launch.controller := c.(run := Some(l), mu := if a.Ok? then c.mu else None)],
                durable := Stored(s, c.instanceId, RecordOf(c), a), written := Logged(s, c.instanceId, RecordOf(c), a))
  }

  /** manager.Start; the Manager refuses while it still owns a process. */
  predicate SpawnProcess(s: State, l: LaunchId, s': State) {
    && Known(s, l) && s.launches[l].pc.Spawn?
    && var launch := s.launches[l]; var c := s.controllers[launch.controller];
    && c.process.None?
    && s' == s.(launches := s.launches[l := launch.(pc := PersistRunning(0), process := Alive, spawns := launch.spawns + 1)],
                controllers := s.controllers[launch.controller := c.(process := Some(l), identity := Some(l), phase := Running)])
  }

  predicate SpawnFails(s: State, l: LaunchId, s': State) {
    && Known(s, l) && s.launches[l].pc.Spawn?
    && var launch := s.launches[l]; var c := s.controllers[launch.controller];
    && s' == s.(launches := s.launches[l := launch.(pc := PersistSpawnFailure)],
                controllers := s.controllers[launch.controller := c.(phase := Failed)])
  }

  predicate PersistFailure(s: State, l: LaunchId, a: Answer, s': State) {
    && Known(s, l) && s.launches[l].pc.PersistSpawnFailure?
    && var launch := s.launches[l]; var c := s.controllers[launch.controller];
    && CanUpdate(s, c.instanceId, a)
    && s' == s.(launches := s.launches[l := launch.(pc := RunRelease(false))],
                controllers := s.controllers[launch.controller := c.(mu := None)],
                durable := Stored(s, c.instanceId, RecordOf(c), a), written := Logged(s, c.instanceId, RecordOf(c), a))
  }

  /** persist(running + PID) succeeds: the one way startCore reports success. */
  predicate PersistRunningState(s: State, l: LaunchId, s': State) {
    && Known(s, l) && s.launches[l].pc.PersistRunning?
    && var launch := s.launches[l]; var c := s.controllers[launch.controller];
    && c.instanceId in s.durable
    && s' == s.(launches := s.launches[l := launch.(pc := AfterStart(launch), outcome := Success, waiter := Waiting)],
                controllers := s.controllers[launch.controller := c.(mu := None)],
                durable := s.durable[c.instanceId := RecordOf(c)], written := s.written + {(c.instanceId, RecordOf(c))})
  }

  /** A failed attempt is retried up to the bound; a permanent error or a cancelled context is not. */
  predicate PersistRunningFails(s: State, l: LaunchId, a: Answer, s': State) {
    && Known(s, l) && s.launches[l].pc.PersistRunning?
    && var launch := s.launches[l];
    && (a.Fail? || a.Quit?)
    && s' == s.(launches := s.launches[l := launch.(pc :=
                  if a.Fail? && launch.pc.attempt + 1 < PersistRetryAttempts then PersistRunning(launch.pc.attempt + 1) else RollbackKill)])
  }

  /* ---- rollback ---- */

  /** The kernel accepted the kill. */
  predicate KillAccepted(s: State, l: LaunchId, s': State) {
    && Known(s, l) && s.launches[l].pc.RollbackKill?
    && s' == s.(launches := s.launches[l := s.launches[l].(pc := ConfirmExit)])
  }

  /** Outcomes A and B: the process was already gone, or its exit was confirmed by the Manager. */
  predicate RollbackConfirmed(s: State, l: LaunchId, s': State) {
    && Known(s, l)
    && var launch := s.launches[l]; var c := s.controllers[launch.controller];
    && ((launch.pc.RollbackKill? && !launch.process.Alive?) || (launch.pc.ConfirmExit? && launch.process.Reaped?))
    && s' == s.(launches := s.launches[l := launch.(pc := PersistRolledBack)],
                controllers := s.controllers[launch.controller := c.(phase := Failed)])
  }

  /** Outcomes C and D: no confirmed exit, ownership stays with wait(). */
  predicate RollbackUnconfirmed(s: State, l: LaunchId, s': State) {
    && Known(s, l) && (s.launches[l].pc.RollbackKill? || s.launches[l].pc.ConfirmExit?)
    && var launch := s.launches[l]; var c := s.controllers[launch.controller];
    && s' == s.(launches := s.launches[l := launch.(pc := AfterStart(launch), outcome := Residual, waiter := Waiting)],
                controllers := s.controllers[launch.controller := c.(phase := Starting, mu := None)])
  }

  predicate PersistRollback(s: State, l: LaunchId, a: Answer, s': State) {
    && Known(s, l) && s.launches[l].pc.PersistRolledBack?
    && var launch := s.launches[l]; var c := s.controllers[launch.controller];
    && CanUpdate(s, c.instanceId, a)
    && s' == s.(launches := s.launches[l := launch.(pc := RunRelease(false), waiter := Waiting, rolledBack := true)],
                controllers := s.controllers[launch.controller := c.(mu := None)],
                durable := Stored(s, c.instanceId, RecordOf(c), a), written := Logged(s, c.instanceId, RecordOf(c), a))
  }

  /** run.releaseSlot, run.complete and, for an unpersisted start, the delete by id. */
  predicate ReleaseRun(s: State, l: LaunchId, s': State) {
    && Known(s, l) && s.launches[l].pc.RunRelease?
    && var launch := s.launches[l];
    && s' == s.(launches := s.launches[l := launch.(pc := RunComplete(launch.pc.forget), slot := false)], free := Released(s, launch))
  }

  predicate CompleteRun(s: State, l: LaunchId, s': State) {
    && Known(s, l) && s.launches[l].pc.RunComplete?
    && var launch := s.launches[l];
    && s' == s.(launches := s.launches[l :=
                  if launch.pc.forget then launch.(pc := RunForget, done := true)
                  else launch.(pc := AfterStart(launch), done := true, outcome := Error(launch.rolledBack))])
  }

  predicate ForgetRun(s: State, l: LaunchId, s': State) {
    && Known(s, l) && s.launches[l].pc.RunForget?
    && var launch := s.launches[l];
    && s' == s.(launches := s.launches[l := launch.(pc := AfterStart(launch), outcome := Error(false))],
                registry := s.registry - {s.controllers[launch.controller].instanceId})
  }

  /* ---- abortPreSpawnCleanup; a restart only returns its slot ---- */

  predicate ReleaseAborted(s: State, l: LaunchId, s': State) {
    && Known(s, l) && s.launches[l].pc.AbortRelease?
    && var launch := s.launches[l];
    && s' == s.(launches := s.launches[l :=
                  if launch.restart then launch.(pc := ReleaseOp, slot := false, outcome := Aborted)
                  else launch.(pc := if Consumed(launch) then AbortFail else AbortForget, slot := false)],
                free := Released(s, launch))
  }

  predicate FailAborted(s: State, l: LaunchId, a: Answer, s': State) {
    && Known(s, l) && s.launches[l].pc.AbortFail?
    && var launch := s.launches[l]; var c := s.controllers[launch.controller];
    && c.mu.None? && CanUpdate(s, c.instanceId, a)
    && var record := RecordOf(c.(phase := Failed));
    && s' == s.(launches := s.launches[l := launch.(pc := AbortForget)],
                controllers := s.controllers[launch.controller := c.(phase := Failed)],
                durable := Stored(s, c.instanceId, record, a), written := Logged(s, c.instanceId, record, a))
  }

  predicate ForgetAborted(s: State, l: LaunchId, s': State) {
    && Known(s, l) && s.launches[l].pc.AbortForget?
    && var launch := s.launches[l];
    && s' == s.(launches := s.launches[l := launch.(pc := AbortToken)],
                registry := s.registry - {s.controllers[launch.controller].instanceId})
  }

  predicate ReturnToken(s: State, l: LaunchId, s': State) {
    && Known(s, l) && s.launches[l].pc.AbortToken?
    && var launch := s.launches[l]; var c := s.controllers[launch.controller];
    && s' == s.(launches := s.launches[l := launch.(pc := if Consumed(launch) then Returned else ReleaseOp,
                                                    outcome := if Consumed(launch) then Aborted else launch.outcome,
                                                    tokens := if c.preSpawnToken then launch.tokens + 1 else launch.tokens)],
                controllers := s.controllers[launch.controller := c.(preSpawnToken := false)],
                preSpawnInFlight := Drained(s, c), zeroSig := Signalled(s, c))
  }

  /* ---- after startCore ---- */

  /** An admission leaves startWithReservation. */
  predicate LeaveLifecycle(s: State, l: LaunchId, s': State) {
    && Known(s, l) && s.launches[l].pc.Returned?
    && var launch := s.launches[l]; var c := s.controllers[launch.controller];
    && s' == s.(launches := s.launches[l := launch.(pc :=
                  if launch.outcome == Error(true) then Forget else if launch.outcome == Error(false) then FailUnspawned else ReleaseOp)],
                controllers := s.controllers[launch.controller := c.(lifecycleMu := None)])
  }

  /** failUnspawnedController. */
  predicate MarkUnspawned(s: State, l: LaunchId, s': State) {
    && Known(s, l) && s.launches[l].pc.FailUnspawned?
    && var launch := s.launches[l]; var c := s.controllers[launch.controller];
    && c.mu.None?
    && s' == s.(launches := s.launches[l := launch.(pc := PersistUnspawned)],
                controllers := s.controllers[launch.controller := c.(phase := Failed)])
  }

  predicate StoreUnspawned(s: State, l: LaunchId, a: Answer, s': State) {
    && Known(s, l) && s.launches[l].pc.PersistUnspawned?
    && var launch := s.launches[l]; var c := s.controllers[launch.controller];
    && CanUpdate(s, c.instanceId, a)
    && var record := Record(c.modelId, Failed, c.identity);
    && s' == s.(launches := s.launches[l := launch.(pc := Forget)],
                durable := Stored(s, c.instanceId, record, a), written := Logged(s, c.instanceId, record, a))
  }

  /** forgetController: the identity is compared before the delete. */
  predicate ForgetController(s: State, l: LaunchId, s': State) {
    && Known(s, l) && s.launches[l].pc.Forget?
    && var launch := s.launches[l]; var c := s.controllers[launch.controller];
    && s' == s.(launches := s.launches[l := launch.(pc := ReleaseOp)],
                registry := if c.instanceId in s.registry && s.registry[c.instanceId] == launch.controller
                            then s.registry - {c.instanceId} else s.registry)
  }

  /** releaseLaunchOperation is exact-operation and idempotent; a restart then leaves lifecycleMu. */
  predicate ReleaseOperation(s: State, l: LaunchId, s': State) {
    && Known(s, l) && s.launches[l].pc.ReleaseOp?
    && var launch := s.launches[l]; var c := s.controllers[launch.controller];
    && c.mu.None?
    && var owned := c.active.Some? && launch.claim.Some? && c.active.value.id == launch.claim.value.opId;
    && s' == s.(launches := s.launches[l := launch.(pc := Done)],
                controllers := s.controllers[launch.controller := c.(active := if owned then None else c.active,
                                                                    lifecycleMu := if launch.restart then None else c.lifecycleMu)])
  }

  /* ---- the stop program, run by a Stop call or inside a restart ---- */

  /** The program goes on from `pc` to `next`; `c` becomes `d`. */
  predicate StopGoes(s: State, c: Controller, who: Holder, pc: StopPc, a: Answer, next: StopPc, d: Controller) {
    match pc
    case Mark => c.mu.None? && !c.phase.Terminal() && !c.phase.Pending? && next == LockMu && d == c.(phase := Stopping)
    case LockMu => c.mu.None? && next == ManagerStop && d == c.(mu := Some(who))
    // Manager.Stop returns nil only once the Manager owns no process.
    case ManagerStop => (a.Ok? ==> c.process.None?) && next == PersistStopping(a.Ok?) && d == c
    case PersistStopping(signalled) => a.Ok? && c.instanceId in s.durable && next == AwaitDone(signalled) && d == c.(mu := None)
    case AwaitDone(signalled) =>
      && d == c
      && (if a.Quit? && c.run.Some? then next == Final(false)
          else (c.run.None? || (c.run.value in s.launches && s.launches[c.run.value].done)) && next == Final(signalled))
    case Final(_) => false
  }

  /** The program returns from `pc`; `c` becomes `d`. */
  predicate StopReturns(s: State, c: Controller, pc: StopPc, a: Answer, ok: bool, d: Controller) {
    match pc
    case Mark => c.mu.None? && d == c && ((c.phase.Terminal() && ok) || (c.phase.Pending? && !ok))
    case PersistStopping(_) => !a.Ok? && !ok && d == c.(mu := None)
    case Final(signalled) => c.mu.None? && CanUpdate(s, c.instanceId, a) && ok == (signalled && a.Ok?) && d == c
    case _ => false
  }

  /** The points at which the program writes the record. */
  predicate StopPersists(pc: StopPc) { pc.PersistStopping? || pc.Final? }

  function StopAnswer(pc: StopPc, a: Answer): Answer { if StopPersists(pc) then a else Fail }

  predicate StopOldRun(s: State, l: LaunchId, a: Answer, next: StopPc, s': State) {
    && Known(s, l) && s.launches[l].pc.StopOld? && s.launches[l].controller in s'.controllers
    && var launch := s.launches[l]; var c := s.controllers[launch.controller]; var d := s'.controllers[launch.controller];
    && StopGoes(s, c, LaunchHolder(l), launch.pc.stop, a, next, d)
    && s' == s.(launches := s.launches[l := launch.(pc := StopOld(next))], controllers := s.controllers[launch.controller := d],
                durable := Stored(s, c.instanceId, RecordOf(c), StopAnswer(launch.pc.stop, a)),
                written := Logged(s, c.instanceId, RecordOf(c), StopAnswer(launch.pc.stop, a)))
  }

  predicate StopOldRunReturns(s: State, l: LaunchId, a: Answer, ok: bool, s': State) {
    && Known(s, l) && s.launches[l].pc.StopOld? && s.launches[l].controller in s'.controllers
    && var launch := s.launches[l]; var c := s.controllers[launch.controller]; var d := s'.controllers[launch.controller];
    && StopReturns(s, c, launch.pc.stop, a, ok, d)
    && s' == s.(launches := s.launches[l := launch.(pc := if ok then Slot else ReleaseOp)], controllers := s.controllers[launch.controller := d],
                durable := Stored(s, c.instanceId, RecordOf(c), StopAnswer(launch.pc.stop, a)),
                written := Logged(s, c.instanceId, RecordOf(c), StopAnswer(launch.pc.stop, a)))
  }

  /* ---- the process, its Manager and the wait() goroutine ---- */

  predicate ProcessDies(s: State, l: LaunchId, s': State) {
    && Known(s, l) && s.launches[l].process.Alive?
    && s' == s.(launches := s.launches[l := s.launches[l].(process := Dead)])
  }

  /** Manager.wait, the single owner of cmd.Wait, clears the control and closes the done channel. */
  predicate ReapProcess(s: State, l: LaunchId, s': State) {
    && Known(s, l) && s.launches[l].process.Dead?
    && var launch := s.launches[l]; var c := s.controllers[launch.controller];
    && s' == s.(launches := s.launches[l := launch.(process := Reaped)],
                controllers := s.controllers[launch.controller := if c.process == Some(l) then c.(process := None) else c])
  }

  /** wait() writes the terminal state without a check that its run is still the current one. */
  predicate ObserveExit(s: State, l: LaunchId, a: Answer, s': State) {
    && Known(s, l) && s.launches[l].waiter.Waiting? && s.launches[l].process.Reaped?
    && var launch := s.launches[l]; var c := s.controllers[launch.controller];
    && c.mu.None?
    && var d := c.(phase := if a.Ok? then Exited else Failed, clobbered := c.clobbered || c.run != Some(l));
    && s' == s.(launches := s.launches[l := launch.(waiter := PersistTerminal(RecordOf(d), 0))],
                controllers := s.controllers[launch.controller := d])
  }

  predicate PersistExit(s: State, l: LaunchId, a: Answer, s': State) {
    && Known(s, l) && s.launches[l].waiter.PersistTerminal?
    && var launch := s.launches[l]; var c := s.controllers[launch.controller];
    && CanUpdate(s, c.instanceId, a)
    && var next := if a.Ok? then ReleaseSlot
                   else if a.Fail? && launch.waiter.attempt + 1 < PersistRetryAttempts then launch.waiter.(attempt := launch.waiter.attempt + 1)
                   else NoteFailure;
    && s' == s.(launches := s.launches[l := launch.(waiter := next)],
                durable := Stored(s, c.instanceId, launch.waiter.record, a), written := Logged(s, c.instanceId, launch.waiter.record, a))
  }

  predicate NoteExitFailure(s: State, l: LaunchId, s': State) {
    && Known(s, l) && s.launches[l].waiter.NoteFailure? && s.controllers[s.launches[l].controller].mu.None?
    && s' == s.(launches := s.launches[l := s.launches[l].(waiter := ReleaseSlot)])
  }

  predicate ReleaseExited(s: State, l: LaunchId, s': State) {
    && Known(s, l) && s.launches[l].waiter.ReleaseSlot?
    && s' == s.(launches := s.launches[l := s.launches[l].(waiter := Complete, slot := false)], free := Released(s, s.launches[l]))
  }

  predicate CompleteExited(s: State, l: LaunchId, s': State) {
    && Known(s, l) && s.launches[l].waiter.Complete?
    && s' == s.(launches := s.launches[l := s.launches[l].(waiter := Finished, done := true)])
  }

  /* ---- Stop calls ---- */

  predicate KnownStop(s: State, t: StopId) { t in s.stops && s.stops[t].controller in s.controllers }

  predicate EnterStop(s: State, t: StopId, s': State) {
    && KnownStop(s, t) && s.stops[t].pc.StopLock?
    && var call := s.stops[t]; var c := s.controllers[call.controller];
    && c.lifecycleMu.None?
    && s' == s.(stops := s.stops[t := call.(pc := StopRun(Mark))],
                controllers := s.controllers[call.controller := c.(lifecycleMu := Some(StopHolder(t)))])
  }

  predicate StopCallGoes(s: State, t: StopId, a: Answer, next: StopPc, s': State) {
    && KnownStop(s, t) && s.stops[t].pc.StopRun? && s.stops[t].controller in s'.controllers
    && var call := s.stops[t]; var c := s.controllers[call.controller]; var d := s'.controllers[call.controller];
    && StopGoes(s, c, StopHolder(t), call.pc.stop, a, next, d)
    && s' == s.(stops := s.stops[t := call.(pc := StopRun(next))], controllers := s.controllers[call.controller := d],
                durable := Stored(s, c.instanceId, RecordOf(c), StopAnswer(call.pc.stop, a)),
                written := Logged(s, c.instanceId, RecordOf(c), StopAnswer(call.pc.stop, a)))
  }

  predicate StopCallReturns(s: State, t: StopId, a: Answer, ok: bool, s': State) {
    && KnownStop(s, t) && s.stops[t].pc.StopRun? && s.stops[t].controller in s'.controllers
    && var call := s.stops[t]; var c := s.controllers[call.controller]; var d := s'.controllers[call.controller];
    && StopReturns(s, c, call.pc.stop, a, ok, d)
    && s' == s.(stops := s.stops[t := call.(pc := StopUnlock)], controllers := s.controllers[call.controller := d],
                durable := Stored(s, c.instanceId, RecordOf(c), StopAnswer(call.pc.stop, a)),
                written := Logged(s, c.instanceId, RecordOf(c), StopAnswer(call.pc.stop, a)))
  }

  predicate LeaveStop(s: State, t: StopId, s': State) {
    && KnownStop(s, t) && s.stops[t].pc.StopUnlock?
    && var call := s.stops[t]; var c := s.controllers[call.controller];
    && s' == s.(stops := s.stops[t := call.(pc := StopDone)],
                controllers := s.controllers[call.controller := c.(lifecycleMu := None)])
  }

  /* ---- cleanup ---- */

  /** cleanupRemovalProof: the controller may leave the registry. */
  predicate RemovalProof(s: State, c: Controller) {
    && c.mu.None?
    && c.phase.Terminal()
    && c.active.None?
    && !c.preSpawnToken
    && (c.run.Some? ==> c.run.value in s.launches && s.launches[c.run.value].done)
    && c.process.None?
  }

  predicate StartCleanup(s: State, k: CleanerId, s': State) {
    && k !in s.cleaners && s' == s.(cleaners := s.cleaners[k := ListRecords])
  }

  predicate ListDurable(s: State, k: CleanerId, s': State) {
    && k in s.cleaners && s.cleaners[k].ListRecords?
    && s' == s.(cleaners := s.cleaners[k := ScanRegistry(s.durable.Keys)])
  }

  predicate CollectCandidates(s: State, k: CleanerId, s': State) {
    && k in s.cleaners && s.cleaners[k].ScanRegistry?
    && var candidates := set id | id in s.registry && id !in s.cleaners[k].durable :: (id, s.registry[id]);
    && s' == s.(cleaners := s.cleaners[k := Remove(candidates)])
  }

  /** One candidate: the proof and the identity-checked delete in one region of launchMu. */
  predicate RemoveCandidate(s: State, k: CleanerId, pick: (InstanceId, ControllerId), s': State) {
    && k in s.cleaners && s.cleaners[k].Remove? && pick in s.cleaners[k].candidates
    && pick.1 in s.controllers && s.controllers[pick.1].mu.None?
    && s' == s.(cleaners := s.cleaners[k := Remove(s.cleaners[k].candidates - {pick})],
                registry := if RemovalProof(s, s.controllers[pick.1]) && pick.0 in s.registry && s.registry[pick.0] == pick.1
                            then s.registry - {pick.0} else s.registry)
  }

  /* ---- calls and the environment ---- */

  function NewController(l: LaunchId, instanceId: InstanceId, modelId: ModelId, pipelineId: string, entryId: string): Controller {
    Controller(instanceId, modelId, pipelineId, entryId, l, false, Pending, None, None, None, false, None, None, None, false)
  }

  function NewLaunch(c: ControllerId, owner: Owner, restart: bool): Launch {
    Launch(c, owner, restart, ArbWait, None, false, false, false, false, NoProcess, NoWaiter, NotReturned, false, 0, 0)
  }

  predicate FreshInstance(s: State, id: InstanceId) {
    id !in s.durable && id !in s.registry && forall c :: c in s.controllers ==> s.controllers[c].instanceId != id
  }

  /** AdmitAndStart: minted ids are unique and callers pass the owner the instance is attributed to. */
  predicate Admit(s: State, l: LaunchId, id: ControllerId, c: Controller, s': State) {
    && l !in s.launches && id !in s.controllers && FreshInstance(s, c.instanceId)
    && c == NewController(l, c.instanceId, c.modelId, c.pipelineId, c.entryId)
    && c.InstanceOwner().Some?
    && s' == s.(launches := s.launches[l := NewLaunch(id, c.InstanceOwner().value, false)], controllers := s.controllers[id := c])
  }

  /** Restart: the controller is looked up, and its owner derived, before arbitration. */
  predicate Restart(s: State, l: LaunchId, id: InstanceId, s': State) {
    && l !in s.launches && id in s.registry && s.registry[id] in s.controllers
    && s.controllers[s.registry[id]].InstanceOwner().Some?
    && s' == s.(launches := s.launches[l := NewLaunch(s.registry[id], s.controllers[s.registry[id]].InstanceOwner().value, true)])
  }

  predicate StopCalled(s: State, t: StopId, id: InstanceId, s': State) {
    && t !in s.stops && id in s.registry
    && s' == s.(stops := s.stops[t := StopCall(s.registry[id], StopLock)])
  }

  predicate CancelLifecycle(s: State, s': State) { s' == s.(cancelled := true) }

  predicate BeginDrain(s: State, s': State) {
    s' == s.(draining := true, zeroSig := s.zeroSig || s.preSpawnInFlight == 0)
  }

  /** The repository deletes terminal records only. */
  predicate DeleteRecord(s: State, id: InstanceId, s': State) {
    id in s.durable && s.durable[id].phase.Terminal() && s' == s.(durable := s.durable - {id})
  }

  /** Recovery, dismissal and orphan kill write records of instances this supervisor did not create. */
  predicate ForeignRecord(s: State, id: InstanceId, record: Record, s': State) {
    && (forall c :: c in s.controllers ==> s.controllers[c].instanceId != id)
    && s' == s.(durable := s.durable[id := record])
  }

  /** ShutdownWithPersistence writes the terminal state of a registered instance once more. */
  predicate PersistTerminalAgain(s: State, id: InstanceId, s': State) {
    && id in s.registry && s.registry[id] in s.controllers && id in s.durable
    && var c := s.controllers[s.registry[id]];
    && c.instanceId == id && c.phase.Terminal()
    && s' == s.(durable := s.durable[id := RecordOf(c)], written := s.written + {(id, RecordOf(c))})
  }

  /* ---- the whole system ---- */

  predicate ArbitrationStep(s: State, l: LaunchId, a: Answer, s': State) {
    || AcquireArbitration(s, l, s') || Reject(s, l, a, s') || CheckTarget(s, l, s') || Examine(s, l, a, s') || Pass(s, l, a, s')
  }

  predicate PrepareStep(s: State, l: LaunchId, a: Answer, s': State) {
    || EnterLifecycle(s, l, s') || RevalidateOperation(s, l, s') || AwaitPrevious(s, l, a, s')
    || TakeSlot(s, l, s') || GiveUpSlot(s, l, s') || CreateRecord(s, l, a, s')
  }

  predicate StartStep(s: State, l: LaunchId, a: Answer, s': State) {
    || CommitSpawn(s, l, s') || CommitAfterDrain(s, l, s') || ClaimRejected(s, l, s') || PersistStartingState(s, l, a, s')
    || SpawnProcess(s, l, s') || SpawnFails(s, l, s') || PersistFailure(s, l, a, s') || PersistRunningState(s, l, s')
    || PersistRunningFails(s, l, a, s')
  }

  predicate RollbackStep(s: State, l: LaunchId, a: Answer, s': State) {
    || KillAccepted(s, l, s') || RollbackConfirmed(s, l, s') || RollbackUnconfirmed(s, l, s') || PersistRollback(s, l, a, s')
    || ReleaseRun(s, l, s') || CompleteRun(s, l, s') || ForgetRun(s, l, s')
  }

  predicate AbortStep(s: State, l: LaunchId, a: Answer, s': State) {
    || ReleaseAborted(s, l, s') || FailAborted(s, l, a, s') || ForgetAborted(s, l, s') || ReturnToken(s, l, s')
  }

  predicate FinishStep(s: State, l: LaunchId, a: Answer, s': State) {
    || LeaveLifecycle(s, l, s') || MarkUnspawned(s, l, s') || StoreUnspawned(s, l, a, s') || ForgetController(s, l, s')
    || ReleaseOperation(s, l, s')
  }

  ghost predicate StopOldStep(s: State, l: LaunchId, a: Answer, s': State) {
    (exists next :: StopOldRun(s, l, a, next, s')) || (exists ok :: StopOldRunReturns(s, l, a, ok, s'))
  }

  predicate ProcessStep(s: State, l: LaunchId, a: Answer, s': State) {
    || ProcessDies(s, l, s') || ReapProcess(s, l, s') || ObserveExit(s, l, a, s') || PersistExit(s, l, a, s')
    || NoteExitFailure(s, l, s') || ReleaseExited(s, l, s') || CompleteExited(s, l, s')
  }

  /** A step of launch l: its call, its process or its wait() goroutine. */
  ghost predicate LaunchStep(s: State, l: LaunchId, a: Answer, s': State) {
    || ArbitrationStep(s, l, a, s') || PublishClaim(s, l, s') || PrepareStep(s, l, a, s') || StartStep(s, l, a, s')
    || RollbackStep(s, l, a, s') || AbortStep(s, l, a, s') || FinishStep(s, l, a, s') || StopOldStep(s, l, a, s')
    || ProcessStep(s, l, a, s')
  }

  ghost predicate StopStep(s: State, t: StopId, a: Answer, s': State) {
    || EnterStop(s, t, s') || LeaveStop(s, t, s')
    || (exists next :: StopCallGoes(s, t, a, next, s')) || (exists ok :: StopCallReturns(s, t, a, ok, s'))
  }

  ghost predicate CleanupStep(s: State, k: CleanerId, s': State) {
    || StartCleanup(s, k, s') || ListDurable(s, k, s') || CollectCandidates(s, k, s') || (exists pick :: RemoveCandidate(s, k, pick, s'))
  }

  ghost predicate EnvironmentStep(s: State, s': State) {
    || CancelLifecycle(s, s') || BeginDrain(s, s')
    || (exists id :: DeleteRecord(s, id, s')) || (exists id, record :: ForeignRecord(s, id, record, s'))
    || (exists id :: PersistTerminalAgain(s, id, s'))
  }

  ghost predicate CallStep(s: State, s': State) {
    || (exists l, id, c :: Admit(s, l, id, c, s')) || (exists l, id :: Restart(s, l, id, s')) || (exists t, id :: StopCalled(s, t, id, s'))
  }

  ghost predicate Next(s: State, s': State) {
    || (exists l, a :: LaunchStep(s, l, a, s')) || (exists t, a :: StopStep(s, t, a, s')) || (exists k :: CleanupStep(s, k, s'))
    || CallStep(s, s') || EnvironmentStep(s, s')
  }

  /** A run: any finite sequence of steps from a supervisor that has just been created. */
  ghost predicate Run(states: seq<State>) {
    && |states| > 0
    && (exists max: nat, durable :: states[0] == Initial(max, durable))
    && forall i :: 0 <= i < |states| - 1 ==> Next(states[i], states[i + 1])
  }
}
