/** Nothing blocks for ever: from every state the calls, stops and processes at work can all come to rest while one call
waits before its claim and chosen processes go on running. Every program point has an answer of the store, the kernel or the context that lets it go on, and
whoever waits for a lock waits for a holder that can go on. */
module LaunchSettle {
  import opened Wrappers
  import opened LaunchState
  import opened LaunchSteps
  import opened LaunchInvariant
  import opened LaunchBacked
  import opened LaunchPaths
  import Script = LaunchScript

  /* ---- how much is left to do ---- */

  function StopRank(pc: StopPc): nat {
    match pc
    case Mark => 17 case LockMu => 16 case ManagerStop => 15 case PersistStopping(_) => 14 case AwaitDone(_) => 15 case Final(_) => 14
  }

  function CallRank(pc: Pc): nat {
    match pc
    case ArbWait => 0 case ArbCheck => 0 case Scan(_) => 0 case Fence => 21 case Publish => 20
    case Lifecycle => 19 case Revalidate => 18 case StopOld(stop) => StopRank(stop) case AwaitRun(_) => 14 case Slot => 13 case Create => 12
    case Commit => 11 case PersistStarting => 9 case Spawn => 10 case PersistSpawnFailure => 9 case PersistRunning(_) => 18
    case RollbackKill => 17 case ConfirmExit => 16 case PersistRolledBack => 15
    case RunRelease(_) => 8 case RunComplete(_) => 7 case RunForget => 6
    case AbortRelease => 9 case AbortFail => 8 case AbortForget => 7 case AbortToken => 6
    case Returned => 5 case FailUnspawned => 4 case PersistUnspawned => 3 case Forget => 2 case ReleaseOp => 1 case Done => 0
  }

  function WaiterRank(waiter: Waiter): nat {
    match waiter
    case NoWaiter => 0 case Waiting => 5 case PersistTerminal(_, _) => 4 case NoteFailure => 3 case ReleaseSlot => 2 case Complete => 1 case Finished => 0
  }

  function Rank(launch: Launch): nat {
    CallRank(launch.pc) + WaiterRank(launch.waiter) + (if launch.process.Alive? then 2 else if launch.process.Dead? then 1 else 0)
  }

  function StopCallRank(call: StopCall): nat {
    match call.pc
    case StopLock => 0 case StopRun(stop) => StopRank(stop) + 2 case StopUnlock => 1 case StopDone => 0
  }

  ghost function Sum<K>(m: map<K, nat>): nat
    decreases m.Keys
  {
    if m.Keys == {} then 0
    else
      var k :| k in m.Keys;
      assert (m - {k}).Keys == m.Keys - {k};
      m[k] + Sum(m - {k})
  }

  lemma {:induction false} SumWithout<K>(m: map<K, nat>, k: K)
    requires k in m
    ensures Sum(m) == m[k] + Sum(m - {k})
    decreases m.Keys
  {
    var j :| j in m.Keys && Sum(m) == m[j] + Sum(m - {j});
    if j != k {
      SumWithout(m - {j}, k);
      SumWithout(m - {k}, j);
      assert m - {j} - {k} == m - {k} - {j};
    }
  }

  lemma SumChanges<K>(m: map<K, nat>, k: K, n: nat)
    requires k in m
    ensures Sum(m[k := n]) == Sum(m) - m[k] + n
  {
    SumWithout(m, k);
    SumWithout(m[k := n], k);
    assert m[k := n] - {k} == m - {k};
  }

  function CallWork(s: State): map<int, nat> { map l | l in s.launches :: Rank(s.launches[l]) }

  function StopWork(s: State): map<int, nat> { map t | t in s.stops :: StopCallRank(s.stops[t]) }

  ghost function Work(s: State): nat { Sum(CallWork(s)) + Sum(StopWork(s)) }

  /* ---- one launch moves ---- */

  /** Launch k moves; nothing else changes but its controller, records and locks. */
  predicate Shifted(s: State, k: LaunchId, s': State) {
    && Known(s, k) && k in s'.launches && s.launches[k].controller in s'.controllers
    && var launch := s.launches[k]; var next := s'.launches[k]; var c := s.controllers[launch.controller]; var d := s'.controllers[launch.controller];
    && s'.launches == s.launches[k := next] && s'.stops == s.stops
    && (s'.controllers == s.controllers || s'.controllers == s.controllers[launch.controller := d])
    && s'.draining == s.draining && s'.cancelled == s.cancelled && s.durable.Keys <= s'.durable.Keys
    && next.controller == launch.controller && d.instanceId == c.instanceId && d.modelId == c.modelId
    && (launch.done ==> next.done)
    && (next.pc != launch.pc ==> (Owning(launch.pc) || Arbitrating(launch.pc)) && (Owning(next.pc) || Arbitrating(next.pc) || next.pc.Done?))
    && (next.pc.ArbCheck? || next.pc.Scan? ==> next.pc == launch.pc || launch.pc.ArbCheck? || launch.pc.Scan?)
    && (next.pc == launch.pc ==>
          d.run == c.run && d.active == c.active && (d.phase == c.phase || d.phase.Terminal()) && (d.process == c.process || d.process.None?))
  }

  /** A step of launch k that leaves it less to do. */
  ghost predicate Advanced(s: State, k: LaunchId, a: Answer, s': State) {
    Shifted(s, k, s') && Rank(s'.launches[k]) < Rank(s.launches[k]) && LaunchStep(s, k, a, s')
  }

  /** A step of the call of launch k, which leaves its process as it is. */
  ghost predicate Worked(s: State, k: LaunchId, a: Answer, s': State) {
    Advanced(s, k, a, s') && s'.launches[k].process == s.launches[k].process
  }

  /** What the moves use of the invariant. */
  predicate Movable(s: State, k: LaunchId) {
    && Known(s, k)
    && var launch := s.launches[k]; var c := s.controllers[launch.controller];
    && ClaimOk(k, launch, c) && ProcessOk(k, launch, c) && AdmissionOk(k, launch, c)
  }

  lemma MovableOf(s: State, k: LaunchId)
    requires Inv(s) && k in s.launches
    ensures Movable(s, k)
  {
    hide ControllersOk, StopsOk, OperationsOk, ArbitrationOk, ScanOk, Exclusive, RestartsOk, CountsOk, DurableOk, ClaimOk, ProcessOk,
         AdmissionOk,
         Attributed, LocksOk, SlotOk, OutcomeOk, PhaseOk;
    assert LaunchOk(k, s.launches[k], s.controllers[s.launches[k].controller], s.maxConcurrent);
  }

  predicate NeedsMu(pc: Pc) {
    || pc.Publish? || (pc.StopOld? && (pc.stop.Mark? || pc.stop.LockMu? || pc.stop.Final?)) || pc.Commit? || pc.AbortFail? || pc.FailUnspawned?
    || pc.ReleaseOp?
  }

  /** Nobody holds what k waits for. */
  predicate Unblocked(s: State, k: LaunchId)
    requires Known(s, k)
  {
    var launch := s.launches[k]; var c := s.controllers[launch.controller];
    (NeedsMu(launch.pc) ==> c.mu.None?) && (launch.pc.Lifecycle? ==> c.lifecycleMu.None?)
  }

  /** The state after publishClaimLocked. */
  function PublishedState(s: State, k: LaunchId): State
    requires Known(s, k)
  {
    var launch := s.launches[k]; var c := s.controllers[launch.controller];
    var claim := SpawnClaim(c.modelId, launch.owner, c.instanceId, s.opSeq + 1, launch.restart, false);
    var op := Operation(s.opSeq + 1, launch.owner, k);
    if launch.restart then
      s.(launches := s.launches[k := launch.(pc := Lifecycle, claim := Some(claim))],
         controllers := s.controllers[launch.controller := c.(active := Some(op))],
         opSeq := s.opSeq + 1, arbLocks := s.arbLocks - {c.modelId})
    else
      s.(launches := s.launches[k := launch.(pc := Slot, claim := Some(claim))],
         controllers := s.controllers[launch.controller := c.(active := Some(op), preSpawnToken := true, born := true)],
        opSeq := s.opSeq + 1, arbLocks := s.arbLocks - {c.modelId}, registry := s.registry[c.instanceId := launch.controller],
        preSpawnInFlight := s.preSpawnInFlight + 1)
  }

  /** The ways on that are not a single program point. */
  lemma Falls(from: Pc, to: Pc)
    requires
      || (from.Revalidate? && (to.ReleaseOp? || to == StopOld(Mark) || to.AwaitRun? || to.Slot?))
      || (from.AbortRelease? && (to.ReleaseOp? || to.AbortFail? || to.AbortForget?))
      || (from.RunComplete? && (to.RunForget? || to.Returned? || to.ReleaseOp?))
      || (from.AbortToken? && (to.Returned? || to.ReleaseOp?))
      || (from.Returned? && (to.Forget? || to.FailUnspawned? || to.ReleaseOp?))
    ensures CallRank(to) < CallRank(from) && Owning(to) && Owning(from) && to != from && !to.ArbCheck? && !to.Scan?
  {
  }

  lemma FenceMoves(s: State, k: LaunchId) returns (a: Answer, s': State)
    requires Known(s, k) && s.launches[k].pc.Fence?
    ensures Worked(s, k, a, s')
  {
    hide PrepareStep, StartStep, RollbackStep, AbortStep, FinishStep, ProcessStep, PublishClaim, StopOldStep;
    hide AcquireArbitration, Reject, CheckTarget, Examine;
    var launch := s.launches[k];
    a, s' := Answer.Fail, s.(launches := s.launches[k := launch.(pc := Publish)]);
    assert Pass(s, k, a, s');
  }

  lemma PublishRestartShifts(s: State, k: LaunchId, s': State)
    requires PublishClaim(s, k, s') && s.launches[k].restart
    ensures Shifted(s, k, s') && Rank(s'.launches[k]) < Rank(s.launches[k])
  {
    assert s'.launches[k].pc.Lifecycle?;
  }

  lemma PublishAdmissionShifts(s: State, k: LaunchId, s': State)
    requires PublishClaim(s, k, s') && !s.launches[k].restart
    ensures Shifted(s, k, s') && Rank(s'.launches[k]) < Rank(s.launches[k])
  {
    assert s'.launches[k].pc.Slot?;
  }

  lemma PublishMoves(s: State, k: LaunchId) returns (a: Answer, s': State)
    requires Known(s, k) && s.launches[k].pc.Publish? && s.controllers[s.launches[k].controller].mu.None? && !s.draining
    ensures Worked(s, k, a, s')
  {
    hide Shifted, Rank, ArbitrationStep, PrepareStep, StartStep, RollbackStep, AbortStep, FinishStep, ProcessStep, StopOldStep;
    var launch := s.launches[k];
    a, s' := Answer.Ok, PublishedState(s, k);
    assert PublishClaim(s, k, s');
    if s.launches[k].restart { PublishRestartShifts(s, k, s'); } else { PublishAdmissionShifts(s, k, s'); }
  }

  lemma LifecycleShifts(s: State, k: LaunchId, s': State)
    requires EnterLifecycle(s, k, s')
    ensures Shifted(s, k, s') && Rank(s'.launches[k]) < Rank(s.launches[k])
  {
  }

  lemma LifecycleMoves(s: State, k: LaunchId) returns (a: Answer, s': State)
    requires Known(s, k) && s.launches[k].pc.Lifecycle? && s.controllers[s.launches[k].controller].lifecycleMu.None?
    ensures Worked(s, k, a, s')
  {
    hide Shifted, Rank, ArbitrationStep, StartStep, RollbackStep, AbortStep, FinishStep, ProcessStep, PublishClaim, StopOldStep;
    hide RevalidateOperation, AwaitPrevious, TakeSlot, GiveUpSlot, CreateRecord;
    var launch := s.launches[k];
    var c := s.controllers[launch.controller];
    var d := c.(lifecycleMu := Some(LaunchHolder(k)));
    a := Answer.Ok;
    if launch.restart {
      s' := s.(launches := s.launches[k := launch.(pc := Revalidate)], controllers := s.controllers[launch.controller := d]);
      assert EnterLifecycle(s, k, s');
    } else {
      s' := s.(launches := s.launches[k := launch.(pc := Commit)], controllers := s.controllers[launch.controller := d]);
      assert EnterLifecycle(s, k, s');
    }
    LifecycleShifts(s, k, s');
  }

  lemma RevalidateMoves(s: State, k: LaunchId) returns (a: Answer, s': State)
    requires Known(s, k) && s.launches[k].pc.Revalidate?
    ensures Worked(s, k, a, s')
  {
    hide ArbitrationStep, StartStep, RollbackStep, AbortStep, FinishStep, ProcessStep, PublishClaim, StopOldStep;
    hide EnterLifecycle, AwaitPrevious, TakeSlot, GiveUpSlot, CreateRecord;
    var launch := s.launches[k];
    var c := s.controllers[launch.controller];
    var owned := c.active.Some? && launch.claim.Some? && c.active.value.claim == k && c.active.value.id == launch.claim.value.opId;
    hide CallRank, Owning;
    var pc: Pc := if !owned then ReleaseOp else if c.phase.Running? then StopOld(Mark) else if c.run.Some? then AwaitRun(c.run.value) else Slot;
    Falls(launch.pc, pc);
    a, s' := Answer.Ok, s.(launches := s.launches[k := launch.(pc := pc)]);
    assert RevalidateOperation(s, k, s');
  }

  lemma AwaitMoves(s: State, k: LaunchId) returns (a: Answer, s': State)
    requires Known(s, k) && s.launches[k].pc.AwaitRun?
    ensures Worked(s, k, a, s')
  {
    hide ArbitrationStep, StartStep, RollbackStep, AbortStep, FinishStep, ProcessStep, PublishClaim, StopOldStep;
    hide EnterLifecycle, RevalidateOperation, TakeSlot, GiveUpSlot, CreateRecord;
    var launch := s.launches[k];
    a, s' := Quit, s.(launches := s.launches[k := launch.(pc := ReleaseOp)]);
    assert AwaitPrevious(s, k, a, s');
  }

  lemma GiveUpShifts(s: State, k: LaunchId, s': State)
    requires GiveUpSlot(s, k, s')
    ensures Shifted(s, k, s') && Rank(s'.launches[k]) < Rank(s.launches[k])
  {
  }

  lemma GiveUpMoves(s: State, k: LaunchId) returns (a: Answer, s': State)
    requires Known(s, k) && s.launches[k].pc.Slot? && s.maxConcurrent > 0
    ensures Worked(s, k, a, s')
  {
    hide Shifted, Rank, ArbitrationStep, StartStep, RollbackStep, AbortStep, FinishStep, ProcessStep, PublishClaim, StopOldStep;
    hide EnterLifecycle, RevalidateOperation, AwaitPrevious, TakeSlot, CreateRecord;
    var launch := s.launches[k];
    var pc: Pc := if launch.restart then ReleaseOp else AbortRelease;
    a, s' := Answer.Fail, s.(launches := s.launches[k := launch.(pc := pc)]);
    assert GiveUpSlot(s, k, s');
    GiveUpShifts(s, k, s');
  }

  lemma SlotShifts(s: State, k: LaunchId, s': State)
    requires TakeSlot(s, k, s')
    ensures Shifted(s, k, s') && Rank(s'.launches[k]) < Rank(s.launches[k])
  {
  }

  lemma SlotMoves(s: State, k: LaunchId) returns (a: Answer, s': State)
    requires Known(s, k) && s.launches[k].pc.Slot? && s.maxConcurrent == 0
    ensures Worked(s, k, a, s')
  {
    hide Shifted, Rank, ArbitrationStep, StartStep, RollbackStep, AbortStep, FinishStep, ProcessStep, PublishClaim, StopOldStep;
    hide EnterLifecycle, RevalidateOperation, AwaitPrevious, GiveUpSlot, CreateRecord;
    var launch := s.launches[k];
    var pc: Pc := if launch.restart then Commit else Create;
    a, s' := Answer.Ok, s.(launches := s.launches[k := launch.(pc := pc, slot := false)]);
    assert TakeSlot(s, k, s');
    SlotShifts(s, k, s');
  }

  lemma CreateMoves(s: State, k: LaunchId) returns (a: Answer, s': State)
    requires Known(s, k) && s.launches[k].pc.Create?
    ensures Worked(s, k, a, s')
  {
    hide ArbitrationStep, StartStep, RollbackStep, AbortStep, FinishStep, ProcessStep, PublishClaim, StopOldStep;
    hide EnterLifecycle, RevalidateOperation, AwaitPrevious, TakeSlot, GiveUpSlot;
    var launch := s.launches[k];
    a, s' := Answer.Fail, s.(launches := s.launches[k := launch.(pc := AbortRelease)]);
    assert CreateRecord(s, k, a, s');
  }

  lemma CommitMoves(s: State, k: LaunchId) returns (a: Answer, s': State)
    requires Movable(s, k) && s.launches[k].pc.Commit? && s.controllers[s.launches[k].controller].mu.None? && !s.draining
    ensures Worked(s, k, a, s')
  {
    hide ArbitrationStep, PrepareStep, RollbackStep, AbortStep, FinishStep, ProcessStep, PublishClaim, StopOldStep;
    hide CommitAfterDrain, ClaimRejected, PersistStartingState, SpawnProcess, SpawnFails, PersistFailure, PersistRunningState,
         PersistRunningFails;
    var launch := s.launches[k];
    a, s' := Answer.Ok, Script.CommittedState(s, k);
    assert CommitSpawn(s, k, s');
  }

  lemma PersistStartingMoves(s: State, k: LaunchId) returns (a: Answer, s': State)
    requires Known(s, k) && s.launches[k].pc.PersistStarting?
    ensures Worked(s, k, a, s')
  {
    hide ArbitrationStep, PrepareStep, RollbackStep, AbortStep, FinishStep, ProcessStep, PublishClaim, StopOldStep;
    hide CommitSpawn, CommitAfterDrain, ClaimRejected, SpawnProcess, SpawnFails, PersistFailure, PersistRunningState, PersistRunningFails;
    var launch := s.launches[k];
    var c := s.controllers[launch.controller];
    a, s' := Answer.Fail, s.(launches := s.launches[k := launch.(pc := RunRelease(true), started := true)],
                             controllers := s.controllers[launch.controller := c.(run := Some(k), mu := None)]);
    assert PersistStartingState(s, k, a, s');
  }

  lemma SpawnMoves(s: State, k: LaunchId) returns (a: Answer, s': State)
    requires Known(s, k) && s.launches[k].pc.Spawn?
    ensures Worked(s, k, a, s')
  {
    hide ArbitrationStep, PrepareStep, RollbackStep, AbortStep, FinishStep, ProcessStep, PublishClaim, StopOldStep;
    hide CommitSpawn, CommitAfterDrain, ClaimRejected, PersistStartingState, SpawnProcess, PersistFailure, PersistRunningState,
         PersistRunningFails;
    var launch := s.launches[k];
    var c := s.controllers[launch.controller];
    a, s' := Answer.Fail, s.(launches := s.launches[k := launch.(pc := PersistSpawnFailure)],
                             controllers := s.controllers[launch.controller := c.(phase := Failed)]);
    assert SpawnFails(s, k, s');
  }

  lemma PersistFailureMoves(s: State, k: LaunchId) returns (a: Answer, s': State)
    requires Known(s, k) && s.launches[k].pc.PersistSpawnFailure?
    ensures Worked(s, k, a, s')
  {
    hide ArbitrationStep, PrepareStep, RollbackStep, AbortStep, FinishStep, ProcessStep, PublishClaim, StopOldStep;
    hide CommitSpawn, CommitAfterDrain, ClaimRejected, PersistStartingState, SpawnProcess, SpawnFails, PersistRunningState,
         PersistRunningFails;
    var launch := s.launches[k];
    var c := s.controllers[launch.controller];
    a, s' := Answer.Fail, s.(launches := s.launches[k := launch.(pc := RunRelease(false))],
                             controllers := s.controllers[launch.controller := c.(mu := None)]);
    assert PersistFailure(s, k, a, s');
  }

  lemma PersistRunningMoves(s: State, k: LaunchId) returns (a: Answer, s': State)
    requires Known(s, k) && s.launches[k].pc.PersistRunning?
    ensures Worked(s, k, a, s')
  {
    hide ArbitrationStep, PrepareStep, RollbackStep, AbortStep, FinishStep, ProcessStep, PublishClaim, StopOldStep;
    hide CommitSpawn, CommitAfterDrain, ClaimRejected, PersistStartingState, SpawnProcess, SpawnFails, PersistFailure, PersistRunningState;
    var launch := s.launches[k];
    a, s' := Quit, s.(launches := s.launches[k := launch.(pc := RollbackKill)]);
    assert PersistRunningFails(s, k, a, s');
  }

  lemma RollbackMoves(s: State, k: LaunchId) returns (a: Answer, s': State)
    requires Movable(s, k) && (s.launches[k].pc.RollbackKill? || s.launches[k].pc.ConfirmExit?)
    ensures Worked(s, k, a, s')
  {
    hide ArbitrationStep, PrepareStep, StartStep, AbortStep, FinishStep, ProcessStep, PublishClaim, StopOldStep;
    hide KillAccepted, RollbackConfirmed, PersistRollback, ReleaseRun, CompleteRun, ForgetRun;
    var launch := s.launches[k];
    var c := s.controllers[launch.controller];
    a, s' := Answer.Fail, s.(launches := s.launches[k := launch.(pc := AfterStart(launch), outcome := Residual, waiter := Waiting)],
                             controllers := s.controllers[launch.controller := c.(phase := Starting, mu := None)]);
    assert RollbackUnconfirmed(s, k, s');
  }

  lemma PersistRollbackMoves(s: State, k: LaunchId) returns (a: Answer, s': State)
    requires Movable(s, k) && s.launches[k].pc.PersistRolledBack?
    ensures Worked(s, k, a, s')
  {
    hide ArbitrationStep, PrepareStep, StartStep, AbortStep, FinishStep, ProcessStep, PublishClaim, StopOldStep;
    hide KillAccepted, RollbackConfirmed, RollbackUnconfirmed, ReleaseRun, CompleteRun, ForgetRun;
    var launch := s.launches[k];
    var c := s.controllers[launch.controller];
    a, s' := Answer.Fail, s.(launches := s.launches[k := launch.(pc := RunRelease(false), waiter := Waiting, rolledBack := true)],
                             controllers := s.controllers[launch.controller := c.(mu := None)]);
    assert PersistRollback(s, k, a, s');
  }

  lemma RunReleaseMoves(s: State, k: LaunchId) returns (a: Answer, s': State)
    requires Known(s, k) && s.launches[k].pc.RunRelease?
    ensures Worked(s, k, a, s')
  {
    hide ArbitrationStep, PrepareStep, StartStep, AbortStep, FinishStep, ProcessStep, PublishClaim, StopOldStep;
    hide KillAccepted, RollbackConfirmed, RollbackUnconfirmed, PersistRollback, CompleteRun, ForgetRun;
    var launch := s.launches[k];
    a, s' := Answer.Ok, s.(launches := s.launches[k := launch.(pc := RunComplete(launch.pc.forget), slot := false)],
                           free := Released(s, launch));
    assert ReleaseRun(s, k, s');
  }

  lemma RunCompleteShifts(s: State, k: LaunchId, s': State)
    requires CompleteRun(s, k, s')
    ensures Shifted(s, k, s') && Rank(s'.launches[k]) < Rank(s.launches[k])
  {
    hide CallRank, WaiterRank, Owning;
    Falls(s.launches[k].pc, s'.launches[k].pc);
  }

  lemma RunCompleteMoves(s: State, k: LaunchId) returns (a: Answer, s': State)
    requires Known(s, k) && s.launches[k].pc.RunComplete?
    ensures Worked(s, k, a, s')
  {
    hide Shifted, Rank, ArbitrationStep, PrepareStep, StartStep, AbortStep, FinishStep, ProcessStep, PublishClaim, StopOldStep;
    hide KillAccepted, RollbackConfirmed, RollbackUnconfirmed, PersistRollback, ReleaseRun, ForgetRun;
    var launch := s.launches[k];
    a := Answer.Ok;
    if launch.pc.forget {
      s' := s.(launches := s.launches[k := launch.(pc := RunForget, done := true)]);
      assert CompleteRun(s, k, s');
    } else {
      s' := s.(launches := s.launches[k := launch.(pc := AfterStart(launch), done := true, outcome := Error(launch.rolledBack))]);
      assert CompleteRun(s, k, s');
    }
    RunCompleteShifts(s, k, s');
  }

  lemma RunForgetMoves(s: State, k: LaunchId) returns (a: Answer, s': State)
    requires Known(s, k) && s.launches[k].pc.RunForget?
    ensures Worked(s, k, a, s')
  {
    hide ArbitrationStep, PrepareStep, StartStep, AbortStep, FinishStep, ProcessStep, PublishClaim, StopOldStep;
    hide KillAccepted, RollbackConfirmed, RollbackUnconfirmed, PersistRollback, ReleaseRun, CompleteRun;
    var launch := s.launches[k];
    var c := s.controllers[launch.controller];
    a, s' := Answer.Ok, s.(launches := s.launches[k := launch.(pc := AfterStart(launch), outcome := Error(false))],
                           registry := s.registry - {c.instanceId});
    assert ForgetRun(s, k, s');
  }

  lemma AbortReleaseShifts(s: State, k: LaunchId, s': State)
    requires ReleaseAborted(s, k, s')
    ensures Shifted(s, k, s') && Rank(s'.launches[k]) < Rank(s.launches[k])
  {
    hide CallRank, WaiterRank, Owning;
    Falls(s.launches[k].pc, s'.launches[k].pc);
  }

  lemma AbortReleaseMoves(s: State, k: LaunchId) returns (a: Answer, s': State)
    requires Known(s, k) && s.launches[k].pc.AbortRelease?
    ensures Worked(s, k, a, s')
  {
    hide Shifted, Rank, ArbitrationStep, PrepareStep, StartStep, RollbackStep, FinishStep, ProcessStep, PublishClaim, StopOldStep;
    hide FailAborted, ForgetAborted, ReturnToken;
    var launch := s.launches[k];
    var pc: Pc := if launch.restart then ReleaseOp else if Consumed(launch) then AbortFail else AbortForget;
    a, s' := Answer.Ok, s.(launches := s.launches[k := if launch.restart then launch.(pc := pc, slot := false, outcome := Aborted) else launch.(pc := pc, slot := false)],
                           free := Released(s, launch));
    assert ReleaseAborted(s, k, s');
    AbortReleaseShifts(s, k, s');
  }

  lemma AbortFailMoves(s: State, k: LaunchId) returns (a: Answer, s': State)
    requires Known(s, k) && s.launches[k].pc.AbortFail? && s.controllers[s.launches[k].controller].mu.None?
    ensures Worked(s, k, a, s')
  {
    hide ArbitrationStep, PrepareStep, StartStep, RollbackStep, FinishStep, ProcessStep, PublishClaim, StopOldStep;
    hide ReleaseAborted, ForgetAborted, ReturnToken;
    var launch := s.launches[k];
    var c := s.controllers[launch.controller];
    a, s' := Answer.Fail, s.(launches := s.launches[k := launch.(pc := AbortForget)],
                             controllers := s.controllers[launch.controller := c.(phase := Failed)]);
    assert FailAborted(s, k, a, s');
  }

  lemma AbortForgetMoves(s: State, k: LaunchId) returns (a: Answer, s': State)
    requires Known(s, k) && s.launches[k].pc.AbortForget?
    ensures Worked(s, k, a, s')
  {
    hide ArbitrationStep, PrepareStep, StartStep, RollbackStep, FinishStep, ProcessStep, PublishClaim, StopOldStep;
    hide ReleaseAborted, FailAborted, ReturnToken;
    var launch := s.launches[k];
    var c := s.controllers[launch.controller];
    a, s' := Answer.Ok, s.(launches := s.launches[k := launch.(pc := AbortToken)], registry := s.registry - {c.instanceId});
    assert ForgetAborted(s, k, s');
  }

  lemma AbortTokenShifts(s: State, k: LaunchId, s': State)
    requires ReturnToken(s, k, s')
    ensures Shifted(s, k, s') && Rank(s'.launches[k]) < Rank(s.launches[k])
  {
    hide CallRank, Owning, Drained, Signalled;
    Falls(s.launches[k].pc, s'.launches[k].pc);
  }

  /** The state after the token is returned. */
  function Returning(s: State, k: LaunchId): State
    requires Known(s, k)
  {
    var launch := s.launches[k]; var c := s.controllers[launch.controller];
    s.(launches := s.launches[k := launch.(pc := if Consumed(launch) then Returned else ReleaseOp,
                                           outcome := if Consumed(launch) then Aborted else launch.outcome,
                                           tokens := if c.preSpawnToken then launch.tokens + 1 else launch.tokens)],
       controllers := s.controllers[launch.controller := c.(preSpawnToken := false)],
       preSpawnInFlight := Drained(s, c), zeroSig := Signalled(s, c))
  }

  lemma AbortTokenMoves(s: State, k: LaunchId) returns (a: Answer, s': State)
    requires Known(s, k) && s.launches[k].pc.AbortToken?
    ensures Worked(s, k, a, s')
  {
    hide Shifted, Rank, ArbitrationStep, PrepareStep, StartStep, RollbackStep, FinishStep, ProcessStep, PublishClaim, StopOldStep;
    hide ReleaseAborted, FailAborted, ForgetAborted;
    a, s' := Answer.Ok, Returning(s, k);
    assert ReturnToken(s, k, s');
    AbortTokenShifts(s, k, s');
  }

  lemma ReturnedShifts(s: State, k: LaunchId, s': State)
    requires LeaveLifecycle(s, k, s')
    ensures Shifted(s, k, s') && Rank(s'.launches[k]) < Rank(s.launches[k])
  {
    hide CallRank, Owning;
    Falls(s.launches[k].pc, s'.launches[k].pc);
  }

  /** The state after an admission has left its lifecycle lock. */
  function Leaving(s: State, k: LaunchId): State
    requires Known(s, k)
  {
    var launch := s.launches[k]; var c := s.controllers[launch.controller];
    s.(launches := s.launches[k := launch.(pc :=
         if launch.outcome == Error(true) then Forget else if launch.outcome == Error(false) then FailUnspawned else ReleaseOp)],
       controllers := s.controllers[launch.controller := c.(lifecycleMu := None)])
  }

  lemma ReturnedMoves(s: State, k: LaunchId) returns (a: Answer, s': State)
    requires Known(s, k) && s.launches[k].pc.Returned?
    ensures Worked(s, k, a, s')
  {
    hide Shifted, Rank, ArbitrationStep, PrepareStep, StartStep, RollbackStep, AbortStep, ProcessStep, PublishClaim, StopOldStep;
    hide MarkUnspawned, StoreUnspawned, ForgetController, ReleaseOperation;
    a, s' := Answer.Ok, Leaving(s, k);
    assert LeaveLifecycle(s, k, s');
    ReturnedShifts(s, k, s');
  }

  lemma FailUnspawnedMoves(s: State, k: LaunchId) returns (a: Answer, s': State)
    requires Known(s, k) && s.launches[k].pc.FailUnspawned? && s.controllers[s.launches[k].controller].mu.None?
    ensures Worked(s, k, a, s')
  {
    hide ArbitrationStep, PrepareStep, StartStep, RollbackStep, AbortStep, ProcessStep, PublishClaim, StopOldStep;
    hide LeaveLifecycle, StoreUnspawned, ForgetController, ReleaseOperation;
    var launch := s.launches[k];
    var c := s.controllers[launch.controller];
    a, s' := Answer.Ok, s.(launches := s.launches[k := launch.(pc := PersistUnspawned)],
                           controllers := s.controllers[launch.controller := c.(phase := Failed)]);
    assert MarkUnspawned(s, k, s');
  }

  lemma PersistUnspawnedMoves(s: State, k: LaunchId) returns (a: Answer, s': State)
    requires Known(s, k) && s.launches[k].pc.PersistUnspawned?
    ensures Worked(s, k, a, s')
  {
    hide ArbitrationStep, PrepareStep, StartStep, RollbackStep, AbortStep, ProcessStep, PublishClaim, StopOldStep;
    hide LeaveLifecycle, MarkUnspawned, ForgetController, ReleaseOperation;
    var launch := s.launches[k];
    a, s' := Answer.Fail, s.(launches := s.launches[k := launch.(pc := Forget)]);
    assert StoreUnspawned(s, k, a, s');
  }

  lemma ForgetShifts(s: State, k: LaunchId, s': State)
    requires ForgetController(s, k, s')
    ensures Shifted(s, k, s') && Rank(s'.launches[k]) < Rank(s.launches[k])
  {
  }

  lemma ForgetMoves(s: State, k: LaunchId) returns (a: Answer, s': State)
    requires Known(s, k) && s.launches[k].pc.Forget?
    ensures Worked(s, k, a, s')
  {
    hide Shifted, Rank, ArbitrationStep, PrepareStep, StartStep, RollbackStep, AbortStep, ProcessStep, PublishClaim, StopOldStep;
    hide LeaveLifecycle, MarkUnspawned, StoreUnspawned, ReleaseOperation;
    var launch := s.launches[k];
    var c := s.controllers[launch.controller];
    a, s' := Answer.Ok, s.(launches := s.launches[k := launch.(pc := ReleaseOp)], registry :=
      if c.instanceId in s.registry && s.registry[c.instanceId] == launch.controller then s.registry - {c.instanceId} else s.registry);
    assert ForgetController(s, k, s');
    ForgetShifts(s, k, s');
  }

  lemma ReleaseOpShifts(s: State, k: LaunchId, s': State)
    requires ReleaseOperation(s, k, s')
    ensures Shifted(s, k, s') && Rank(s'.launches[k]) < Rank(s.launches[k])
  {
  }

  lemma ReleaseOpMoves(s: State, k: LaunchId) returns (a: Answer, s': State)
    requires Known(s, k) && s.launches[k].pc.ReleaseOp? && s.controllers[s.launches[k].controller].mu.None?
    ensures Worked(s, k, a, s')
  {
    hide Shifted, Rank, ArbitrationStep, PrepareStep, StartStep, RollbackStep, AbortStep, ProcessStep, PublishClaim, StopOldStep;
    hide LeaveLifecycle, MarkUnspawned, StoreUnspawned, ForgetController;
    var launch := s.launches[k];
    var c := s.controllers[launch.controller];
    var owned := c.active.Some? && launch.claim.Some? && c.active.value.id == launch.claim.value.opId;
    var d := c.(active := if owned then None else c.active, lifecycleMu := if launch.restart then None else c.lifecycleMu);
    a, s' := Answer.Ok, s.(launches := s.launches[k := launch.(pc := Done)], controllers := s.controllers[launch.controller := d]);
    assert ReleaseOperation(s, k, s');
    ReleaseOpShifts(s, k, s');
  }

  /* ---- the stop program ---- */

  predicate StopNeedsMu(pc: StopPc) { pc.Mark? || pc.LockMu? || pc.Final? }

  /** The program goes on or returns, under failing answers. */
  lemma StopProgram(s: State, c: Controller, who: Holder, pc: StopPc) returns (a: Answer, goes: bool, next: StopPc, ok: bool, d: Controller)
    requires StopNeedsMu(pc) ==> c.mu.None?
    ensures goes ==> StopGoes(s, c, who, pc, a, next, d) && StopRank(next) < StopRank(pc)
    ensures !goes ==> StopReturns(s, c, pc, a, ok, d)
    ensures !a.Ok? && d == c.(phase := d.phase, mu := d.mu) && (d.phase == c.phase || !c.phase.Terminal())
  {
    a, goes, next, ok, d := Answer.Fail, false, pc, false, c;
    match pc {
      case Mark =>
        if c.phase.Terminal() { ok := true; } else if !c.phase.Pending? { goes, next, d := true, LockMu, c.(phase := Stopping); }
      case LockMu => goes, next, d := true, ManagerStop, c.(mu := Some(who));
      case ManagerStop => goes, next := true, PersistStopping(false);
      case PersistStopping(_) => d := c.(mu := None);
      case AwaitDone(signalled) =>
        goes, next := true, Final(signalled && c.run.None?);
        if c.run.Some? { a := Quit; }
      case Final(_) =>
    }
  }

  lemma StopOldShifts(s: State, k: LaunchId, pc: Pc, d: Controller, s': State)
    requires Known(s, k) && s.launches[k].pc.StopOld? && CallRank(pc) < CallRank(s.launches[k].pc) && Owning(pc) && s.launches[k].pc != pc
    requires s' == s.(launches := s.launches[k := s.launches[k].(pc := pc)], controllers := s.controllers[s.launches[k].controller := d])
    requires var c := s.controllers[s.launches[k].controller]; d.instanceId == c.instanceId && d.modelId == c.modelId
    ensures Shifted(s, k, s') && Rank(s'.launches[k]) < Rank(s.launches[k])
  {
  }

  lemma StopOldMoves(s: State, k: LaunchId) returns (a: Answer, s': State)
    requires Known(s, k) && s.launches[k].pc.StopOld?
    requires StopNeedsMu(s.launches[k].pc.stop) ==> s.controllers[s.launches[k].controller].mu.None?
    ensures Worked(s, k, a, s')
  {
    hide ArbitrationStep, PublishClaim, PrepareStep, StartStep, RollbackStep, AbortStep, FinishStep, ProcessStep, StopGoes, StopReturns,
         StopNeedsMu;
    hide Shifted, Rank;
    var launch := s.launches[k];
    var goes, next, ok, d;
    a, goes, next, ok, d := StopProgram(s, s.controllers[launch.controller], LaunchHolder(k), launch.pc.stop);
    var pc := if goes then StopOld(next) else if ok then Slot else ReleaseOp;
    s' := s.(launches := s.launches[k := launch.(pc := pc)], controllers := s.controllers[launch.controller := d]);
    if goes { assert StopOldRun(s, k, a, next, s'); } else { assert StopOldRunReturns(s, k, a, ok, s'); }
    StopOldShifts(s, k, pc, d, s');
  }

  /** Call t moves; nothing else changes but the phase and the locks of its controller. */
  predicate StopShifted(s: State, t: StopId, s': State) {
    && KnownStop(s, t) && t in s'.stops && s.stops[t].controller in s'.controllers
    && var c := s.controllers[s.stops[t].controller]; var d := s'.controllers[s.stops[t].controller];
    && s'.stops == s.stops[t := s'.stops[t]] && s'.launches == s.launches && s'.controllers == s.controllers[s.stops[t].controller := d]
    && s'.draining == s.draining && s'.cancelled == s.cancelled && s'.durable == s.durable
    && d == c.(phase := d.phase, mu := d.mu, lifecycleMu := d.lifecycleMu) && (d.phase == c.phase || !c.phase.Terminal())
  }

  ghost predicate StopAdvanced(s: State, t: StopId, a: Answer, s': State) {
    StopShifted(s, t, s') && StopCallRank(s'.stops[t]) < StopCallRank(s.stops[t]) && StopStep(s, t, a, s')
  }

  lemma StopCallMoves(s: State, t: StopId) returns (a: Answer, s': State)
    requires KnownStop(s, t) && (s.stops[t].pc.StopRun? || s.stops[t].pc.StopUnlock?)
    requires s.stops[t].pc.StopRun? && StopNeedsMu(s.stops[t].pc.stop) ==> s.controllers[s.stops[t].controller].mu.None?
    ensures StopAdvanced(s, t, a, s')
  {
    hide StopGoes, StopReturns, StopNeedsMu;
    var call := s.stops[t];
    var c := s.controllers[call.controller];
    if call.pc.StopUnlock? {
      a, s' := Answer.Ok, s.(stops := s.stops[t := call.(pc := StopDone)], controllers := s.controllers[call.controller := c.(lifecycleMu := None)]);
      assert LeaveStop(s, t, s');
      return;
    }
    var goes, next, ok, d;
    a, goes, next, ok, d := StopProgram(s, c, StopHolder(t), call.pc.stop);
    if goes {
      s' := s.(stops := s.stops[t := call.(pc := StopRun(next))], controllers := s.controllers[call.controller := d]);
      assert StopCallGoes(s, t, a, next, s');
    } else {
      s' := s.(stops := s.stops[t := call.(pc := StopUnlock)], controllers := s.controllers[call.controller := d]);
      assert StopCallReturns(s, t, a, ok, s');
    }
  }

  /* ---- its process and its wait() ---- */

  lemma AliveMoves(s: State, k: LaunchId) returns (a: Answer, s': State)
    requires Known(s, k) && s.launches[k].process.Alive?
    ensures Advanced(s, k, a, s')
  {
    hide ArbitrationStep, PrepareStep, StartStep, RollbackStep, AbortStep, FinishStep, PublishClaim, StopOldStep;
    hide ReapProcess, ObserveExit, PersistExit, NoteExitFailure, ReleaseExited, CompleteExited;
    var launch := s.launches[k];
    a, s' := Answer.Ok, s.(launches := s.launches[k := launch.(process := Dead)]);
    assert ProcessDies(s, k, s');
  }

  lemma DeadMoves(s: State, k: LaunchId) returns (a: Answer, s': State)
    requires Known(s, k) && s.launches[k].process.Dead?
    ensures Advanced(s, k, a, s')
  {
    hide ArbitrationStep, PrepareStep, StartStep, RollbackStep, AbortStep, FinishStep, PublishClaim, StopOldStep;
    hide ProcessDies, ObserveExit, PersistExit, NoteExitFailure, ReleaseExited, CompleteExited;
    var launch := s.launches[k];
    var c := s.controllers[launch.controller];
    a, s' := Answer.Ok, s.(launches := s.launches[k := launch.(process := Reaped)],
                           controllers := s.controllers[launch.controller := if c.process == Some(k) then c.(process := None) else c]);
    assert ReapProcess(s, k, s');
  }

  lemma WaitingMoves(s: State, k: LaunchId) returns (a: Answer, s': State)
    requires Known(s, k) && s.launches[k].waiter.Waiting? && s.launches[k].process.Reaped?
    requires s.controllers[s.launches[k].controller].mu.None?
    ensures Advanced(s, k, a, s')
  {
    hide ArbitrationStep, PrepareStep, StartStep, RollbackStep, AbortStep, FinishStep, PublishClaim, StopOldStep;
    hide ProcessDies, ReapProcess, PersistExit, NoteExitFailure, ReleaseExited, CompleteExited;
    var launch := s.launches[k];
    var c := s.controllers[launch.controller];
    var d := c.(phase := Exited, clobbered := c.clobbered || c.run != Some(k));
    a, s' := Answer.Ok, s.(launches := s.launches[k := launch.(waiter := PersistTerminal(RecordOf(d), 0))],
                           controllers := s.controllers[launch.controller := d]);
    assert ObserveExit(s, k, a, s');
  }

  lemma PersistTerminalMoves(s: State, k: LaunchId) returns (a: Answer, s': State)
    requires Known(s, k) && s.launches[k].waiter.PersistTerminal?
    ensures Advanced(s, k, a, s')
  {
    hide ArbitrationStep, PrepareStep, StartStep, RollbackStep, AbortStep, FinishStep, PublishClaim, StopOldStep;
    hide ProcessDies, ReapProcess, ObserveExit, NoteExitFailure, ReleaseExited, CompleteExited;
    var launch := s.launches[k];
    a, s' := Quit, s.(launches := s.launches[k := launch.(waiter := NoteFailure)]);
    assert PersistExit(s, k, a, s');
  }

  lemma NoteFailureMoves(s: State, k: LaunchId) returns (a: Answer, s': State)
    requires Known(s, k) && s.launches[k].waiter.NoteFailure? && s.controllers[s.launches[k].controller].mu.None?
    ensures Advanced(s, k, a, s')
  {
    hide ArbitrationStep, PrepareStep, StartStep, RollbackStep, AbortStep, FinishStep, PublishClaim, StopOldStep;
    hide ProcessDies, ReapProcess, ObserveExit, PersistExit, ReleaseExited, CompleteExited;
    var launch := s.launches[k];
    a, s' := Answer.Ok, s.(launches := s.launches[k := launch.(waiter := ReleaseSlot)]);
    assert NoteExitFailure(s, k, s');
  }

  lemma ReleaseSlotMoves(s: State, k: LaunchId) returns (a: Answer, s': State)
    requires Known(s, k) && s.launches[k].waiter.ReleaseSlot?
    ensures Advanced(s, k, a, s')
  {
    hide ArbitrationStep, PrepareStep, StartStep, RollbackStep, AbortStep, FinishStep, PublishClaim, StopOldStep;
    hide ProcessDies, ReapProcess, ObserveExit, PersistExit, NoteExitFailure, CompleteExited;
    var launch := s.launches[k];
    a, s' := Answer.Ok, s.(launches := s.launches[k := launch.(waiter := Complete, slot := false)], free := Released(s, launch));
    assert ReleaseExited(s, k, s');
  }

  lemma CompleteMoves(s: State, k: LaunchId) returns (a: Answer, s': State)
    requires Known(s, k) && s.launches[k].waiter.Complete?
    ensures Advanced(s, k, a, s')
  {
    hide ArbitrationStep, PrepareStep, StartStep, RollbackStep, AbortStep, FinishStep, PublishClaim, StopOldStep;
    hide ProcessDies, ReapProcess, ObserveExit, PersistExit, NoteExitFailure, ReleaseExited;
    var launch := s.launches[k];
    a, s' := Answer.Ok, s.(launches := s.launches[k := launch.(waiter := Finished, done := true)]);
    assert CompleteExited(s, k, s');
  }

  /* ---- somebody can always move ---- */

  /** The call of k has an answer that lets it go on, unless somebody holds what it waits for. */
  lemma CallMoves(s: State, k: LaunchId) returns (a: Answer, s': State)
    requires Movable(s, k) && Unblocked(s, k) && !s.draining
    requires var pc := s.launches[k].pc; Owning(pc) || pc.Fence? || pc.Publish?
    ensures Worked(s, k, a, s')
  {
    hide Worked, ClaimOk, ProcessOk, AdmissionOk;
    match s.launches[k].pc {
      case Fence => a, s' := FenceMoves(s, k);
      case Publish => a, s' := PublishMoves(s, k);
      case Lifecycle => a, s' := LifecycleMoves(s, k);
      case Revalidate => a, s' := RevalidateMoves(s, k);
      case StopOld(_) => a, s' := StopOldMoves(s, k);
      case AwaitRun(_) => a, s' := AwaitMoves(s, k);
      case Slot => if s.maxConcurrent > 0 { a, s' := GiveUpMoves(s, k); } else { a, s' := SlotMoves(s, k); }
      case Create => a, s' := CreateMoves(s, k);
      case Commit => a, s' := CommitMoves(s, k);
      case PersistStarting => a, s' := PersistStartingMoves(s, k);
      case Spawn => a, s' := SpawnMoves(s, k);
      case PersistSpawnFailure => a, s' := PersistFailureMoves(s, k);
      case PersistRunning(_) => a, s' := PersistRunningMoves(s, k);
      case RollbackKill => a, s' := RollbackMoves(s, k);
      case ConfirmExit => a, s' := RollbackMoves(s, k);
      case PersistRolledBack => a, s' := PersistRollbackMoves(s, k);
      case RunRelease(_) => a, s' := RunReleaseMoves(s, k);
      case RunComplete(_) => a, s' := RunCompleteMoves(s, k);
      case RunForget => a, s' := RunForgetMoves(s, k);
      case AbortRelease => a, s' := AbortReleaseMoves(s, k);
      case AbortFail => a, s' := AbortFailMoves(s, k);
      case AbortForget => a, s' := AbortForgetMoves(s, k);
      case AbortToken => a, s' := AbortTokenMoves(s, k);
      case Returned => a, s' := ReturnedMoves(s, k);
      case FailUnspawned => a, s' := FailUnspawnedMoves(s, k);
      case PersistUnspawned => a, s' := PersistUnspawnedMoves(s, k);
      case Forget => a, s' := ForgetMoves(s, k);
      case ReleaseOp => a, s' := ReleaseOpMoves(s, k);
    }
  }

  /** The process is gone and wait() has ended, or was never started. */
  predicate Still(launch: Launch) {
    (launch.waiter.NoWaiter? || launch.waiter.Finished?) && !launch.process.Alive? && !launch.process.Dead?
  }

  lemma WaitMoves(s: State, k: LaunchId) returns (a: Answer, s': State)
    requires Movable(s, k) && !Still(s.launches[k]) && s.controllers[s.launches[k].controller].mu.None?
    ensures Advanced(s, k, a, s')
  {
    hide Advanced, ClaimOk, AdmissionOk;
    var launch := s.launches[k];
    if launch.process.Alive? {
      a, s' := AliveMoves(s, k);
    } else if launch.process.Dead? {
      a, s' := DeadMoves(s, k);
    } else {
      match launch.waiter {
        case Waiting => a, s' := WaitingMoves(s, k);
        case PersistTerminal(_, _) => a, s' := PersistTerminalMoves(s, k);
        case NoteFailure => a, s' := NoteFailureMoves(s, k);
        case ReleaseSlot => a, s' := ReleaseSlotMoves(s, k);
        case Complete => a, s' := CompleteMoves(s, k);
      }
    }
  }

  /* ---- a call that waits ---- */

  function ModelOf(s: State, l: LaunchId): ModelId
    requires Known(s, l)
  { s.controllers[s.launches[l].controller].modelId }

  /** The controller of l is idle, for a restart has its record, and l can still pass arbitration. */
  predicate Waits(s: State, l: LaunchId) {
    && Known(s, l)
    && var launch := s.launches[l]; var c := s.controllers[launch.controller];
    && (launch.pc.ArbWait? || Arbitrating(launch.pc)) && !Refused(s, launch) && !s.draining
    && (launch.restart ==> c.phase.Terminal() && c.instanceId in s.durable)
    && c.active.None? && c.process.None?
    && (c.run.Some? ==> c.run.value in s.launches && s.launches[c.run.value].done)
    && (forall k :: k in s.launches && k != l && s.launches[k].controller == launch.controller ==> s.launches[k].pc.ArbWait? || s.launches[k].pc.Done?)
  }

  /** Nobody else is before the fence of its arbitration for the same model. */
  predicate Alone(s: State, l: LaunchId)
    requires Tables(s) && l in s.launches
  {
    forall k :: k in s.launches && k != l && ModelOf(s, k) == ModelOf(s, l) ==> !s.launches[k].pc.ArbCheck? && !s.launches[k].pc.Scan?
  }

  lemma WaitsKept(s: State, l: LaunchId, k: LaunchId, s': State)
    requires Waits(s, l) && k != l && Shifted(s, k, s')
    ensures Waits(s', l) && l in s.launches && l in s'.launches && s'.launches[l] == s.launches[l]
  {
  }

  lemma AloneKept(s: State, l: LaunchId, k: LaunchId, s': State)
    requires l in s.launches && k != l && Shifted(s, k, s')
    requires Tables(s) && Tables(s') && Alone(s, l)
    ensures Alone(s', l)
  {
    hide Owning, Arbitrating;
  }

  lemma StopWaitsKept(s: State, l: LaunchId, t: StopId, s': State)
    requires Waits(s, l) && StopShifted(s, t, s')
    ensures Waits(s', l) && l in s.launches && s'.launches == s.launches
    ensures Tables(s) && Tables(s') && Alone(s, l) ==> Alone(s', l)
  {
  }

  ghost predicate Ready(s: State, l: LaunchId) { Inv(s) && Backed(s) && Waits(s, l) && Alone(s, l) }

  /** The processes of `live` that run keep running. */
  predicate Spares(s: State, live: set<LaunchId>, s': State) {
    forall p :: p in live && p in s.launches && s.launches[p].process.Alive? ==> p in s'.launches && s'.launches[p].process.Alive?
  }

  /** A step of another party that leaves less to do. */
  ghost predicate Progress(s: State, l: LaunchId, live: set<LaunchId>, s': State) {
    && Next(s, s') && Ready(s', l) && l in s.launches && s'.launches[l] == s.launches[l] && Work(s') < Work(s)
    && Spares(s, live, s')
  }

  lemma LaunchWorkFalls(s: State, k: LaunchId, s': State)
    requires Shifted(s, k, s') && Rank(s'.launches[k]) < Rank(s.launches[k])
    ensures Work(s') < Work(s)
  {
    hide Rank, Sum, Owning, Arbitrating;
    assert CallWork(s') == CallWork(s)[k := Rank(s'.launches[k])];
    SumChanges(CallWork(s), k, Rank(s'.launches[k]));
    assert StopWork(s') == StopWork(s);
  }

  lemma StopWorkFalls(s: State, t: StopId, s': State)
    requires StopShifted(s, t, s') && StopCallRank(s'.stops[t]) < StopCallRank(s.stops[t])
    ensures Work(s') < Work(s)
  {
    hide StopCallRank, Sum;
    assert StopWork(s') == StopWork(s)[t := StopCallRank(s'.stops[t])];
    SumChanges(StopWork(s), t, StopCallRank(s'.stops[t]));
    assert CallWork(s') == CallWork(s);
  }

  lemma MoveSpares(s: State, live: set<LaunchId>, k: LaunchId, s': State)
    requires Shifted(s, k, s')
    requires k in live && s.launches[k].process.Alive? ==> s'.launches[k].process.Alive?
    ensures Spares(s, live, s')
  {
  }

  lemma LaunchProgress(s: State, l: LaunchId, live: set<LaunchId>, k: LaunchId, a: Answer, s': State)
    requires Ready(s, l) && k != l && Advanced(s, k, a, s')
    requires k in live && s.launches[k].process.Alive? ==> s'.launches[k].process.Alive?
    ensures Progress(s, l, live, s')
  {
    hide Inv, Backed, Tables, Waits, Alone, Shifted, LaunchStep, Rank, Work, Spares;
    MoveSpares(s, live, k, s');
    assert Next(s, s');
    TablesOf(s);
    NextKeepsBacked(s, s');
    TablesOf(s');
    WaitsKept(s, l, k, s');
    AloneKept(s, l, k, s');
    LaunchWorkFalls(s, k, s');
  }

  lemma StopProgress(s: State, l: LaunchId, live: set<LaunchId>, t: StopId, a: Answer, s': State)
    requires Ready(s, l) && StopAdvanced(s, t, a, s')
    ensures Progress(s, l, live, s')
  {
    hide Inv, Backed, Tables, Waits, Alone, StopShifted, StopStep, StopCallRank, Work;
    assert Next(s, s');
    TablesOf(s);
    NextKeepsBacked(s, s');
    TablesOf(s');
    StopWaitsKept(s, l, t, s');
    StopWorkFalls(s, t, s');
  }

  lemma ReadyMeans(s: State, l: LaunchId)
    requires Ready(s, l)
    ensures Tables(s) && Waits(s, l) && !s.draining
  {
    hide Inv, Backed, Tables, Alone;
    TablesOf(s);
  }

  /** Whoever holds the mutex of a controller waits for nobody. */
  lemma MuHolderMoves(s: State, l: LaunchId, live: set<LaunchId>, id: ControllerId) returns (s': State)
    requires Ready(s, l) && id in s.controllers && s.controllers[id].mu.Some?
    ensures Progress(s, l, live, s')
  {
    hide Inv, Waits, Alone, Advanced, StopAdvanced, Progress, LockOk, FlightOk, AbortedOk, ClaimOk, ProcessOk, AdmissionOk;
    ReadyMeans(s, l);
    assert HoldersOk(s, id);
    match s.controllers[id].mu.value {
      case LaunchHolder(k) =>
        assert HoldsMu(s.launches[k].pc);
        MovableOf(s, k);
        WaiterHoldsNothing(s, l);
        var a;
        a, s' := CallMoves(s, k);
        LaunchProgress(s, l, live, k, a, s');
      case StopHolder(t) =>
        var a;
        a, s' := StopCallMoves(s, t);
        StopProgress(s, l, live, t, a, s');
    }
  }

  lemma WaiterHoldsNothing(s: State, l: LaunchId)
    requires Waits(s, l)
    ensures l in s.launches && !HoldsMu(s.launches[l].pc) && !HoldsLifecycle(s.launches[l]) && !Owning(s.launches[l].pc)
  {
  }

  /** The call of k does nothing that could stand in the way of l, and its process, unless it is left to live, and wait() are over. */
  predicate Rested(s: State, l: LaunchId, live: set<LaunchId>, k: LaunchId)
    requires Known(s, l) && Known(s, k)
  {
    var pc := s.launches[k].pc;
    && !Owning(pc) && ((pc.Fence? || pc.Publish?) ==> ModelOf(s, k) != ModelOf(s, l))
    && (Still(s.launches[k]) || Left(s, live, k))
  }

  predicate Left(s: State, live: set<LaunchId>, k: LaunchId)
    requires k in s.launches
  { k in live && s.launches[k].process.Alive? }

  predicate StopRested(pc: StopCallPc) { !pc.StopRun? && !pc.StopUnlock? }

  predicate Settled(s: State, l: LaunchId, live: set<LaunchId>)
    requires Tables(s) && l in s.launches
  {
    && (forall k :: k in s.launches && k != l ==> Rested(s, l, live, k))
    && (forall t :: t in s.stops ==> StopRested(s.stops[t].pc))
  }

  lemma CallProgress(s: State, l: LaunchId, live: set<LaunchId>, k: LaunchId) returns (s': State)
    requires Ready(s, l) && Known(s, k) && k != l && Unblocked(s, k)
    requires var pc := s.launches[k].pc; Owning(pc) || pc.Fence? || pc.Publish?
    ensures Progress(s, l, live, s')
  {
    hide Inv, Waits, Alone, Advanced, Progress, Backed, Unblocked, ClaimOk, ProcessOk, AdmissionOk;
    ReadyMeans(s, l);
    MovableOf(s, k);
    var a;
    a, s' := CallMoves(s, k);
    LaunchProgress(s, l, live, k, a, s');
  }

  lemma WaitProgress(s: State, l: LaunchId, live: set<LaunchId>, k: LaunchId) returns (s': State)
    requires Ready(s, l) && Known(s, k) && k != l && !Still(s.launches[k]) && !Left(s, live, k)
    requires s.controllers[s.launches[k].controller].mu.None?
    ensures Progress(s, l, live, s')
  {
    hide Inv, Waits, Alone, Advanced, Progress, Backed, Still, ClaimOk, ProcessOk, AdmissionOk;
    MovableOf(s, k);
    var a;
    a, s' := WaitMoves(s, k);
    LaunchProgress(s, l, live, k, a, s');
  }

  lemma StopBusyMoves(s: State, l: LaunchId, live: set<LaunchId>, t: StopId) returns (s': State)
    requires Ready(s, l) && KnownStop(s, t) && !StopRested(s.stops[t].pc)
    ensures Progress(s, l, live, s')
  {
    hide Ready, Progress, StopAdvanced;
    if s.controllers[s.stops[t].controller].mu.Some? {
      s' := MuHolderMoves(s, l, live, s.stops[t].controller);
    } else {
      var a;
      a, s' := StopCallMoves(s, t);
      StopProgress(s, l, live, t, a, s');
    }
  }

  /** Whoever is at work and does not wait for lifecycleMu can go on, or the holder of its mutex can. */
  lemma BusyMoves(s: State, l: LaunchId, live: set<LaunchId>, k: LaunchId) returns (s': State)
    requires Ready(s, l) && Known(s, l) && Known(s, k) && k != l && !Rested(s, l, live, k) && !s.launches[k].pc.Lifecycle?
    ensures Progress(s, l, live, s')
  {
    hide Ready, Progress, Still, Left;
    if s.controllers[s.launches[k].controller].mu.Some? {
      s' := MuHolderMoves(s, l, live, s.launches[k].controller);
    } else if !Still(s.launches[k]) && !Left(s, live, k) {
      s' := WaitProgress(s, l, live, k);
    } else {
      s' := CallProgress(s, l, live, k);
    }
  }

  /** The holder of a controller's lifecycleMu is at work. */
  lemma LifecycleHolderMoves(s: State, l: LaunchId, live: set<LaunchId>, id: ControllerId) returns (s': State)
    requires Ready(s, l) && id in s.controllers && s.controllers[id].lifecycleMu.Some?
    ensures Progress(s, l, live, s')
  {
    hide Inv, Waits, Alone, Progress, LockOk, FlightOk, AbortedOk;
    ReadyMeans(s, l);
    assert HoldersOk(s, id);
    WaiterHoldsNothing(s, l);
    match s.controllers[id].lifecycleMu.value {
      case LaunchHolder(k) =>
        assert HoldsLifecycle(s.launches[k]) && Owning(s.launches[k].pc) && !s.launches[k].pc.Lifecycle?;
        s' := BusyMoves(s, l, live, k);
      case StopHolder(t) => s' := StopBusyMoves(s, l, live, t);
    }
  }

  lemma SomebodyMoves(s: State, l: LaunchId, live: set<LaunchId>) returns (s': State)
    requires Ready(s, l) && Tables(s) && l in s.launches && !Settled(s, l, live)
    ensures Progress(s, l, live, s')
  {
    hide Ready, Progress, Rested, StopRested;
    if t :| t in s.stops && !StopRested(s.stops[t].pc) {
      s' := StopBusyMoves(s, l, live, t);
    } else {
      var k :| k in s.launches && k != l && !Rested(s, l, live, k);
      if !s.launches[k].pc.Lifecycle? {
        s' := BusyMoves(s, l, live, k);
      } else if s.controllers[s.launches[k].controller].lifecycleMu.Some? {
        s' := LifecycleHolderMoves(s, l, live, s.launches[k].controller);
      } else {
        s' := CallProgress(s, l, live, k);
      }
    }
  }

  /** Everybody else comes to rest while l waits where it is and the processes of `live` go on running. */
  lemma {:induction false} Settles(s: State, l: LaunchId, live: set<LaunchId>) returns (s': State)
    requires Ready(s, l)
    ensures Leads(s, s') && Ready(s', l) && Tables(s') && Settled(s', l, live) && Spares(s, live, s')
    ensures l in s.launches && s'.launches[l] == s.launches[l]
    decreases Work(s)
  {
    hide Inv, Backed, Tables, Waits, Alone, Settled, Next, Leads, Work;
    ReadyMeans(s, l);
    WaiterHoldsNothing(s, l);
    Stay(s);
    if Settled(s, l, live) {
      s' := s;
    } else {
      var next := SomebodyMoves(s, l, live);
      Then(s, s, next);
      s' := Settles(next, l, live);
      Onwards(s, next, s');
    }
  }
}
