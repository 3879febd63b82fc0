/** One call that finds everything free: its program step by step, on any state, with everything else left alone. */
module LaunchScript {
  import opened Wrappers
  import opened LaunchState
  import opened LaunchSteps
  import opened LaunchInvariant
  import opened LaunchPaths

  /** Call l and its controller move; nobody else does. */
  predicate Only(s: State, l: LaunchId, s': State) {
    && Known(s, l) && Known(s', l)
    && var id := s.launches[l].controller;
    && s'.launches[l].controller == id
    && var c, d := s.controllers[id], s'.controllers[id];
    && s'.launches == s.launches[l := s'.launches[l]] && s'.controllers == s.controllers[id := d]
    && s'.launches[l].restart == s.launches[l].restart && s'.launches[l].owner == s.launches[l].owner
    && d.instanceId == c.instanceId && d.modelId == c.modelId && d.pipelineId == c.pipelineId && d.entryId == c.entryId && d.clobbered == c.clobbered
    && s'.cleaners == s.cleaners && s'.maxConcurrent == s.maxConcurrent && s'.draining == s.draining && s'.cancelled == s.cancelled
    && s.durable.Keys <= s'.durable.Keys <= s.durable.Keys + {c.instanceId}
    && (s'.registry == s.registry || s'.registry == s.registry[c.instanceId := id])
  }

  /** The state can follow, and only l moves. */
  ghost predicate Went(s: State, l: LaunchId, s': State) { Leads(s, s') && Only(s, l, s') }

  function Ctl(s: State, l: LaunchId): Controller
    requires Known(s, l)
  { s.controllers[s.launches[l].controller] }

  lemma Goes(s: State, l: LaunchId, a: Answer, s': State)
    requires LaunchStep(s, l, a, s')
    ensures Leads(s, s')
  {
    hide Leads, LaunchStep;
    Stay(s);
    Acts(s, s, l, a, s');
  }

  lemma OnlyOn(s: State, l: LaunchId, t: State, u: State)
    requires Only(s, l, t) && Only(t, l, u)
    ensures Only(s, l, u)
  {
  }

  lemma GoesOn(s: State, l: LaunchId, t: State, u: State)
    requires Went(s, l, t) && Went(t, l, u)
    ensures Went(s, l, u)
  {
    hide Leads, Only;
    Onwards(s, t, u);
    OnlyOn(s, l, t, u);
  }

  /* ---- arbitration ---- */

  /** Nothing stops l before its claim. */
  predicate Passable(s: State, l: LaunchId) {
    && Known(s, l)
    && var launch := s.launches[l]; var c := s.controllers[launch.controller];
    && !s.draining && c.mu.None? && (launch.restart ==> RestartTarget(c))
    && (launch.pc.ArbWait? || Arbitrating(launch.pc)) && (s.cancelled ==> !launch.pc.ArbWait? && !launch.pc.ArbCheck?)
    && (launch.pc.ArbWait? ==> c.modelId !in s.arbLocks)
    && forall id :: id in s.registry ==> !Conflicts(s, launch, id)
  }

  /** l stands at pc and nothing else has changed but the arbitration locks. */
  predicate Moved(s: State, l: LaunchId, pc: Pc, s': State) {
    l in s.launches && s' == s.(launches := s.launches[l := s.launches[l].(pc := pc)], arbLocks := s'.arbLocks)
  }

  lemma MovedIsOnly(s: State, l: LaunchId, pc: Pc, s': State)
    requires Known(s, l) && Moved(s, l, pc, s')
    ensures Only(s, l, s')
  {
    assert s.controllers == s.controllers[s.launches[l].controller := s.controllers[s.launches[l].controller]];
  }

  lemma MovedOn(s: State, l: LaunchId, pc: Pc, t: State, next: Pc, u: State)
    requires Moved(s, l, pc, t) && Moved(t, l, next, u)
    ensures Moved(s, l, next, u)
  {
    assert u.launches == s.launches[l := s.launches[l].(pc := next)];
  }

  lemma StaysPassable(s: State, l: LaunchId, pc: Pc, s': State)
    requires Passable(s, l) && Moved(s, l, pc, s') && Arbitrating(pc) && (s.cancelled ==> !pc.ArbCheck?)
    ensures Passable(s', l) && s'.launches[l].pc == pc
  {
    forall id | id in s'.registry ensures !Conflicts(s', s'.launches[l], id) { assert !Conflicts(s, s.launches[l], id); }
  }

  lemma Undecided(s: State, l: LaunchId)
    requires Passable(s, l)
    ensures Known(s, l) && !s.draining && (s.launches[l].pc.ArbWait? || Arbitrating(s.launches[l].pc))
  {
  }

  lemma Arrives(s: State, l: LaunchId, a: Answer, pc: Pc, s': State)
    requires Passable(s, l) && Moved(s, l, pc, s') && Arbitrating(pc) && (s.cancelled ==> !pc.ArbCheck?) && ArbitrationStep(s, l, a, s')
    ensures Leads(s, s') && Passable(s', l) && s'.launches[l].pc == pc
  {
    hide Leads, Passable, Moved, ArbitrationStep;
    assert LaunchStep(s, l, a, s');
    Goes(s, l, a, s');
    StaysPassable(s, l, pc, s');
  }

  lemma Acquires(s: State, l: LaunchId) returns (s': State)
    requires Passable(s, l) && s.launches[l].pc.ArbWait?
    ensures Leads(s, s') && Passable(s', l) && Moved(s, l, ArbCheck, s') && s'.launches[l].pc.ArbCheck?
  {
    hide Leads, Reject, CheckTarget, Examine, Pass, Conflicts;
    s' := s.(launches := s.launches[l := s.launches[l].(pc := ArbCheck)], arbLocks := s.arbLocks[Ctl(s, l).modelId := l]);
    assert AcquireArbitration(s, l, s');
    Arrives(s, l, Answer.Ok, ArbCheck, s');
  }

  lemma Checks(s: State, l: LaunchId) returns (s': State)
    requires Passable(s, l) && s.launches[l].pc.ArbCheck?
    ensures Leads(s, s') && Passable(s', l) && Moved(s, l, Scan(s.registry.Keys), s') && s'.launches[l].pc.Scan?
  {
    hide Leads, AcquireArbitration, Reject, Examine, Pass, Conflicts;
    s' := s.(launches := s.launches[l := s.launches[l].(pc := Scan(s.registry.Keys))]);
    assert CheckTarget(s, l, s');
    Arrives(s, l, Answer.Ok, Scan(s.registry.Keys), s');
  }

  lemma Passes(s: State, l: LaunchId, a: Answer) returns (s': State)
    requires Passable(s, l) && (s.launches[l].pc == Scan({}) || (s.launches[l].pc.Fence? && a.Fail?))
    ensures Leads(s, s') && Passable(s', l) && Moved(s, l, if s.launches[l].pc.Fence? then Publish else Fence, s')
    ensures s'.launches[l].pc == if s.launches[l].pc.Fence? then Publish else Fence
  {
    hide Leads, Passable, AcquireArbitration, Reject, CheckTarget, Examine;
    Undecided(s, l);
    var pc := if s.launches[l].pc.Fence? then Publish else Fence;
    s' := s.(launches := s.launches[l := s.launches[l].(pc := pc)]);
    assert Pass(s, l, a, s');
    Arrives(s, l, a, pc, s');
  }

  lemma Examines(s: State, l: LaunchId, one: InstanceId) returns (s': State)
    requires Passable(s, l) && s.launches[l].pc.Scan? && one in s.launches[l].pc.todo
    ensures Leads(s, s') && Passable(s', l) && Moved(s, l, Scan(s.launches[l].pc.todo - {one}), s')
    ensures s'.launches[l].pc == Scan(s.launches[l].pc.todo - {one})
  {
    hide Leads, AcquireArbitration, Reject, CheckTarget, Pass;
    var pc := Scan(s.launches[l].pc.todo - {one});
    s' := s.(launches := s.launches[l := s.launches[l].(pc := pc)]);
    assert Examine(s, l, Visit(one), s');
    Arrives(s, l, Visit(one), pc, s');
  }

  lemma Picked<T>(todo: set<T>) returns (x: T)
    requires todo != {}
    ensures x in todo
  {
    x :| x in todo;
  }

  lemma {:induction false} Scans(s: State, l: LaunchId) returns (s': State)
    requires Passable(s, l) && s.launches[l].pc.Scan?
    ensures Leads(s, s') && Passable(s', l) && Moved(s, l, Fence, s') && s'.launches[l].pc.Fence?
    decreases s.launches[l].pc.todo
  {
    hide Leads, Passable, Moved;
    Undecided(s, l);
    var todo := s.launches[l].pc.todo;
    if todo == {} {
      s' := Passes(s, l, Answer.Ok);
    } else {
      var one := Picked(todo);
      var next := Examines(s, l, one);
      Undecided(next, l);
      s' := Scans(next, l);
      Onwards(s, next, s');
      MovedOn(s, l, Scan(todo - {one}), next, Fence, s');
    }
  }

  /** The scan finds nothing, and a failing read of the records lets the claimant pass the fence. */
  lemma PassesScan(s: State, l: LaunchId) returns (s': State)
    requires Passable(s, l) && (s.launches[l].pc.Scan? || s.launches[l].pc.Fence? || s.launches[l].pc.Publish?)
    ensures Leads(s, s') && Passable(s', l) && Moved(s, l, Publish, s') && s'.launches[l].pc.Publish?
  {
    hide Leads, Passable, Moved;
    Undecided(s, l);
    if s.launches[l].pc.Scan? {
      var t := Scans(s, l);
      Undecided(t, l);
      s' := Passes(t, l, Answer.Fail);
      Onwards(s, t, s');
      MovedOn(s, l, Fence, t, Publish, s');
    } else if s.launches[l].pc.Fence? {
      s' := Passes(s, l, Answer.Fail);
    } else {
      s' := s;
      Stay(s);
      Unmoved(s, l);
    }
  }

  lemma Unmoved(s: State, l: LaunchId)
    requires l in s.launches
    ensures Moved(s, l, s.launches[l].pc, s)
  {
    assert s.launches == s.launches[l := s.launches[l]];
  }

  lemma {:induction false} Arbitrates(s: State, l: LaunchId) returns (s': State)
    requires Passable(s, l)
    ensures Leads(s, s') && Passable(s', l) && Moved(s, l, Publish, s') && s'.launches[l].pc.Publish?
    decreases s.launches[l].pc.ArbWait?
  {
    hide Leads, Passable, Moved;
    Undecided(s, l);
    if s.launches[l].pc.ArbWait? {
      var t := Acquires(s, l);
      Undecided(t, l);
      s' := Arbitrates(t, l);
      Onwards(s, t, s');
      MovedOn(s, l, ArbCheck, t, Publish, s');
    } else if s.launches[l].pc.ArbCheck? {
      var t := Checks(s, l);
      Undecided(t, l);
      s' := PassesScan(t, l);
      Onwards(s, t, s');
      MovedOn(s, l, Scan(s.registry.Keys), t, Publish, s');
    } else {
      s' := PassesScan(s, l);
    }
  }

  /* ---- from the claim to the process ---- */

  /** A slot is free. */
  predicate Room(s: State) { s.maxConcurrent == 0 || s.free > 0 }

  /** The call has run nothing yet, and its controller runs nothing. */
  predicate Free(s: State, l: LaunchId)
    requires Known(s, l)
  {
    var launch := s.launches[l]; var c := Ctl(s, l);
    && launch.process.NoProcess? && launch.waiter.NoWaiter? && !launch.done && !launch.rolledBack
    && !s.draining && c.process.None? && c.mu.None?
    && (launch.restart ==> c.phase.Terminal() && c.instanceId in s.durable && (c.run.Some? ==> c.run.value in s.launches && s.launches[c.run.value].done))
  }

  predicate Accepted(s: State, l: LaunchId)
    requires Known(s, l)
  { ClaimAccepted(l, s.launches[l], Ctl(s, l)) }

  predicate Unlocked(s: State, l: LaunchId)
    requires Known(s, l)
  { Ctl(s, l).modelId !in s.arbLocks }

  /** The claim stands, the model's lock is given back, and everything is still free. */
  predicate Claimed(s: State, l: LaunchId) { Known(s, l) && Free(s, l) && Accepted(s, l) && Unlocked(s, l) }

  lemma PublishesRestart(s: State, l: LaunchId) returns (s': State)
    requires Passable(s, l) && Free(s, l) && s.launches[l].pc.Publish? && s.launches[l].restart && Ctl(s, l).lifecycleMu.None?
    ensures Went(s, l, s') && s'.launches[l].spawns == s.launches[l].spawns
    ensures (Room(s) ==> Room(s'))
    ensures Claimed(s', l) && s'.launches[l].pc.Lifecycle? && Ctl(s', l).lifecycleMu.None?
  {
    hide ArbitrationStep, PrepareStep, StartStep, RollbackStep, AbortStep, FinishStep, ProcessStep, StopOldStep;
    hide Leads;
    var launch := s.launches[l];
    var c := Ctl(s, l);
    var claim := SpawnClaim(c.modelId, launch.owner, c.instanceId, s.opSeq + 1, launch.restart, false);
    var op := Operation(s.opSeq + 1, launch.owner, l);
    s' := s.(opSeq := s.opSeq + 1, arbLocks := s.arbLocks - {c.modelId}, launches := s.launches[l := launch.(pc := Lifecycle, claim := Some(claim))],
             controllers := s.controllers[launch.controller := c.(active := Some(op))]);
    assert PublishClaim(s, l, s');
    Goes(s, l, Answer.Ok, s');
  }

  lemma PublishesAdmission(s: State, l: LaunchId) returns (s': State)
    requires Passable(s, l) && Free(s, l) && s.launches[l].pc.Publish? && !s.launches[l].restart && Ctl(s, l).lifecycleMu.None?
    ensures Went(s, l, s') && s'.launches[l].spawns == s.launches[l].spawns
    ensures (Room(s) ==> Room(s'))
    ensures Claimed(s', l) && s'.launches[l].pc.Slot? && Ctl(s', l).lifecycleMu.None?
            && s'.registry == s.registry[Ctl(s, l).instanceId := s.launches[l].controller]
  {
    hide ArbitrationStep, PrepareStep, StartStep, RollbackStep, AbortStep, FinishStep, ProcessStep, StopOldStep;
    hide Leads;
    var launch := s.launches[l];
    var c := Ctl(s, l);
    var claim := SpawnClaim(c.modelId, launch.owner, c.instanceId, s.opSeq + 1, launch.restart, false);
    var op := Operation(s.opSeq + 1, launch.owner, l);
    s' := s.(opSeq := s.opSeq + 1, arbLocks := s.arbLocks - {c.modelId}, launches := s.launches[l := launch.(pc := Slot, claim := Some(claim))],
             controllers := s.controllers[launch.controller := c.(active := Some(op), preSpawnToken := true, born := true)],
             registry := s.registry[c.instanceId := launch.controller], preSpawnInFlight := s.preSpawnInFlight + 1);
    assert PublishClaim(s, l, s');
    Goes(s, l, Answer.Ok, s');
  }

  lemma Enters(s: State, l: LaunchId) returns (s': State)
    requires Claimed(s, l) && s.launches[l].pc.Lifecycle? && Ctl(s, l).lifecycleMu.None?
    ensures Went(s, l, s') && s'.launches[l].spawns == s.launches[l].spawns
    ensures (Room(s) ==> Room(s'))
    ensures Claimed(s', l) && s'.durable == s.durable && s'.launches[l].pc == if s.launches[l].restart then Revalidate else Commit
  {
    hide ArbitrationStep, StartStep, RollbackStep, AbortStep, FinishStep, ProcessStep, PublishClaim, StopOldStep;
    hide RevalidateOperation, AwaitPrevious, TakeSlot, GiveUpSlot, CreateRecord, Leads;
    var launch := s.launches[l];
    var c := Ctl(s, l);
    s' := s.(launches := s.launches[l := launch.(pc := if launch.restart then Revalidate else Commit)],
             controllers := s.controllers[launch.controller := c.(lifecycleMu := Some(LaunchHolder(l)))]);
    assert EnterLifecycle(s, l, s');
    Goes(s, l, Answer.Ok, s');
  }

  lemma Revalidates(s: State, l: LaunchId) returns (s': State)
    requires Claimed(s, l) && s.launches[l].restart && s.launches[l].pc.Revalidate?
    ensures Went(s, l, s') && s'.launches[l].spawns == s.launches[l].spawns
    ensures (Room(s) ==> Room(s'))
    ensures Claimed(s', l)
            && (s'.launches[l].pc.Slot? || (s'.launches[l].pc.AwaitRun? && s'.launches[l].pc.previous in s'.launches && s'.launches[s'.launches[l].pc.previous].done))
  {
    hide ArbitrationStep, StartStep, RollbackStep, AbortStep, FinishStep, ProcessStep, PublishClaim, StopOldStep;
    hide EnterLifecycle, AwaitPrevious, TakeSlot, GiveUpSlot, CreateRecord, Leads;
    var launch := s.launches[l];
    var c := Ctl(s, l);
    var pc := if c.run.Some? then AwaitRun(c.run.value) else Slot;
    s' := s.(launches := s.launches[l := launch.(pc := pc)]);
    assert RevalidateOperation(s, l, s');
    Goes(s, l, Answer.Ok, s');
  }

  lemma Awaits(s: State, l: LaunchId) returns (s': State)
    requires Claimed(s, l) && s.launches[l].pc.AwaitRun? && s.launches[l].pc.previous in s.launches
    requires s.launches[s.launches[l].pc.previous].done
    ensures Went(s, l, s') && s'.launches[l].spawns == s.launches[l].spawns
    ensures (Room(s) ==> Room(s'))
    ensures Claimed(s', l) && s'.launches[l].pc.Slot?
  {
    hide ArbitrationStep, StartStep, RollbackStep, AbortStep, FinishStep, ProcessStep, PublishClaim, StopOldStep;
    hide EnterLifecycle, RevalidateOperation, TakeSlot, GiveUpSlot, CreateRecord, Leads;
    var launch := s.launches[l];
    var c := Ctl(s, l);
    s' := s.(launches := s.launches[l := launch.(pc := Slot)]);
    assert AwaitPrevious(s, l, Answer.Ok, s');
    Goes(s, l, Answer.Ok, s');
  }

  lemma TakesSlot(s: State, l: LaunchId) returns (s': State)
    requires Claimed(s, l) && s.launches[l].pc.Slot? && Room(s)
    ensures Went(s, l, s') && s'.launches[l].spawns == s.launches[l].spawns
    ensures Claimed(s', l) && Ctl(s', l) == Ctl(s, l) && s'.launches[l].pc == if s.launches[l].restart then Commit else Create
  {
    hide ArbitrationStep, StartStep, RollbackStep, AbortStep, FinishStep, ProcessStep, PublishClaim, StopOldStep;
    hide EnterLifecycle, RevalidateOperation, AwaitPrevious, GiveUpSlot, CreateRecord, Leads;
    var launch := s.launches[l];
    var c := Ctl(s, l);
    s' := s.(launches := s.launches[l := launch.(pc := if launch.restart then Commit else Create, slot := s.maxConcurrent > 0)],
             free := if s.maxConcurrent > 0 then s.free - 1 else s.free);
    assert TakeSlot(s, l, s');
    Goes(s, l, Answer.Ok, s');
  }

  lemma Creates(s: State, l: LaunchId) returns (s': State)
    requires Claimed(s, l) && s.launches[l].pc.Create?
    ensures Went(s, l, s') && s'.launches[l].spawns == s.launches[l].spawns
    ensures Claimed(s', l) && Ctl(s', l) == Ctl(s, l) && s'.launches[l].pc.Lifecycle? && Ctl(s, l).instanceId in s'.durable
  {
    hide ArbitrationStep, StartStep, RollbackStep, AbortStep, FinishStep, ProcessStep, PublishClaim, StopOldStep;
    hide EnterLifecycle, RevalidateOperation, AwaitPrevious, TakeSlot, GiveUpSlot, Leads;
    var launch := s.launches[l];
    var c := Ctl(s, l);
    s' := s.(launches := s.launches[l := launch.(pc := Lifecycle)],
             durable := s.durable[c.instanceId := RecordOf(c)], written := s.written + {(c.instanceId, RecordOf(c))});
    assert CreateRecord(s, l, Answer.Ok, s');
    Goes(s, l, Answer.Ok, s');
  }

  /** Commit C is passed, and the manager has not started the process yet. */
  predicate Starting(s: State, l: LaunchId, pc: Pc) {
    && Known(s, l) && s.launches[l].pc == pc && Owned(s, l) && Unlocked(s, l) && Ctl(s, l).process.None? && !Ctl(s, l).preSpawnToken
    && s.launches[l].process.NoProcess? && s.launches[l].waiter.NoWaiter? && !s.launches[l].done && !s.launches[l].rolledBack
    && Ctl(s, l).instanceId in s.durable
  }

  /** The operation of the controller is the one of the call. */
  predicate Owned(s: State, l: LaunchId)
    requires Known(s, l)
  { Ctl(s, l).active.Some? && s.launches[l].claim.Some? && Ctl(s, l).active.value.id == s.launches[l].claim.value.opId }

  /** The function of commit C. */
  function CommittedState(s: State, l: LaunchId): State
    requires Known(s, l) && s.launches[l].claim.Some?
  {
    var launch := s.launches[l]; var c := s.controllers[launch.controller];
    s.(launches := s.launches[l := Spent(launch).(pc := PersistStarting, committed := true,
                                                  tokens := if c.preSpawnToken then launch.tokens + 1 else launch.tokens)],
       controllers := s.controllers[launch.controller := c.(phase := LaunchState.Starting, preSpawnToken := false, mu := Some(LaunchHolder(l)))],
       preSpawnInFlight := Drained(s, c), zeroSig := Signalled(s, c))
  }

  lemma Commits(s: State, l: LaunchId) returns (s': State)
    requires Claimed(s, l) && s.launches[l].pc.Commit? && Ctl(s, l).instanceId in s.durable
    ensures Went(s, l, s') && s'.launches[l].spawns == s.launches[l].spawns
    ensures Starting(s', l, PersistStarting)
  {
    hide ArbitrationStep, PrepareStep, RollbackStep, AbortStep, FinishStep, ProcessStep, PublishClaim, StopOldStep;
    hide CommitAfterDrain, ClaimRejected, PersistStartingState, SpawnProcess, SpawnFails, PersistFailure, PersistRunningState,
         PersistRunningFails, Leads;
    s' := CommittedState(s, l);
    assert CommitSpawn(s, l, s');
    Goes(s, l, Answer.Ok, s');
  }

  lemma Persists(s: State, l: LaunchId) returns (s': State)
    requires Starting(s, l, PersistStarting)
    ensures Went(s, l, s') && s'.launches[l].spawns == s.launches[l].spawns
    ensures Starting(s', l, Spawn) && Ctl(s', l).run == Some(l)
  {
    hide ArbitrationStep, PrepareStep, RollbackStep, AbortStep, FinishStep, ProcessStep, PublishClaim, StopOldStep;
    hide CommitSpawn, CommitAfterDrain, ClaimRejected, SpawnProcess, SpawnFails, PersistFailure, PersistRunningState, PersistRunningFails,
         Leads;
    var launch := s.launches[l];
    var c := Ctl(s, l);
    s' := s.(launches := s.launches[l := launch.(pc := Spawn, started := true)],
             controllers := s.controllers[launch.controller := c.(run := Some(l))],
             durable := s.durable[c.instanceId := RecordOf(c)], written := s.written + {(c.instanceId, RecordOf(c))});
    assert PersistStartingState(s, l, Answer.Ok, s');
    Goes(s, l, Answer.Ok, s');
  }

  /** The process runs, and its running record is about to be stored. */
  predicate Spawned(s: State, l: LaunchId) {
    && Known(s, l) && s.launches[l].pc == PersistRunning(0) && Owned(s, l) && Unlocked(s, l) && !Ctl(s, l).preSpawnToken
    && Ctl(s, l).process == Some(l) && Ctl(s, l).run == Some(l) && Ctl(s, l).phase.Running? && Ctl(s, l).instanceId in s.durable
    && s.launches[l].process.Alive? && s.launches[l].waiter.NoWaiter? && !s.launches[l].done && !s.launches[l].rolledBack
  }

  lemma Spawns(s: State, l: LaunchId) returns (s': State)
    requires Starting(s, l, Spawn) && Ctl(s, l).run == Some(l)
    ensures Went(s, l, s') && s'.launches[l].spawns == s.launches[l].spawns + 1 && Spawned(s', l)
  {
    hide ArbitrationStep, PrepareStep, RollbackStep, AbortStep, FinishStep, ProcessStep, PublishClaim, StopOldStep;
    hide CommitSpawn, CommitAfterDrain, ClaimRejected, PersistStartingState, SpawnFails, PersistFailure, PersistRunningState,
         PersistRunningFails, Leads;
    var launch := s.launches[l];
    var c := Ctl(s, l);
    s' := s.(launches := s.launches[l := launch.(pc := PersistRunning(0), process := Alive, spawns := launch.spawns + 1)],
             controllers := s.controllers[launch.controller := c.(process := Some(l), identity := Some(l), phase := Running)]);
    assert SpawnProcess(s, l, s');
    Goes(s, l, Answer.Ok, s');
  }

  /** The claim is published. */
  lemma Claims(s: State, l: LaunchId) returns (s': State)
    requires Passable(s, l) && Free(s, l) && Ctl(s, l).lifecycleMu.None?
    ensures Went(s, l, s') && s'.launches[l].spawns == s.launches[l].spawns
    ensures Claimed(s', l) && Ctl(s', l).lifecycleMu.None? && (Room(s) ==> Room(s'))
    ensures if s.launches[l].restart then s'.launches[l].pc.Lifecycle?
            else s'.launches[l].pc.Slot? && s'.registry == s.registry[Ctl(s, l).instanceId := s.launches[l].controller]
  {
    hide Leads, Passable, Claimed, Conflicts;
    Undecided(s, l);
    var t := Arbitrates(s, l);
    MovedIsOnly(s, l, Publish, t);
    if s.launches[l].restart { s' := PublishesRestart(t, l); } else { s' := PublishesAdmission(t, l); }
    GoesOn(s, l, t, s');
  }

  /** A restart with its claim is driven to commit C. */
  lemma ReachesCommit(s: State, l: LaunchId) returns (s': State)
    requires Claimed(s, l) && Room(s) && s.launches[l].restart && s.launches[l].pc.Lifecycle? && Ctl(s, l).lifecycleMu.None?
    ensures Went(s, l, s') && s'.launches[l].spawns == s.launches[l].spawns && Claimed(s', l) && s'.launches[l].pc.Commit?
  {
    hide Leads, Claimed, Only, Room;
    var b := Enters(s, l);
    SameKind(s, l, b);
    var c := Revalidates(b, l);
    SameKind(b, l, c);
    GoesOn(s, l, b, c);
    if c.launches[l].pc.AwaitRun? {
      var t := c;
      c := Awaits(t, l);
      GoesOn(s, l, t, c);
      SameKind(t, l, c);
    }
    s' := TakesSlot(c, l);
    GoesOn(s, l, c, s');
  }

  lemma Finishes(s: State, l: LaunchId) returns (s': State)
    requires Claimed(s, l) && s.launches[l].pc.Commit? && Ctl(s, l).instanceId in s.durable
    ensures Went(s, l, s') && s'.launches[l].spawns == s.launches[l].spawns + 1 && Spawned(s', l)
  {
    hide Leads, Claimed, Only, Starting, Spawned;
    var e := Commits(s, l);
    var f := Persists(e, l);
    GoesOn(s, l, e, f);
    s' := Spawns(f, l);
    GoesOn(s, l, f, s');
  }

  /** An admission with its claim is driven to its process. */
  lemma AdmissionStarts(s: State, l: LaunchId) returns (s': State)
    requires Claimed(s, l) && Room(s) && !s.launches[l].restart && s.launches[l].pc.Slot? && Ctl(s, l).lifecycleMu.None?
    ensures Went(s, l, s') && s'.launches[l].spawns == s.launches[l].spawns + 1 && Spawned(s', l)
  {
    hide Leads, Claimed, Only, Room, Spawned;
    var b := TakesSlot(s, l);
    SameKind(s, l, b);
    var c := Creates(b, l);
    GoesOn(s, l, b, c);
    SameKind(b, l, c);
    var d := Enters(c, l);
    RecordStays(c, l, d);
    SameKind(c, l, d);
    GoesOn(s, l, c, d);
    s' := Finishes(d, l);
    GoesOn(s, l, d, s');
  }

  lemma RecordStays(s: State, l: LaunchId, s': State)
    requires Only(s, l, s') && Ctl(s, l).instanceId in s.durable
    ensures Ctl(s', l).instanceId in s'.durable
  {
  }

  /** A restart with its claim is driven to its process. */
  lemma RestartStarts(s: State, l: LaunchId) returns (s': State)
    requires Claimed(s, l) && Room(s) && s.launches[l].restart && s.launches[l].pc.Lifecycle? && Ctl(s, l).lifecycleMu.None?
    requires Ctl(s, l).instanceId in s.durable
    ensures Went(s, l, s') && s'.launches[l].spawns == s.launches[l].spawns + 1 && Spawned(s', l)
  {
    hide Leads, Claimed, Only, Room, Spawned;
    var b := ReachesCommit(s, l);
    RecordStays(s, l, b);
    SameKind(s, l, b);
    s' := Finishes(b, l);
    GoesOn(s, l, b, s');
  }

  /** A call that finds everything free runs from its lookup to its process. */
  lemma Launches(s: State, l: LaunchId) returns (s': State)
    requires Passable(s, l) && Free(s, l) && Room(s) && Ctl(s, l).lifecycleMu.None? && (s.launches[l].restart ==> Ctl(s, l).instanceId in s.durable)
    ensures Went(s, l, s') && s'.launches[l].spawns == s.launches[l].spawns + 1 && Spawned(s', l)
    ensures !s.launches[l].restart ==> s'.registry == s.registry[Ctl(s, l).instanceId := s.launches[l].controller]
  {
    hide Leads, Passable, Free, Claimed, Only, Room, Spawned;
    Undecided(s, l);
    var b := Claims(s, l);
    SameKind(s, l, b);
    if s.launches[l].restart {
      RecordStays(s, l, b);
      s' := RestartStarts(b, l);
    } else {
      s' := AdmissionStarts(b, l);
      Registers(s, l, b, s');
    }
    GoesOn(s, l, b, s');
  }

  lemma Registers(s: State, l: LaunchId, t: State, u: State)
    requires Only(s, l, t) && Only(t, l, u) && t.registry == s.registry[Ctl(s, l).instanceId := s.launches[l].controller]
    ensures u.registry == t.registry
  {
  }

  lemma SameKind(s: State, l: LaunchId, s': State)
    requires Only(s, l, s')
    ensures Known(s, l) && Known(s', l) && s'.launches[l].restart == s.launches[l].restart
  {
  }

  /* ---- a start that succeeds, and its end ---- */

  /** The call stands at pc with its process running and recorded. */
  predicate RunsAt(s: State, l: LaunchId, pc: Pc) {
    && Known(s, l) && s.launches[l].pc == pc && Unlocked(s, l) && Ctl(s, l).mu.None? && Ctl(s, l).phase.Running? && !Ctl(s, l).preSpawnToken
    && Ctl(s, l).process == Some(l) && Ctl(s, l).run == Some(l) && Ctl(s, l).instanceId in s.durable
    && s.launches[l].process.Alive? && s.launches[l].waiter.Waiting? && s.launches[l].outcome.Success? && !s.launches[l].done
  }

  /** Nobody holds the controller. */
  predicate Idle(s: State, l: LaunchId)
    requires Known(s, l)
  { Ctl(s, l).mu.None? && Ctl(s, l).lifecycleMu.None? && Ctl(s, l).active.None? }

  lemma Records(s: State, l: LaunchId) returns (s': State)
    requires Spawned(s, l)
    ensures Went(s, l, s') && s'.launches[l].spawns == s.launches[l].spawns
    ensures RunsAt(s', l, AfterStart(s.launches[l])) && Owned(s', l)
  {
    hide ArbitrationStep, PrepareStep, RollbackStep, AbortStep, FinishStep, ProcessStep, PublishClaim, StopOldStep;
    hide CommitSpawn, CommitAfterDrain, ClaimRejected, PersistStartingState, SpawnProcess, SpawnFails, PersistFailure, PersistRunningFails,
         Leads;
    var launch := s.launches[l];
    var c := Ctl(s, l);
    s' := s.(launches := s.launches[l := launch.(pc := AfterStart(launch), outcome := Success, waiter := Waiting)],
             controllers := s.controllers[launch.controller := c.(mu := None)],
             durable := s.durable[c.instanceId := RecordOf(c)], written := s.written + {(c.instanceId, RecordOf(c))});
    assert PersistRunningState(s, l, s');
    Goes(s, l, Answer.Ok, s');
  }

  lemma Leaves(s: State, l: LaunchId) returns (s': State)
    requires RunsAt(s, l, Returned) && Owned(s, l)
    ensures Went(s, l, s') && s'.launches[l].spawns == s.launches[l].spawns
    ensures RunsAt(s', l, ReleaseOp) && Owned(s', l) && Ctl(s', l).lifecycleMu.None?
  {
    hide ArbitrationStep, PrepareStep, StartStep, RollbackStep, AbortStep, ProcessStep, PublishClaim, StopOldStep;
    hide MarkUnspawned, StoreUnspawned, ForgetController, ReleaseOperation, Leads;
    var launch := s.launches[l];
    var c := Ctl(s, l);
    s' := s.(launches := s.launches[l := launch.(pc := ReleaseOp)],
             controllers := s.controllers[launch.controller := c.(lifecycleMu := None)]);
    assert LeaveLifecycle(s, l, s');
    Goes(s, l, Answer.Ok, s');
  }

  lemma Releases(s: State, l: LaunchId) returns (s': State)
    requires RunsAt(s, l, ReleaseOp) && Owned(s, l) && (s.launches[l].restart || Ctl(s, l).lifecycleMu.None?)
    ensures Went(s, l, s') && s'.launches[l].spawns == s.launches[l].spawns
    ensures RunsAt(s', l, Done) && Idle(s', l)
  {
    hide ArbitrationStep, PrepareStep, StartStep, RollbackStep, AbortStep, ProcessStep, PublishClaim, StopOldStep;
    hide LeaveLifecycle, MarkUnspawned, StoreUnspawned, ForgetController, Leads;
    var launch := s.launches[l];
    var c := Ctl(s, l);
    s' := s.(launches := s.launches[l := launch.(pc := Done)],
             controllers := s.controllers[launch.controller := c.(active := None, lifecycleMu := if launch.restart then None else c.lifecycleMu)]);
    assert ReleaseOperation(s, l, s');
    Goes(s, l, Answer.Ok, s');
  }

  /** The start succeeds and gives everything back but its slot. */
  lemma Succeeds(s: State, l: LaunchId) returns (s': State)
    requires Spawned(s, l)
    ensures Went(s, l, s') && RunsAt(s', l, Done) && Idle(s', l)
  {
    hide Leads, Only, Spawned, RunsAt, Owned, Idle;
    Spawning(s, l);
    var a := Records(s, l);
    SameKind(s, l, a);
    if s.launches[l].restart {
      s' := Releases(a, l);
      GoesOn(s, l, a, s');
    } else {
      var b := Leaves(a, l);
      GoesOn(s, l, a, b);
      s' := Releases(b, l);
      GoesOn(s, l, b, s');
    }
  }

  lemma Spawning(s: State, l: LaunchId)
    requires Spawned(s, l)
    ensures Known(s, l)
  {
  }

  /** The process has ended, and wait() stands at a point. */
  predicate Ending(s: State, l: LaunchId, waiter: Waiter) {
    && Known(s, l) && s.launches[l].pc.Done? && Unlocked(s, l) && Idle(s, l) && Ctl(s, l).instanceId in s.durable
    && !Ctl(s, l).preSpawnToken && Ctl(s, l).process.None? && Ctl(s, l).run == Some(l) && Ctl(s, l).phase.Exited?
    && s.launches[l].process.Reaped? && s.launches[l].waiter == waiter
  }

  lemma Dies(s: State, l: LaunchId) returns (s': State)
    requires RunsAt(s, l, Done) && Idle(s, l)
    ensures Went(s, l, s') && s'.launches[l].spawns == s.launches[l].spawns
    ensures Known(s', l) && s' == s.(launches := s.launches[l := s.launches[l].(process := Dead)])
  {
    hide ArbitrationStep, PrepareStep, StartStep, RollbackStep, AbortStep, FinishStep, PublishClaim, StopOldStep;
    hide ReapProcess, ObserveExit, PersistExit, NoteExitFailure, ReleaseExited, CompleteExited, Leads;
    var launch := s.launches[l];
    var c := Ctl(s, l);
    s' := s.(launches := s.launches[l := launch.(process := Dead)]);
    assert ProcessDies(s, l, s');
    Goes(s, l, Answer.Ok, s');
  }

  lemma Exits(s: State, l: LaunchId) returns (s': State)
    requires Known(s, l) && s.launches[l].process.Dead? && s.launches[l].waiter.Waiting? && s.launches[l].pc.Done?
    requires Ctl(s, l).process == Some(l) && Ctl(s, l).run == Some(l) && Idle(s, l)
             && !Ctl(s, l).preSpawnToken && Unlocked(s, l) && Ctl(s, l).instanceId in s.durable
    ensures Went(s, l, s') && s'.launches[l].spawns == s.launches[l].spawns
    ensures Known(s', l) && s'.launches[l].process.Reaped? && s'.launches[l].waiter.Waiting? && s'.launches[l].pc.Done?
    ensures Ctl(s', l).process.None? && Ctl(s', l).run == Some(l) && Idle(s', l)
            && !Ctl(s', l).preSpawnToken && Unlocked(s', l) && Ctl(s', l).instanceId in s'.durable
  {
    hide ArbitrationStep, PrepareStep, StartStep, RollbackStep, AbortStep, FinishStep, PublishClaim, StopOldStep;
    hide ProcessDies, ObserveExit, PersistExit, NoteExitFailure, ReleaseExited, CompleteExited, Leads;
    var launch := s.launches[l];
    var c := Ctl(s, l);
    s' := s.(launches := s.launches[l := launch.(process := Reaped)],
             controllers := s.controllers[launch.controller := c.(process := None)]);
    assert ReapProcess(s, l, s');
    Goes(s, l, Answer.Ok, s');
  }

  lemma Observes(s: State, l: LaunchId) returns (s': State)
    requires Known(s, l) && s.launches[l].process.Reaped? && s.launches[l].waiter.Waiting? && s.launches[l].pc.Done?
    requires Ctl(s, l).process.None? && Ctl(s, l).run == Some(l) && Idle(s, l)
             && !Ctl(s, l).preSpawnToken && Unlocked(s, l) && Ctl(s, l).instanceId in s.durable
    ensures Went(s, l, s') && s'.launches[l].spawns == s.launches[l].spawns
    ensures Ending(s', l, PersistTerminal(RecordOf(Ctl(s', l)), 0))
  {
    hide ArbitrationStep, PrepareStep, StartStep, RollbackStep, AbortStep, FinishStep, PublishClaim, StopOldStep;
    hide ProcessDies, ReapProcess, PersistExit, NoteExitFailure, ReleaseExited, CompleteExited, Leads;
    var launch := s.launches[l];
    var c := Ctl(s, l);
    var d := c.(phase := Exited, clobbered := c.clobbered || c.run != Some(l));
    s' := s.(launches := s.launches[l := launch.(waiter := PersistTerminal(RecordOf(d), 0))],
             controllers := s.controllers[launch.controller := d]);
    assert ObserveExit(s, l, Answer.Ok, s');
    Goes(s, l, Answer.Ok, s');
  }

  lemma Stores(s: State, l: LaunchId) returns (s': State)
    requires Known(s, l) && Ending(s, l, PersistTerminal(RecordOf(Ctl(s, l)), 0))
    ensures Went(s, l, s') && s'.launches[l].spawns == s.launches[l].spawns
    ensures Ending(s', l, ReleaseSlot)
  {
    hide ArbitrationStep, PrepareStep, StartStep, RollbackStep, AbortStep, FinishStep, PublishClaim, StopOldStep;
    hide ProcessDies, ReapProcess, ObserveExit, NoteExitFailure, ReleaseExited, CompleteExited, Leads;
    var launch := s.launches[l];
    var c := Ctl(s, l);
    s' := s.(launches := s.launches[l := launch.(waiter := ReleaseSlot)], durable := s.durable[c.instanceId := launch.waiter.record],
             written := s.written + {(c.instanceId, launch.waiter.record)});
    assert PersistExit(s, l, Answer.Ok, s');
    Goes(s, l, Answer.Ok, s');
  }

  lemma ReleasesSlot(s: State, l: LaunchId) returns (s': State)
    requires Ending(s, l, ReleaseSlot)
    ensures Went(s, l, s') && s'.launches[l].spawns == s.launches[l].spawns
    ensures Ending(s', l, Waiter.Complete)
  {
    hide ArbitrationStep, PrepareStep, StartStep, RollbackStep, AbortStep, FinishStep, PublishClaim, StopOldStep;
    hide ProcessDies, ReapProcess, ObserveExit, PersistExit, NoteExitFailure, CompleteExited, Leads;
    var launch := s.launches[l];
    var c := Ctl(s, l);
    s' := s.(launches := s.launches[l := launch.(waiter := Waiter.Complete, slot := false)], free := Released(s, launch));
    assert ReleaseExited(s, l, s');
    Goes(s, l, Answer.Ok, s');
  }

  lemma Completes(s: State, l: LaunchId) returns (s': State)
    requires Ending(s, l, Waiter.Complete)
    ensures Went(s, l, s') && s'.launches[l].spawns == s.launches[l].spawns
    ensures Ending(s', l, Finished) && s'.launches[l].done
  {
    hide ArbitrationStep, PrepareStep, StartStep, RollbackStep, AbortStep, FinishStep, PublishClaim, StopOldStep;
    hide ProcessDies, ReapProcess, ObserveExit, PersistExit, NoteExitFailure, ReleaseExited, Leads;
    var launch := s.launches[l];
    var c := Ctl(s, l);
    s' := s.(launches := s.launches[l := launch.(waiter := Finished, done := true)]);
    assert CompleteExited(s, l, s');
    Goes(s, l, Answer.Ok, s');
  }

  /** A running process ends, and its wait() with it. */
  lemma Ends(s: State, l: LaunchId) returns (s': State)
    requires RunsAt(s, l, Done) && Idle(s, l)
    ensures Went(s, l, s') && Ending(s', l, Finished) && s'.launches[l].done
  {
    hide Leads, Only, Ending;
    var a := Dies(s, l);
    var b := Exits(a, l);
    GoesOn(s, l, a, b);
    hide RunsAt, Idle;
    var c := Observes(b, l);
    SameKind(b, l, c);
    GoesOn(s, l, b, c);
    var d := Stores(c, l);
    GoesOn(s, l, c, d);
    var e := ReleasesSlot(d, l);
    GoesOn(s, l, d, e);
    s' := Completes(e, l);
    GoesOn(s, l, e, s');
  }
}
