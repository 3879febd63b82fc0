/** Every step of the launch supervisor keeps the invariant. */
module LaunchKeeps {
  import opened Wrappers
  import opened LaunchState
  import opened LaunchSteps
  import opened LaunchInvariant
  import opened LaunchFrames
  import opened LaunchMoves

  /* ---- what a step may use ---- */

  /** An open run is the current run of its controller, unless the state was clobbered. */
  predicate OpenRuns(s: State)
    requires Tables(s)
  {
    forall m :: m in s.launches && Open(s.launches[m]) ==>
      var c := s.controllers[s.launches[m].controller];
      && s.launches[m].started && !s.launches[m].done
      && (!c.clobbered ==> c.run == Some(m) && (c.phase.Starting? || c.phase.Running? || c.phase.Stopping?))
  }

  lemma OpenRunsOf(s: State)
    requires Inv(s)
    ensures OpenRuns(s)
  {
    hide ControllerOk;
    forall m | m in s.launches && Open(s.launches[m])
      ensures var c := s.controllers[s.launches[m].controller];
        && s.launches[m].started && !s.launches[m].done
        && (!c.clobbered ==> c.run == Some(m) && (c.phase.Starting? || c.phase.Running? || c.phase.Stopping?))
    {
      assert LaunchOk(m, s.launches[m], s.controllers[s.launches[m].controller], s.maxConcurrent);
    }
  }

  /* ---- who may write the phase and the run ---- */

  lemma AloneBeforeCommit(s: State, l: LaunchId)
    requires Inv(s) && l in s.launches && Before(s, l).preSpawnToken
    ensures SoleWriter(s, l) && NoOpenRun(s, s.launches[l].controller)
  {
    OpenRunsOf(s);
    assert ControllerOk(s, s.launches[l].controller);
  }

  lemma AloneAsCurrentRun(s: State, l: LaunchId)
    requires Inv(s) && l in s.launches && Before(s, l).run == Some(l)
    ensures SoleWriter(s, l)
  {
    OpenRunsOf(s);
  }

  lemma AloneWithoutRun(s: State, l: LaunchId)
    requires Inv(s) && l in s.launches && Before(s, l).run.None?
    ensures SoleWriter(s, l)
  {
    OpenRunsOf(s);
  }

  lemma AloneWhenReady(s: State, l: LaunchId)
    requires Inv(s) && l in s.launches && ReadyToStart(s.launches[l])
    ensures SoleWriter(s, l)
    ensures Before(s, l).clobbered || NoOpenRun(s, s.launches[l].controller)
  {
    hide LaunchOk, ControllerOk;
  }

  lemma AwaitedRun(s: State, l: LaunchId)
    requires Inv(s) && l in s.launches && s.launches[l].pc.AwaitRun?
    ensures Before(s, l).run == Some(s.launches[l].pc.previous) && s.launches[l].pc.previous in s.launches
  {
    hide LaunchOk;
    assert ControllerOk(s, s.launches[l].controller);
  }

  /** Nothing stays open behind a launch whose controller has finished its current run or has none. */
  lemma NothingOpen(s: State, l: LaunchId)
    requires Inv(s) && l in s.launches
    requires var c := Before(s, l); c.run.None? || s.launches[c.run.value].done || c.phase.Terminal()
    ensures Before(s, l).clobbered || NoOpenRun(s, s.launches[l].controller)
  {
    OpenRunsOf(s);
  }

  /** A launch without a started run has no open run of its own. */
  lemma NoOpenRunKept(s: State, s': State, l: LaunchId)
    requires OnlyLaunch(s, s', l) && NoOpenRun(s, s.launches[l].controller) && !Open(s'.launches[l])
    ensures NoOpenRun(s', s.launches[l].controller)
  {
    forall m | m in s'.launches && s'.launches[m].controller == s.launches[l].controller ensures !Open(s'.launches[m]) {
      if m != l { assert s'.launches[m] == s.launches[m]; }
    }
  }

  /** A launch and its controller, each as the other sees it. */
  predicate Joined(l: LaunchId, launch: Launch, c: Controller, max: nat) {
    && LaunchOk(l, launch, c, max)
    && !c.phase.Unknown? && !c.phase.Stale? && !c.phase.Orphan?
    && (c.process == Some(l) ==> launch.process.Alive? || launch.process.Dead?)
    && (c.run == Some(l) ==> launch.started)
    && (launch.started ==> c.born && !c.preSpawnToken)
    && (Owning(launch.pc) && launch.restart ==> c.born && !c.preSpawnToken)
    && (c.active.Some? && c.active.value.claim == l ==> Owning(launch.pc))
  }

  /** The part of the invariant a step of launch l starts from. */
  predicate Context(s: State, l: LaunchId) {
    && Known(s, l)
    && Joined(l, s.launches[l], Before(s, l), s.maxConcurrent)
    && CountsOk(s)
    && (Before(s, l).preSpawnToken ==> s.preSpawnInFlight > 0 && !s.zeroSig)
    && (s.launches[l].outcome.Success? ==> (Before(s, l).instanceId, Record(Before(s, l).modelId, Running, Some(l))) in s.written)
    && (s.launches[l].slot ==> s.free < s.maxConcurrent)
  }

  /** A token belongs to the admission that owns the controller. */
  lemma TokenOfOwner(s: State, l: LaunchId)
    requires Inv(s) && l in s.launches
    ensures Owning(s.launches[l].pc) && s.launches[l].restart ==> Before(s, l).born && !Before(s, l).preSpawnToken
    ensures s.launches[l].started ==> Before(s, l).born && !Before(s, l).preSpawnToken
  {
    var c := Before(s, l);
    assert ControllerOk(s, s.launches[l].controller);
    assert AdmissionOk(l, s.launches[l], c) && ClaimOk(l, s.launches[l], c) by { assert LaunchOk(l, s.launches[l], c, s.maxConcurrent); }
    assert AdmissionOk(c.creator, s.launches[c.creator], c) && ClaimOk(c.creator, s.launches[c.creator], c) by {
      assert LaunchOk(c.creator, s.launches[c.creator], c, s.maxConcurrent);
    }
  }

  lemma CountsOf(s: State)
    requires Inv(s)
    ensures CountsOk(s)
  {
    hide Tables, LaunchesOk, ControllersOk, StopsOk, OperationsOk, ArbitrationOk, ScanOk, Exclusive, RestartsOk, CountsOk, DurableOk;
  }

  lemma ContextOf(s: State, l: LaunchId)
    requires Inv(s) && l in s.launches
    ensures Context(s, l)
  {
    hide LaunchOk;
    TokenOfOwner(s, l);
    assert ControllerOk(s, s.launches[l].controller);
    if Before(s, l).preSpawnToken {
      assert s.launches[l].controller in Tokens(s);
    }
    if s.launches[l].slot {
      assert l in Held(s);
    }
  }

  lemma Ownership(l: LaunchId, launch: Launch, c: Controller, max: nat)
    requires Joined(l, launch, c, max)
    ensures Owning(launch.pc) ==> launch.claim.Some? && c.active == Some(Operation(launch.claim.value.opId, launch.owner, l))
    ensures launch.process.Alive? || launch.process.Dead? ==> c.process == Some(l)
  {
  }

  /* ---- from the claim to commit C ---- */

  lemma EnterLifecycleMoves(l: LaunchId, launch: Launch, c: Controller, next: Launch, d: Controller, max: nat)
    requires Joined(l, launch, c, max) && launch.pc.Lifecycle? && c.lifecycleMu.None?
    requires next == launch.(pc := if launch.restart then Revalidate else Commit) && d == c.(lifecycleMu := Some(LaunchHolder(l)))
    ensures Move(l, launch, c, next, d, max)
  {
  }

  lemma EnterLifecycleKeeps(s: State, l: LaunchId, s': State)
    requires Inv(s) && EnterLifecycle(s, l, s')
    ensures Inv(s') && Forward(s, s')
  {
    hide Inv, Move, LaunchOk, SoleWriter, Forward, Announced, NoOpenRun, Tokens, Held;
    ContextOf(s, l);
    EnterLifecycleMoves(l, s.launches[l], Before(s, l), s'.launches[l], After(s, s', l), s.maxConcurrent);
    GoodStepKeepsInv(s, s', l);
  }

  lemma RevalidateOperationMoves(l: LaunchId, launch: Launch, c: Controller, next: Launch, max: nat)
    requires Joined(l, launch, c, max) && launch.pc.Revalidate?
    requires (next == launch.(pc := StopOld(Mark))) || (c.run.Some? && next == launch.(pc := AwaitRun(c.run.value))) || (next == launch.(pc := Slot))
    ensures Move(l, launch, c, next, c, max)
    ensures !Open(launch)
  {
  }

  lemma RevalidateOperationFrame(s: State, l: LaunchId, s': State)
    requires CountsOk(s) && RevalidateOperation(s, l, s')
    ensures Known(s, l) && l in s'.launches
    ensures OnlyLaunch(s, s', l) && Balanced(s, s', l) && After(s, s', l) == Before(s, l)
    ensures s'.launches[l] == s.launches[l].(pc := s'.launches[l].pc) && s.launches[l].pc.Revalidate?
    ensures var pc := s'.launches[l].pc;
            pc.ReleaseOp? || pc == StopOld(Mark) || (Before(s, l).run.Some? && pc == AwaitRun(Before(s, l).run.value)) || (pc.Slot? && Before(s, l).run.None?)
    ensures var c := Before(s, l); c.active.Some? && s.launches[l].claim.Some? && c.active.value.claim == l && c.active.value.id == s.launches[l].claim.value.opId ==>
              !s'.launches[l].pc.ReleaseOp?
  {
  }

  /** A call that has not returned moves on with its run history as it is. */
  lemma PointPrepares(s: State, l: LaunchId, s': State)
    requires OnlyLaunch(s, s', l) && After(s, s', l).clobbered == Before(s, l).clobbered
    requires s'.launches[l] == s.launches[l].(pc := s'.launches[l].pc) && s.launches[l].outcome.NotReturned?
    requires s'.launches[l].pc.AwaitRun? ==> After(s, s', l).run == Some(s'.launches[l].pc.previous)
    requires ReadyToStart(s'.launches[l]) ==> Before(s, l).clobbered || NoOpenRun(s, s.launches[l].controller)
    ensures Prepared(s, s', l)
  {
    hide ReadyToStart;
    if ReadyToStart(s'.launches[l]) && !Before(s, l).clobbered {
      forall m | m in s'.launches && s'.launches[m].controller == s.launches[l].controller ensures !Open(s'.launches[m]) {
        assert m in s.launches.Keys && !Open(s.launches[m]);
        if m != l { assert s'.launches[m] == s.launches[m]; }
      }
    }
  }

  lemma NotReturnedYet(l: LaunchId, launch: Launch, c: Controller, max: nat)
    requires Joined(l, launch, c, max) && launch.pc.Revalidate?
    ensures launch.outcome.NotReturned?
    ensures launch.claim.Some? && c.active == Some(Operation(launch.claim.value.opId, launch.owner, l))
  {
  }

  lemma RevalidateOperationKeeps(s: State, l: LaunchId, s': State)
    requires Inv(s) && RevalidateOperation(s, l, s')
    ensures Inv(s') && Forward(s, s')
  {
    hide Inv, CountsOk, Joined, Move, SoleWriter, NoOpenRun, Forward, RevalidateOperation, Balanced, Prepared, OnlyLaunch;
    CountsOf(s);
    RevalidateOperationFrame(s, l, s');
    ContextOf(s, l);
    NotReturnedYet(l, s.launches[l], Before(s, l), s.maxConcurrent);
    if Before(s, l).run.None? { NothingOpen(s, l); }
    PointPrepares(s, l, s');
    RevalidateOperationMoves(l, s.launches[l], Before(s, l), s'.launches[l], s.maxConcurrent);
    GoodStepKeepsInv(s, s', l);
  }

  lemma AwaitPreviousMoves(l: LaunchId, launch: Launch, c: Controller, next: Launch, max: nat)
    requires Joined(l, launch, c, max) && launch.pc.AwaitRun?
    requires (next == launch.(pc := ReleaseOp)) || (next == launch.(pc := Slot))
    ensures Move(l, launch, c, next, c, max)
    ensures launch.outcome.NotReturned? && (ReadyToStart(next) ==> next.pc.Slot?)
    ensures !Open(launch)
  {
  }

  lemma AwaitPreviousFrame(s: State, l: LaunchId, a: Answer, s': State)
    requires CountsOk(s) && AwaitPrevious(s, l, a, s')
    ensures Known(s, l) && l in s'.launches
    ensures OnlyLaunch(s, s', l) && Balanced(s, s', l) && After(s, s', l) == Before(s, l) && s.launches[l].pc.AwaitRun?
    ensures s'.launches[l] == s.launches[l].(pc := ReleaseOp) || s'.launches[l] == s.launches[l].(pc := Slot)
    ensures s'.launches[l].pc.Slot? ==> s.launches[l].pc.previous in s.launches && s.launches[s.launches[l].pc.previous].done
  {
    hide Tokens, Held;
  }

  lemma AwaitPreviousKeeps(s: State, l: LaunchId, a: Answer, s': State)
    requires Inv(s) && AwaitPrevious(s, l, a, s')
    ensures Inv(s') && Forward(s, s')
  {
    hide Inv, CountsOk, Joined, Move, SoleWriter, NoOpenRun, ReadyToStart, Forward, AwaitPrevious, Balanced, Prepared, OnlyLaunch;
    CountsOf(s);
    AwaitPreviousFrame(s, l, a, s');
    ContextOf(s, l);
    AwaitedRun(s, l);
    if s'.launches[l].pc.Slot? { NothingOpen(s, l); }
    AwaitPreviousMoves(l, s.launches[l], Before(s, l), s'.launches[l], s.maxConcurrent);
    PointPrepares(s, l, s');
    GoodStepKeepsInv(s, s', l);
  }

  lemma TakeSlotMoves(l: LaunchId, launch: Launch, c: Controller, next: Launch, max: nat)
    requires Joined(l, launch, c, max) && launch.pc.Slot?
    requires (launch.restart && next == launch.(pc := Commit, slot := max > 0)) || (!launch.restart && next == launch.(pc := Create, slot := max > 0))
    ensures Move(l, launch, c, next, c, max)
    ensures !Open(launch) && !launch.slot
  {
  }

  lemma TakeSlotKeeps(s: State, l: LaunchId, s': State)
    requires Inv(s) && TakeSlot(s, l, s')
    ensures Inv(s') && Forward(s, s')
  {
    hide Inv, Move, LaunchOk, SoleWriter, Forward, Announced, NoOpenRun, Tokens, Held;
    ContextOf(s, l);
    if s.launches[l].restart { AloneWhenReady(s, l); }
    TakeSlotMoves(l, s.launches[l], Before(s, l), s'.launches[l], s.maxConcurrent);
    if s.launches[l].restart && !Before(s, l).clobbered { NoOpenRunKept(s, s', l); }
    GoodStepKeepsInv(s, s', l);
  }

  lemma GiveUpSlotMoves(l: LaunchId, launch: Launch, c: Controller, next: Launch, max: nat)
    requires Joined(l, launch, c, max) && launch.pc.Slot?
    requires (launch.restart && next == launch.(pc := ReleaseOp)) || (!launch.restart && next == launch.(pc := AbortRelease))
    ensures Move(l, launch, c, next, c, max)
  {
  }

  lemma GiveUpSlotKeeps(s: State, l: LaunchId, s': State)
    requires Inv(s) && GiveUpSlot(s, l, s')
    ensures Inv(s') && Forward(s, s')
  {
    hide Inv, Move, LaunchOk, SoleWriter, Forward, Announced, NoOpenRun, Tokens, Held;
    ContextOf(s, l);
    GiveUpSlotMoves(l, s.launches[l], Before(s, l), s'.launches[l], s.maxConcurrent);
    GoodStepKeepsInv(s, s', l);
  }

  lemma CreateRecordMoves(l: LaunchId, launch: Launch, c: Controller, next: Launch, max: nat)
    requires Joined(l, launch, c, max) && launch.pc.Create?
    requires (next == launch.(pc := Lifecycle)) || (next == launch.(pc := AbortRelease))
    ensures Move(l, launch, c, next, c, max)
  {
  }

  lemma CreateRecordFrame(s: State, l: LaunchId, a: Answer, s': State)
    requires CountsOk(s) && CreateRecord(s, l, a, s')
    ensures Known(s, l) && l in s'.launches
    ensures OnlyLaunch(s, s', l) && Balanced(s, s', l) && s.written <= s'.written
    ensures s.launches[l].pc.Create? && After(s, s', l) == Before(s, l)
    ensures (s'.launches[l] == s.launches[l].(pc := Lifecycle) || s'.launches[l] == s.launches[l].(pc := AbortRelease))
  {
    hide Tokens, Held;
  }

  lemma CreateRecordKeeps(s: State, l: LaunchId, a: Answer, s': State)
    requires Inv(s) && CreateRecord(s, l, a, s')
    ensures Inv(s') && Forward(s, s')
  {
    hide Inv, CountsOk, Joined, Move, SoleWriter, NoOpenRun, Forward, CreateRecord, Balanced, OnlyLaunch, Announced;
    CountsOf(s);
    CreateRecordFrame(s, l, a, s');
    ContextOf(s, l);
    CreateRecordMoves(l, s.launches[l], Before(s, l), s'.launches[l], s.maxConcurrent);
    GoodStepKeepsInv(s, s', l);
  }

  /* ---- startCore ---- */

  lemma CommitSpawnMoves(l: LaunchId, launch: Launch, c: Controller, next: Launch, d: Controller, max: nat)
    requires Joined(l, launch, c, max) && launch.pc.Commit? && c.mu.None? && launch.claim.Some?
    requires next == Spent(launch).(pc := PersistStarting, committed := true,
                                    tokens := if c.preSpawnToken then launch.tokens + 1 else launch.tokens)
    requires d == c.(phase := Starting, preSpawnToken := false, mu := Some(LaunchHolder(l)))
    ensures Move(l, launch, c, next, d, max)
    ensures launch.restart ==> ReadyToStart(launch)
    ensures !launch.restart ==> c.preSpawnToken
  {
  }

  lemma CommitSpawnKeeps(s: State, l: LaunchId, s': State)
    requires Inv(s) && CommitSpawn(s, l, s')
    ensures Inv(s') && Forward(s, s')
  {
    hide Move, LaunchOk, SoleWriter, LaunchesOk, ControllersOk, StopsOk, ScanOk, Exclusive;
    ContextOf(s, l);
    assert RestartsOk(s);
    CommitSpawnMoves(l, s.launches[l], Before(s, l), s'.launches[l], After(s, s', l), s.maxConcurrent);
    if s.launches[l].restart { AloneWhenReady(s, l); } else { AloneBeforeCommit(s, l); }
    if NoOpenRun(s, s.launches[l].controller) { NoOpenRunKept(s, s', l); }
    GoodStepKeepsInv(s, s', l);
  }

  lemma CommitAfterDrainMoves(l: LaunchId, launch: Launch, c: Controller, next: Launch, max: nat)
    requires Joined(l, launch, c, max) && launch.pc.Commit? && c.mu.None? && launch.claim.Some?
    requires next == Spent(launch).(pc := AbortRelease)
    ensures Move(l, launch, c, next, c, max)
  {
  }

  lemma CommitAfterDrainKeeps(s: State, l: LaunchId, s': State)
    requires Inv(s) && CommitAfterDrain(s, l, s')
    ensures Inv(s') && Forward(s, s')
  {
    hide Inv, Move, LaunchOk, SoleWriter, Forward, Announced, NoOpenRun, Tokens, Held;
    ContextOf(s, l);
    CommitAfterDrainMoves(l, s.launches[l], Before(s, l), s'.launches[l], s.maxConcurrent);
    GoodStepKeepsInv(s, s', l);
  }

  lemma StartingStoredMoves(l: LaunchId, launch: Launch, c: Controller, next: Launch, d: Controller, max: nat)
    requires Joined(l, launch, c, max) && launch.pc.PersistStarting?
    requires next == launch.(pc := Spawn, started := true) && d == c.(run := Some(l))
    ensures Move(l, launch, c, next, d, max)
  {
  }

  lemma StartingLostMoves(l: LaunchId, launch: Launch, c: Controller, next: Launch, d: Controller, max: nat)
    requires Joined(l, launch, c, max) && launch.pc.PersistStarting?
    requires next == launch.(pc := RunRelease(true), started := true) && d == c.(run := Some(l), mu := None)
    ensures Move(l, launch, c, next, d, max)
  {
  }

  lemma PersistStartingStateMoves(l: LaunchId, launch: Launch, c: Controller, next: Launch, d: Controller, max: nat)
    requires Joined(l, launch, c, max) && launch.pc.PersistStarting?
    requires
      || (next == launch.(pc := Spawn, started := true) && d == c.(run := Some(l)))
      || (next == launch.(pc := RunRelease(true), started := true) && d == c.(run := Some(l), mu := None))
    ensures Move(l, launch, c, next, d, max)
  {
    hide Joined, Move;
    if next.pc.Spawn? { StartingStoredMoves(l, launch, c, next, d, max); } else { StartingLostMoves(l, launch, c, next, d, max); }
  }

  lemma PersistStartingStateFrame(s: State, l: LaunchId, a: Answer, s': State)
    requires CountsOk(s) && PersistStartingState(s, l, a, s')
    ensures Known(s, l) && l in s'.launches
    ensures OnlyLaunch(s, s', l) && Balanced(s, s', l) && s.written <= s'.written
    ensures s.launches[l].pc.PersistStarting?
    ensures (s'.launches[l] == s.launches[l].(pc := Spawn, started := true) && After(s, s', l) == Before(s, l).(run := Some(l)))
            || (s'.launches[l] == s.launches[l].(pc := RunRelease(true), started := true) && After(s, s', l) == Before(s, l).(run := Some(l), mu := None))
  {
    hide Tokens, Held;
  }

  lemma PersistStartingStateKeeps(s: State, l: LaunchId, a: Answer, s': State)
    requires Inv(s) && PersistStartingState(s, l, a, s')
    ensures Inv(s') && Forward(s, s')
  {
    hide Inv, CountsOk, Joined, Move, SoleWriter, NoOpenRun, Forward, PersistStartingState, Balanced, OnlyLaunch, Announced;
    CountsOf(s);
    PersistStartingStateFrame(s, l, a, s');
    ContextOf(s, l);
    AloneWhenReady(s, l);
    PersistStartingStateMoves(l, s.launches[l], Before(s, l), s'.launches[l], After(s, s', l), s.maxConcurrent);
    GoodStepKeepsInv(s, s', l);
  }

  lemma SpawnProcessMoves(l: LaunchId, launch: Launch, c: Controller, next: Launch, d: Controller, max: nat)
    requires Joined(l, launch, c, max) && launch.pc.Spawn? && c.process.None?
    requires next == launch.(pc := PersistRunning(0), process := Alive, spawns := launch.spawns + 1)
    requires d == c.(process := Some(l), identity := Some(l), phase := Running)
    ensures Move(l, launch, c, next, d, max)
    ensures c.run == Some(l)
  {
  }

  lemma SpawnProcessKeeps(s: State, l: LaunchId, s': State)
    requires Inv(s) && SpawnProcess(s, l, s')
    ensures Inv(s') && Forward(s, s')
  {
    hide Inv, Move, LaunchOk, SoleWriter, Forward, Announced, NoOpenRun, Tokens, Held;
    ContextOf(s, l);
    SpawnProcessMoves(l, s.launches[l], Before(s, l), s'.launches[l], After(s, s', l), s.maxConcurrent);
    AloneAsCurrentRun(s, l);
    GoodStepKeepsInv(s, s', l);
  }

  lemma SpawnFailsMoves(l: LaunchId, launch: Launch, c: Controller, next: Launch, d: Controller, max: nat)
    requires Joined(l, launch, c, max) && launch.pc.Spawn?
    requires next == launch.(pc := PersistSpawnFailure) && d == c.(phase := Failed)
    ensures Move(l, launch, c, next, d, max)
    ensures c.run == Some(l)
  {
  }

  lemma SpawnFailsKeeps(s: State, l: LaunchId, s': State)
    requires Inv(s) && SpawnFails(s, l, s')
    ensures Inv(s') && Forward(s, s')
  {
    hide Inv, Move, LaunchOk, SoleWriter, Forward, Announced, NoOpenRun, Tokens, Held;
    ContextOf(s, l);
    SpawnFailsMoves(l, s.launches[l], Before(s, l), s'.launches[l], After(s, s', l), s.maxConcurrent);
    AloneAsCurrentRun(s, l);
    GoodStepKeepsInv(s, s', l);
  }

  lemma PersistFailureMoves(l: LaunchId, launch: Launch, c: Controller, next: Launch, d: Controller, max: nat)
    requires Joined(l, launch, c, max) && launch.pc.PersistSpawnFailure?
    requires next == launch.(pc := RunRelease(false)) && d == c.(mu := None)
    ensures Move(l, launch, c, next, d, max)
  {
  }

  lemma PersistFailureFrame(s: State, l: LaunchId, a: Answer, s': State)
    requires CountsOk(s) && PersistFailure(s, l, a, s')
    ensures Known(s, l) && l in s'.launches
    ensures OnlyLaunch(s, s', l) && Balanced(s, s', l) && s.written <= s'.written
    ensures s.launches[l].pc.PersistSpawnFailure? && s'.launches[l] == s.launches[l].(pc := RunRelease(false)) && After(s, s', l) == Before(s, l).(mu := None)
  {
    hide Tokens, Held;
  }

  lemma PersistFailureKeeps(s: State, l: LaunchId, a: Answer, s': State)
    requires Inv(s) && PersistFailure(s, l, a, s')
    ensures Inv(s') && Forward(s, s')
  {
    hide Inv, CountsOk, Joined, Move, SoleWriter, NoOpenRun, Forward, PersistFailure, Balanced, OnlyLaunch, Announced;
    CountsOf(s);
    PersistFailureFrame(s, l, a, s');
    ContextOf(s, l);
    PersistFailureMoves(l, s.launches[l], Before(s, l), s'.launches[l], After(s, s', l), s.maxConcurrent);
    GoodStepKeepsInv(s, s', l);
  }

  lemma PersistRunningStateMoves(l: LaunchId, launch: Launch, c: Controller, next: Launch, d: Controller, max: nat)
    requires Joined(l, launch, c, max) && launch.pc.PersistRunning?
    requires next == launch.(pc := AfterStart(launch), outcome := Success, waiter := Waiting) && d == c.(mu := None)
    ensures Move(l, launch, c, next, d, max)
    ensures c.phase.Running? && c.identity == Some(l)
  {
  }

  lemma PersistRunningStateKeeps(s: State, l: LaunchId, s': State)
    requires Inv(s) && PersistRunningState(s, l, s')
    ensures Inv(s') && Forward(s, s')
  {
    hide Inv, Move, LaunchOk, SoleWriter, Forward, NoOpenRun;
    ContextOf(s, l);
    PersistRunningStateMoves(l, s.launches[l], Before(s, l), s'.launches[l], After(s, s', l), s.maxConcurrent);
    GoodStepKeepsInv(s, s', l);
  }

  predicate Retried(launch: Launch, next: Launch) {
    launch.pc.PersistRunning? && (next == launch.(pc := PersistRunning(launch.pc.attempt + 1)) || next == launch.(pc := RollbackKill))
  }

  lemma PersistRunningFailsMoves(l: LaunchId, launch: Launch, c: Controller, next: Launch, max: nat)
    requires Joined(l, launch, c, max) && Retried(launch, next)
    ensures Move(l, launch, c, next, c, max)
    ensures !ReadyToStart(next) && !next.pc.AwaitRun? && next.outcome == launch.outcome
  {
  }

  lemma PersistRunningFailsFrame(s: State, l: LaunchId, a: Answer, s': State)
    requires CountsOk(s) && PersistRunningFails(s, l, a, s')
    ensures Known(s, l) && l in s'.launches
    ensures OnlyLaunch(s, s', l) && Balanced(s, s', l) && s.written <= s'.written
    ensures After(s, s', l) == Before(s, l) && Retried(s.launches[l], s'.launches[l])
  {
    hide Tokens, Held;
  }

  lemma PersistRunningFailsKeeps(s: State, l: LaunchId, a: Answer, s': State)
    requires Inv(s) && PersistRunningFails(s, l, a, s')
    ensures Inv(s') && Forward(s, s')
  {
    hide Inv, CountsOk, Joined, Move, SoleWriter, NoOpenRun, Forward, PersistRunningFails, Retried, ReadyToStart, Balanced, OnlyLaunch;
    CountsOf(s);
    PersistRunningFailsFrame(s, l, a, s');
    ContextOf(s, l);
    PersistRunningFailsMoves(l, s.launches[l], Before(s, l), s'.launches[l], s.maxConcurrent);
    GoodStepKeepsInv(s, s', l);
  }

  /* ---- rollback ---- */

  lemma KillAcceptedMoves(l: LaunchId, launch: Launch, c: Controller, next: Launch, max: nat)
    requires Joined(l, launch, c, max) && launch.pc.RollbackKill?
    requires next == launch.(pc := ConfirmExit)
    ensures Move(l, launch, c, next, c, max)
  {
  }

  lemma KillAcceptedKeeps(s: State, l: LaunchId, s': State)
    requires Inv(s) && KillAccepted(s, l, s')
    ensures Inv(s') && Forward(s, s')
  {
    hide Inv, Move, LaunchOk, SoleWriter, Forward, Announced, NoOpenRun, Tokens, Held;
    ContextOf(s, l);
    KillAcceptedMoves(l, s.launches[l], Before(s, l), s'.launches[l], s.maxConcurrent);
    GoodStepKeepsInv(s, s', l);
  }

  lemma RollbackConfirmedMoves(l: LaunchId, launch: Launch, c: Controller, next: Launch, d: Controller, max: nat)
    requires Joined(l, launch, c, max) && (launch.pc.RollbackKill? || launch.pc.ConfirmExit?) && !launch.process.Alive?
    requires next == launch.(pc := PersistRolledBack) && d == c.(phase := Failed)
    ensures Move(l, launch, c, next, d, max)
    ensures c.run == Some(l)
  {
  }

  lemma RollbackConfirmedKeeps(s: State, l: LaunchId, s': State)
    requires Inv(s) && RollbackConfirmed(s, l, s')
    ensures Inv(s') && Forward(s, s')
  {
    hide Inv, Move, LaunchOk, SoleWriter, Forward, Announced, NoOpenRun, Tokens, Held;
    ContextOf(s, l);
    RollbackConfirmedMoves(l, s.launches[l], Before(s, l), s'.launches[l], After(s, s', l), s.maxConcurrent);
    AloneAsCurrentRun(s, l);
    GoodStepKeepsInv(s, s', l);
  }

  lemma RollbackUnconfirmedMoves(l: LaunchId, launch: Launch, c: Controller, next: Launch, d: Controller, max: nat)
    requires Joined(l, launch, c, max) && (launch.pc.RollbackKill? || launch.pc.ConfirmExit?)
    requires next == launch.(pc := AfterStart(launch), outcome := Residual, waiter := Waiting) && d == c.(phase := Starting, mu := None)
    ensures Move(l, launch, c, next, d, max)
    ensures c.run == Some(l)
  {
  }

  lemma RollbackUnconfirmedKeeps(s: State, l: LaunchId, s': State)
    requires Inv(s) && RollbackUnconfirmed(s, l, s')
    ensures Inv(s') && Forward(s, s')
  {
    hide Inv, Move, LaunchOk, SoleWriter, Forward, Announced, NoOpenRun, Tokens, Held;
    ContextOf(s, l);
    RollbackUnconfirmedMoves(l, s.launches[l], Before(s, l), s'.launches[l], After(s, s', l), s.maxConcurrent);
    AloneAsCurrentRun(s, l);
    GoodStepKeepsInv(s, s', l);
  }

  lemma PersistRollbackMoves(l: LaunchId, launch: Launch, c: Controller, next: Launch, d: Controller, max: nat)
    requires Joined(l, launch, c, max) && launch.pc.PersistRolledBack?
    requires next == launch.(pc := RunRelease(false), waiter := Waiting, rolledBack := true) && d == c.(mu := None)
    ensures Move(l, launch, c, next, d, max)
  {
  }

  lemma PersistRollbackFrame(s: State, l: LaunchId, a: Answer, s': State)
    requires CountsOk(s) && PersistRollback(s, l, a, s')
    ensures Known(s, l) && l in s'.launches
    ensures OnlyLaunch(s, s', l) && Balanced(s, s', l) && s.written <= s'.written
    ensures s.launches[l].pc.PersistRolledBack?
    ensures s'.launches[l] == s.launches[l].(pc := RunRelease(false), waiter := Waiting, rolledBack := true)
    ensures After(s, s', l) == Before(s, l).(mu := None)
  {
    hide Tokens, Held;
  }

  lemma PersistRollbackKeeps(s: State, l: LaunchId, a: Answer, s': State)
    requires Inv(s) && PersistRollback(s, l, a, s')
    ensures Inv(s') && Forward(s, s')
  {
    hide Inv, CountsOk, Joined, Move, SoleWriter, NoOpenRun, Forward, PersistRollback, Balanced, OnlyLaunch, Announced;
    CountsOf(s);
    PersistRollbackFrame(s, l, a, s');
    ContextOf(s, l);
    PersistRollbackMoves(l, s.launches[l], Before(s, l), s'.launches[l], After(s, s', l), s.maxConcurrent);
    GoodStepKeepsInv(s, s', l);
  }

  lemma ReleaseRunMoves(l: LaunchId, launch: Launch, c: Controller, next: Launch, max: nat)
    requires Joined(l, launch, c, max) && launch.pc.RunRelease?
    requires next == launch.(pc := RunComplete(launch.pc.forget), slot := false)
    ensures Move(l, launch, c, next, c, max)
  {
  }

  lemma ReleaseRunKeeps(s: State, l: LaunchId, s': State)
    requires Inv(s) && ReleaseRun(s, l, s')
    ensures Inv(s') && Forward(s, s')
  {
    hide Inv, Move, LaunchOk, SoleWriter, Forward, Announced, NoOpenRun, Tokens, Held;
    ContextOf(s, l);
    ReleaseRunMoves(l, s.launches[l], Before(s, l), s'.launches[l], s.maxConcurrent);
    GoodStepKeepsInv(s, s', l);
  }

  lemma CompleteRunMoves(l: LaunchId, launch: Launch, c: Controller, next: Launch, max: nat)
    requires Joined(l, launch, c, max) && launch.pc.RunComplete?
    requires
      || (launch.pc.forget && next == launch.(pc := RunForget, done := true))
      || (!launch.pc.forget && next == launch.(pc := AfterStart(launch), done := true, outcome := Error(launch.rolledBack)))
    ensures Move(l, launch, c, next, c, max)
  {
  }

  lemma CompleteRunKeeps(s: State, l: LaunchId, s': State)
    requires Inv(s) && CompleteRun(s, l, s')
    ensures Inv(s') && Forward(s, s')
  {
    hide Inv, Move, LaunchOk, SoleWriter, Forward, Announced, NoOpenRun, Tokens, Held;
    ContextOf(s, l);
    CompleteRunMoves(l, s.launches[l], Before(s, l), s'.launches[l], s.maxConcurrent);
    GoodStepKeepsInv(s, s', l);
  }

  lemma ForgetRunMoves(l: LaunchId, launch: Launch, c: Controller, next: Launch, max: nat)
    requires Joined(l, launch, c, max) && launch.pc.RunForget?
    requires next == launch.(pc := AfterStart(launch), outcome := Error(false))
    ensures Move(l, launch, c, next, c, max)
  {
  }

  lemma ForgetRunKeeps(s: State, l: LaunchId, s': State)
    requires Inv(s) && ForgetRun(s, l, s')
    ensures Inv(s') && Forward(s, s')
  {
    hide Inv, Move, LaunchOk, SoleWriter, Forward, Announced, NoOpenRun, Tokens, Held;
    ContextOf(s, l);
    ForgetRunMoves(l, s.launches[l], Before(s, l), s'.launches[l], s.maxConcurrent);
    GoodStepKeepsInv(s, s', l);
  }

  /* ---- abortPreSpawnCleanup ---- */

  lemma ReleaseAbortedMoves(l: LaunchId, launch: Launch, c: Controller, next: Launch, max: nat)
    requires Joined(l, launch, c, max) && launch.pc.AbortRelease?
    requires
      || (launch.restart && next == launch.(pc := ReleaseOp, slot := false, outcome := Aborted))
      || (!launch.restart && next == launch.(pc := if Consumed(launch) then AbortFail else AbortForget, slot := false))
    ensures Move(l, launch, c, next, c, max)
  {
  }

  lemma ReleaseAbortedKeeps(s: State, l: LaunchId, s': State)
    requires Inv(s) && ReleaseAborted(s, l, s')
    ensures Inv(s') && Forward(s, s')
  {
    hide Inv, Move, LaunchOk, SoleWriter, Forward, Announced, NoOpenRun, Tokens, Held;
    ContextOf(s, l);
    ReleaseAbortedMoves(l, s.launches[l], Before(s, l), s'.launches[l], s.maxConcurrent);
    GoodStepKeepsInv(s, s', l);
  }

  lemma FailAbortedMoves(l: LaunchId, launch: Launch, c: Controller, next: Launch, d: Controller, max: nat)
    requires Joined(l, launch, c, max) && launch.pc.AbortFail? && c.mu.None?
    requires next == launch.(pc := AbortForget) && d == c.(phase := Failed)
    ensures Move(l, launch, c, next, d, max)
    ensures c.preSpawnToken
  {
  }

  lemma FailAbortedFrame(s: State, l: LaunchId, a: Answer, s': State)
    requires CountsOk(s) && FailAborted(s, l, a, s')
    ensures Known(s, l) && l in s'.launches
    ensures OnlyLaunch(s, s', l) && Balanced(s, s', l) && s.written <= s'.written
    ensures s.launches[l].pc.AbortFail? && Before(s, l).mu.None? && s'.launches[l] == s.launches[l].(pc := AbortForget)
    ensures After(s, s', l) == Before(s, l).(phase := Failed)
  {
    hide Tokens, Held;
  }

  lemma FailAbortedKeeps(s: State, l: LaunchId, a: Answer, s': State)
    requires Inv(s) && FailAborted(s, l, a, s')
    ensures Inv(s') && Forward(s, s')
  {
    hide Inv, CountsOk, Joined, Move, SoleWriter, NoOpenRun, Forward, FailAborted, Balanced, OnlyLaunch, Announced;
    CountsOf(s);
    FailAbortedFrame(s, l, a, s');
    ContextOf(s, l);
    FailAbortedMoves(l, s.launches[l], Before(s, l), s'.launches[l], After(s, s', l), s.maxConcurrent);
    AloneBeforeCommit(s, l);
    GoodStepKeepsInv(s, s', l);
  }

  lemma ForgetAbortedMoves(l: LaunchId, launch: Launch, c: Controller, next: Launch, max: nat)
    requires Joined(l, launch, c, max) && launch.pc.AbortForget?
    requires next == launch.(pc := AbortToken)
    ensures Move(l, launch, c, next, c, max)
  {
  }

  lemma ForgetAbortedKeeps(s: State, l: LaunchId, s': State)
    requires Inv(s) && ForgetAborted(s, l, s')
    ensures Inv(s') && Forward(s, s')
  {
    hide Inv, Move, LaunchOk, SoleWriter, Forward, Announced, NoOpenRun, Tokens, Held;
    ContextOf(s, l);
    ForgetAbortedMoves(l, s.launches[l], Before(s, l), s'.launches[l], s.maxConcurrent);
    GoodStepKeepsInv(s, s', l);
  }

  predicate TokenReturned(launch: Launch, c: Controller, next: Launch, d: Controller) {
    && launch.pc.AbortToken? && d == c.(preSpawnToken := false)
    && next == launch.(pc := if Consumed(launch) then Returned else ReleaseOp,
                       outcome := if Consumed(launch) then Aborted else launch.outcome,
                       tokens := if c.preSpawnToken then launch.tokens + 1 else launch.tokens)
  }

  lemma ReturnTokenMoves(l: LaunchId, launch: Launch, c: Controller, next: Launch, d: Controller, max: nat)
    requires Joined(l, launch, c, max) && TokenReturned(launch, c, next, d)
    ensures Move(l, launch, c, next, d, max)
    ensures !ReadyToStart(next) && !next.pc.AwaitRun? && !next.outcome.Success? && Calm(c, d)
  {
  }

  lemma ReturnTokenFrame(s: State, l: LaunchId, s': State)
    requires CountsOk(s) && ReturnToken(s, l, s') && (Before(s, l).preSpawnToken ==> s.preSpawnInFlight > 0 && !s.zeroSig)
    ensures OnlyLaunch(s, s', l) && Balanced(s, s', l) && s.written <= s'.written
    ensures TokenReturned(s.launches[l], Before(s, l), s'.launches[l], After(s, s', l))
  {
    hide Tokens, Held;
  }

  lemma ReturnTokenKeeps(s: State, l: LaunchId, s': State)
    requires Inv(s) && ReturnToken(s, l, s')
    ensures Inv(s') && Forward(s, s')
  {
    assert Known(s, l);
    hide Inv, CountsOk, Joined, Move, SoleWriter, NoOpenRun, Forward, ReturnToken, TokenReturned, Calm, ReadyToStart, Balanced, OnlyLaunch;
    CountsOf(s);
    ContextOf(s, l);
    ReturnTokenFrame(s, l, s');
    ReturnTokenMoves(l, s.launches[l], Before(s, l), s'.launches[l], After(s, s', l), s.maxConcurrent);
    GoodStepKeepsInv(s, s', l);
  }

  /* ---- after startCore ---- */

  lemma LeaveLifecycleMoves(l: LaunchId, launch: Launch, c: Controller, next: Launch, d: Controller, max: nat)
    requires Joined(l, launch, c, max) && launch.pc.Returned?
    requires next == launch.(pc := if launch.outcome == Error(true) then Forget
                                   else if launch.outcome == Error(false) then FailUnspawned else ReleaseOp)
    requires d == c.(lifecycleMu := None)
    ensures Move(l, launch, c, next, d, max)
  {
  }

  lemma LeaveLifecycleKeeps(s: State, l: LaunchId, s': State)
    requires Inv(s) && LeaveLifecycle(s, l, s')
    ensures Inv(s') && Forward(s, s')
  {
    hide Inv, Move, LaunchOk, SoleWriter, Forward, Announced, NoOpenRun, Tokens, Held;
    ContextOf(s, l);
    LeaveLifecycleMoves(l, s.launches[l], Before(s, l), s'.launches[l], After(s, s', l), s.maxConcurrent);
    GoodStepKeepsInv(s, s', l);
  }

  lemma MarkUnspawnedMoves(l: LaunchId, launch: Launch, c: Controller, next: Launch, d: Controller, max: nat)
    requires Joined(l, launch, c, max) && launch.pc.FailUnspawned? && c.mu.None?
    requires next == launch.(pc := PersistUnspawned) && d == c.(phase := Failed)
    ensures Move(l, launch, c, next, d, max)
    ensures c.run.None? || c.run == Some(l)
  {
  }

  lemma MarkUnspawnedKeeps(s: State, l: LaunchId, s': State)
    requires Inv(s) && MarkUnspawned(s, l, s')
    ensures Inv(s') && Forward(s, s')
  {
    hide Inv, Move, LaunchOk, SoleWriter, Forward, Announced, NoOpenRun, Tokens, Held;
    ContextOf(s, l);
    MarkUnspawnedMoves(l, s.launches[l], Before(s, l), s'.launches[l], After(s, s', l), s.maxConcurrent);
    if Before(s, l).run == Some(l) { AloneAsCurrentRun(s, l); } else { AloneWithoutRun(s, l); }
    GoodStepKeepsInv(s, s', l);
  }

  lemma StoreUnspawnedMoves(l: LaunchId, launch: Launch, c: Controller, next: Launch, max: nat)
    requires Joined(l, launch, c, max) && launch.pc.PersistUnspawned?
    requires next == launch.(pc := Forget)
    ensures Move(l, launch, c, next, c, max)
  {
  }

  lemma StoreUnspawnedFrame(s: State, l: LaunchId, a: Answer, s': State)
    requires CountsOk(s) && StoreUnspawned(s, l, a, s')
    ensures Known(s, l) && l in s'.launches
    ensures OnlyLaunch(s, s', l) && Balanced(s, s', l) && s.written <= s'.written
    ensures s.launches[l].pc.PersistUnspawned? && s'.launches[l] == s.launches[l].(pc := Forget) && After(s, s', l) == Before(s, l)
  {
    hide Tokens, Held;
  }

  lemma StoreUnspawnedKeeps(s: State, l: LaunchId, a: Answer, s': State)
    requires Inv(s) && StoreUnspawned(s, l, a, s')
    ensures Inv(s') && Forward(s, s')
  {
    hide Inv, CountsOk, Joined, Move, SoleWriter, NoOpenRun, Forward, StoreUnspawned, Balanced, OnlyLaunch, Announced;
    CountsOf(s);
    StoreUnspawnedFrame(s, l, a, s');
    ContextOf(s, l);
    StoreUnspawnedMoves(l, s.launches[l], Before(s, l), s'.launches[l], s.maxConcurrent);
    GoodStepKeepsInv(s, s', l);
  }

  lemma ForgetControllerMoves(l: LaunchId, launch: Launch, c: Controller, next: Launch, max: nat)
    requires Joined(l, launch, c, max) && launch.pc.Forget?
    requires next == launch.(pc := ReleaseOp)
    ensures Move(l, launch, c, next, c, max)
  {
  }

  lemma ForgetControllerKeeps(s: State, l: LaunchId, s': State)
    requires Inv(s) && ForgetController(s, l, s')
    ensures Inv(s') && Forward(s, s')
  {
    hide Inv, Move, LaunchOk, SoleWriter, Forward, Announced, NoOpenRun, Tokens, Held;
    ContextOf(s, l);
    ForgetControllerMoves(l, s.launches[l], Before(s, l), s'.launches[l], s.maxConcurrent);
    GoodStepKeepsInv(s, s', l);
  }

  lemma ReleaseOperationMoves(l: LaunchId, launch: Launch, c: Controller, next: Launch, d: Controller, max: nat)
    requires Joined(l, launch, c, max) && launch.pc.ReleaseOp? && c.mu.None?
    requires next == launch.(pc := Done) && d == c.(active := None, lifecycleMu := if launch.restart then None else c.lifecycleMu)
    ensures Move(l, launch, c, next, d, max)
  {
  }

  lemma ReleaseOperationKeeps(s: State, l: LaunchId, s': State)
    requires Inv(s) && ReleaseOperation(s, l, s')
    ensures Inv(s') && Forward(s, s')
  {
    hide Inv, Move, LaunchOk, SoleWriter, Forward, Announced, NoOpenRun, Tokens, Held;
    ContextOf(s, l);
    Ownership(l, s.launches[l], Before(s, l), s.maxConcurrent);
    ReleaseOperationMoves(l, s.launches[l], Before(s, l), s'.launches[l], After(s, s', l), s.maxConcurrent);
    GoodStepKeepsInv(s, s', l);
  }

  /* ---- the process and its wait() goroutine ---- */

  lemma ProcessDiesMoves(l: LaunchId, launch: Launch, c: Controller, next: Launch, max: nat)
    requires Joined(l, launch, c, max) && launch.process.Alive?
    requires next == launch.(process := Dead)
    ensures Move(l, launch, c, next, c, max)
    ensures !ReadyToStart(launch) && !launch.pc.AwaitRun?
  {
  }

  lemma ProcessDiesKeeps(s: State, l: LaunchId, s': State)
    requires Inv(s) && ProcessDies(s, l, s')
    ensures Inv(s') && Forward(s, s')
  {
    hide Inv, Move, LaunchOk, SoleWriter, Forward, Announced, NoOpenRun, Tokens, Held;
    ContextOf(s, l);
    ProcessDiesMoves(l, s.launches[l], Before(s, l), s'.launches[l], s.maxConcurrent);
    GoodStepKeepsInv(s, s', l);
  }

  lemma ReapProcessMoves(l: LaunchId, launch: Launch, c: Controller, next: Launch, d: Controller, max: nat)
    requires Joined(l, launch, c, max) && launch.process.Dead?
    requires next == launch.(process := Reaped) && d == c.(process := None)
    ensures Move(l, launch, c, next, d, max)
    ensures !ReadyToStart(launch) && !launch.pc.AwaitRun?
  {
  }

  lemma ReapProcessKeeps(s: State, l: LaunchId, s': State)
    requires Inv(s) && ReapProcess(s, l, s')
    ensures Inv(s') && Forward(s, s')
  {
    hide Inv, Move, LaunchOk, SoleWriter, Forward, Announced, NoOpenRun, Tokens, Held;
    ContextOf(s, l);
    Ownership(l, s.launches[l], Before(s, l), s.maxConcurrent);
    ReapProcessMoves(l, s.launches[l], Before(s, l), s'.launches[l], After(s, s', l), s.maxConcurrent);
    GoodStepKeepsInv(s, s', l);
  }

  lemma ObserveExitMoves(l: LaunchId, launch: Launch, c: Controller, next: Launch, d: Controller, max: nat)
    requires Joined(l, launch, c, max) && launch.waiter.Waiting? && launch.process.Reaped? && c.mu.None?
    requires d == c.(phase := d.phase, clobbered := c.clobbered || c.run != Some(l)) && (d.phase.Exited? || d.phase.Failed?)
    requires next == launch.(waiter := PersistTerminal(RecordOf(d), 0))
    ensures Move(l, launch, c, next, d, max)
    ensures !ReadyToStart(launch) && !launch.pc.AwaitRun?
  {
  }

  lemma ObserveExitFrame(s: State, l: LaunchId, a: Answer, s': State)
    requires CountsOk(s) && ObserveExit(s, l, a, s')
    ensures Known(s, l) && l in s'.launches
    ensures OnlyLaunch(s, s', l) && Balanced(s, s', l) && s.written <= s'.written
    ensures s.launches[l].waiter.Waiting? && s.launches[l].process.Reaped? && Before(s, l).mu.None?
    ensures var c, d := Before(s, l), After(s, s', l); d == c.(phase := d.phase, clobbered := c.clobbered || c.run != Some(l)) && (d.phase.Exited? || d.phase.Failed?)
    ensures s'.launches[l] == s.launches[l].(waiter := PersistTerminal(RecordOf(After(s, s', l)), 0))
  {
    hide Tokens, Held;
  }

  lemma ObserveExitKeeps(s: State, l: LaunchId, a: Answer, s': State)
    requires Inv(s) && ObserveExit(s, l, a, s')
    ensures Inv(s') && Forward(s, s')
  {
    hide Inv, CountsOk, Joined, Move, SoleWriter, NoOpenRun, Forward, ObserveExit, Balanced, OnlyLaunch, Announced;
    CountsOf(s);
    ObserveExitFrame(s, l, a, s');
    ContextOf(s, l);
    if Before(s, l).run == Some(l) { AloneAsCurrentRun(s, l); }
    ObserveExitMoves(l, s.launches[l], Before(s, l), s'.launches[l], After(s, s', l), s.maxConcurrent);
    GoodStepKeepsInv(s, s', l);
  }

  lemma PersistExitMoves(l: LaunchId, launch: Launch, c: Controller, next: Launch, max: nat)
    requires Joined(l, launch, c, max) && launch.waiter.PersistTerminal?
    requires
      || next == launch.(waiter := launch.waiter.(attempt := launch.waiter.attempt + 1))
      || next == launch.(waiter := NoteFailure)
      || (next == launch.(waiter := ReleaseSlot))
    ensures Move(l, launch, c, next, c, max)
    ensures !ReadyToStart(launch) && !launch.pc.AwaitRun?
  {
  }

  lemma PersistExitFrame(s: State, l: LaunchId, a: Answer, s': State)
    requires CountsOk(s) && PersistExit(s, l, a, s')
    ensures Known(s, l) && l in s'.launches
    ensures OnlyLaunch(s, s', l) && Balanced(s, s', l) && s.written <= s'.written
    ensures s.launches[l].waiter.PersistTerminal? && After(s, s', l) == Before(s, l)
    ensures var w := s'.launches[l].waiter; s'.launches[l] == s.launches[l].(waiter := w) && (w == s.launches[l].waiter.(attempt := s.launches[l].waiter.attempt + 1) || w == NoteFailure || w == ReleaseSlot)
  {
    hide Tokens, Held;
  }

  lemma PersistExitKeeps(s: State, l: LaunchId, a: Answer, s': State)
    requires Inv(s) && PersistExit(s, l, a, s')
    ensures Inv(s') && Forward(s, s')
  {
    hide Inv, CountsOk, Joined, Move, SoleWriter, NoOpenRun, Forward, PersistExit, Balanced, OnlyLaunch, Announced;
    CountsOf(s);
    PersistExitFrame(s, l, a, s');
    ContextOf(s, l);
    PersistExitMoves(l, s.launches[l], Before(s, l), s'.launches[l], s.maxConcurrent);
    GoodStepKeepsInv(s, s', l);
  }

  lemma NoteExitFailureMoves(l: LaunchId, launch: Launch, c: Controller, next: Launch, max: nat)
    requires Joined(l, launch, c, max) && launch.waiter.NoteFailure?
    requires next == launch.(waiter := ReleaseSlot)
    ensures Move(l, launch, c, next, c, max)
    ensures !ReadyToStart(launch) && !launch.pc.AwaitRun?
  {
  }

  lemma NoteExitFailureKeeps(s: State, l: LaunchId, s': State)
    requires Inv(s) && NoteExitFailure(s, l, s')
    ensures Inv(s') && Forward(s, s')
  {
    hide Inv, Move, LaunchOk, SoleWriter, Forward, Announced, NoOpenRun, Tokens, Held;
    ContextOf(s, l);
    NoteExitFailureMoves(l, s.launches[l], Before(s, l), s'.launches[l], s.maxConcurrent);
    GoodStepKeepsInv(s, s', l);
  }

  lemma ReleaseExitedMoves(l: LaunchId, launch: Launch, c: Controller, next: Launch, max: nat)
    requires Joined(l, launch, c, max) && launch.waiter.ReleaseSlot?
    requires next == launch.(waiter := Complete, slot := false)
    ensures Move(l, launch, c, next, c, max)
    ensures !ReadyToStart(launch) && !launch.pc.AwaitRun?
  {
  }

  lemma ReleaseExitedKeeps(s: State, l: LaunchId, s': State)
    requires Inv(s) && ReleaseExited(s, l, s')
    ensures Inv(s') && Forward(s, s')
  {
    hide Inv, Move, LaunchOk, SoleWriter, Forward, Announced, NoOpenRun, Tokens, Held;
    ContextOf(s, l);
    ReleaseExitedMoves(l, s.launches[l], Before(s, l), s'.launches[l], s.maxConcurrent);
    GoodStepKeepsInv(s, s', l);
  }

  lemma CompleteExitedMoves(l: LaunchId, launch: Launch, c: Controller, next: Launch, max: nat)
    requires Joined(l, launch, c, max) && launch.waiter.Complete?
    requires next == launch.(waiter := Finished, done := true)
    ensures Move(l, launch, c, next, c, max)
    ensures !ReadyToStart(launch) && !launch.pc.AwaitRun?
  {
  }

  lemma CompleteExitedKeeps(s: State, l: LaunchId, s': State)
    requires Inv(s) && CompleteExited(s, l, s')
    ensures Inv(s') && Forward(s, s')
  {
    hide Inv, Move, LaunchOk, SoleWriter, Forward, Announced, NoOpenRun, Tokens, Held;
    ContextOf(s, l);
    CompleteExitedMoves(l, s.launches[l], Before(s, l), s'.launches[l], s.maxConcurrent);
    GoodStepKeepsInv(s, s', l);
  }

}
