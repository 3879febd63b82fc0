/** Which live processes arbitration can rely on its view of: that is settled when the process is started, and no step changes
it while the process lives. */
module LaunchSeen {
  import opened Wrappers
  import opened LaunchState
  import opened LaunchSteps
  import opened LaunchInvariant
  import opened LaunchFrames
  import opened LaunchCalls
  import opened LaunchRuns
  import opened LaunchBacked
  import opened LaunchTheorems

  predicate Enrolled(s: State, id: ControllerId)
    requires id in s.controllers
  { s.controllers[id].instanceId in s.registry && s.registry[s.controllers[id].instanceId] == id }

  /** The launch has still to write the state or the run of its controller: its wait() has not seen the exit, or its run is
  about to be published. */
  predicate Loose(launch: Launch) { launch.waiter.Waiting? || launch.pc.PersistStarting? }

  /** The registered state of the controller is in flight and speaks of l, and no other launch of it has still to write it. */
  predicate Seen(s: State, l: LaunchId)
    requires Known(s, l)
  {
    var id := s.launches[l].controller; var c := s.controllers[id];
    && Enrolled(s, id) && c.phase.InFlight() && c.run == Some(l)
    && forall k :: k in s.launches && k != l && s.launches[k].controller == id ==> !Loose(s.launches[k])
  }

  predicate Lives(s: State, l: LaunchId) { Known(s, l) && s.launches[l].process.Alive? }

  /* ---- what a step of one launch does to phase, run and wait() ---- */

  predicate SameAttribution(c: Controller, d: Controller) {
    d.instanceId == c.instanceId && d.modelId == c.modelId && d.pipelineId == c.pipelineId && d.entryId == c.entryId
  }

  predicate Marks(k: LaunchId, launch: Launch, c: Controller, next: Launch, d: Controller) {
    && SameAttribution(c, d)
    && (d.run == c.run || (launch.pc.PersistStarting? && d.run == Some(k)))
    && (launch.pc.PersistStarting? && !next.pc.PersistStarting? ==> d.run == Some(k))
    && (next.pc.PersistStarting? && !launch.pc.PersistStarting? ==> launch.pc.Commit?)
    && (launch.waiter.Waiting? && !next.waiter.Waiting? ==> launch.process.Reaped? && !d.phase.InFlight())
    && (next.waiter.Waiting? && !launch.waiter.Waiting? ==> Deciding(launch.pc) || launch.pc.PersistRolledBack?)
    && (Open(next) && !Open(launch) ==> Deciding(launch.pc))
    && (!c.phase.InFlight() && d.phase.InFlight() ==> launch.pc.Commit? || launch.pc.Spawn? || Deciding(launch.pc))
    && (!c.phase.InFlight() && d.phase.InFlight() && launch.pc.Commit? ==> next.pc.PersistStarting?)
    && (c.phase.InFlight() && !d.phase.InFlight() ==>
          || (launch.waiter.Waiting? && launch.process.Reaped?) || launch.pc.Spawn? || (Deciding(launch.pc) && !launch.process.Alive?)
          || launch.pc.AbortFail? || launch.pc.FailUnspawned?)
    && (next.process.Alive? && !launch.process.Alive? ==> launch.pc.Spawn? && next.spawns == launch.spawns + 1 && d.phase.Running?)
  }

  /** A restart that goes on to start. */
  predicate Readying(launch: Launch) {
    launch.restart && (launch.pc.Slot? || launch.pc.Commit? || (launch.pc.StopOld? && launch.pc.stop == Final(true)))
  }

  predicate Ended(s: State, run: Option<LaunchId>) { run.None? || (run.value in s.launches && s.launches[run.value].done) }

  predicate Marked(s: State, k: LaunchId, s': State)
    requires OnlyLaunch(s, s', k) && Known(s, k)
  {
    var launch := s.launches[k]; var next := s'.launches[k]; var c := Before(s, k); var d := After(s, s', k);
    && Marks(k, launch, c, next, d)
    && (Readying(next) ==>
          && d.run == c.run && (d.phase == c.phase || !d.phase.InFlight())
          && (Readying(launch) || !c.phase.InFlight() || Ended(s, c.run) || (launch.pc.AwaitRun? && Ended(s, Some(launch.pc.previous)))))
    && (forall id :: id in s.registry && !(id in s'.registry && s'.registry[id] == s.registry[id]) ==>
          id == c.instanceId && (launch.pc.RunForget? || launch.pc.AbortForget? || launch.pc.Forget? || (!launch.restart && launch.pc.Publish?)))
  }

  predicate Steppable(s: State, k: LaunchId, s': State) {
    Known(s, k) && OnlyLaunch(s, s', k) && (Before(s, k).phase.InFlight() || Before(s, k).phase.Terminal())
  }

  lemma AcquireArbitrationMarks(s: State, k: LaunchId, s': State)
    requires Steppable(s, k, s') && AcquireArbitration(s, k, s')
    ensures Marked(s, k, s')
  {
    hide OnlyLaunch;
  }

  lemma RejectMarks(s: State, k: LaunchId, a: Answer, s': State)
    requires Steppable(s, k, s') && Reject(s, k, a, s')
    ensures Marked(s, k, s')
  {
    hide OnlyLaunch;
  }

  lemma CheckTargetMarks(s: State, k: LaunchId, s': State)
    requires Steppable(s, k, s') && CheckTarget(s, k, s')
    ensures Marked(s, k, s')
  {
    hide OnlyLaunch;
  }

  lemma ExamineMarks(s: State, k: LaunchId, a: Answer, s': State)
    requires Steppable(s, k, s') && Examine(s, k, a, s')
    ensures Marked(s, k, s')
  {
    hide OnlyLaunch;
  }

  lemma PassMarks(s: State, k: LaunchId, a: Answer, s': State)
    requires Steppable(s, k, s') && Pass(s, k, a, s')
    ensures Marked(s, k, s')
  {
    hide OnlyLaunch;
  }

  lemma ArbitrationMarks(s: State, k: LaunchId, a: Answer, s': State)
    requires Steppable(s, k, s') && ArbitrationStep(s, k, a, s')
    ensures Marked(s, k, s')
  {
    hide Steppable, Marked, AcquireArbitration, Reject, CheckTarget, Examine, Pass;
    if AcquireArbitration(s, k, s') {
      AcquireArbitrationMarks(s, k, s');
    } else if Reject(s, k, a, s') {
      RejectMarks(s, k, a, s');
    } else if CheckTarget(s, k, s') {
      CheckTargetMarks(s, k, s');
    } else if Examine(s, k, a, s') {
      ExamineMarks(s, k, a, s');
    } else {
      PassMarks(s, k, a, s');
    }
  }

  lemma PublishRestartMarks(s: State, k: LaunchId, s': State)
    requires Steppable(s, k, s') && PublishClaim(s, k, s') && s.launches[k].restart
    ensures Marked(s, k, s')
  {
    hide OnlyLaunch;
  }

  lemma PublishAdmissionMarks(s: State, k: LaunchId, s': State)
    requires Steppable(s, k, s') && PublishClaim(s, k, s') && !s.launches[k].restart
    ensures Marked(s, k, s')
  {
    hide OnlyLaunch;
  }

  lemma PublishMarks(s: State, k: LaunchId, s': State)
    requires Steppable(s, k, s') && PublishClaim(s, k, s')
    ensures Marked(s, k, s')
  {
    hide OnlyLaunch, Marked, PublishClaim;
    if s.launches[k].restart { PublishRestartMarks(s, k, s'); } else { PublishAdmissionMarks(s, k, s'); }
  }

  lemma EnterLifecycleMarks(s: State, k: LaunchId, s': State)
    requires Steppable(s, k, s') && EnterLifecycle(s, k, s')
    ensures Marked(s, k, s')
  {
    hide OnlyLaunch;
  }

  lemma RevalidateOperationMarks(s: State, k: LaunchId, s': State)
    requires Steppable(s, k, s') && RevalidateOperation(s, k, s')
    ensures Marked(s, k, s')
  {
    hide OnlyLaunch;
  }

  lemma AwaitPreviousMarks(s: State, k: LaunchId, a: Answer, s': State)
    requires Steppable(s, k, s') && AwaitPrevious(s, k, a, s')
    ensures Marked(s, k, s')
  {
    hide OnlyLaunch;
  }

  lemma TakeSlotMarks(s: State, k: LaunchId, s': State)
    requires Steppable(s, k, s') && TakeSlot(s, k, s')
    ensures Marked(s, k, s')
  {
    hide OnlyLaunch;
  }

  lemma GiveUpSlotMarks(s: State, k: LaunchId, s': State)
    requires Steppable(s, k, s') && GiveUpSlot(s, k, s')
    ensures Marked(s, k, s')
  {
    hide OnlyLaunch;
  }

  lemma CreateRecordMarks(s: State, k: LaunchId, a: Answer, s': State)
    requires Steppable(s, k, s') && CreateRecord(s, k, a, s')
    ensures Marked(s, k, s')
  {
    hide OnlyLaunch;
  }

  lemma PrepareMarks(s: State, k: LaunchId, a: Answer, s': State)
    requires Steppable(s, k, s') && PrepareStep(s, k, a, s')
    ensures Marked(s, k, s')
  {
    hide Steppable, Marked, EnterLifecycle, RevalidateOperation, AwaitPrevious, TakeSlot, GiveUpSlot, CreateRecord;
    if EnterLifecycle(s, k, s') {
      EnterLifecycleMarks(s, k, s');
    } else if RevalidateOperation(s, k, s') {
      RevalidateOperationMarks(s, k, s');
    } else if AwaitPrevious(s, k, a, s') {
      AwaitPreviousMarks(s, k, a, s');
    } else if TakeSlot(s, k, s') {
      TakeSlotMarks(s, k, s');
    } else if GiveUpSlot(s, k, s') {
      GiveUpSlotMarks(s, k, s');
    } else {
      CreateRecordMarks(s, k, a, s');
    }
  }

  lemma CommitSpawnMarks(s: State, k: LaunchId, s': State)
    requires Steppable(s, k, s') && CommitSpawn(s, k, s')
    ensures Marked(s, k, s')
  {
    hide OnlyLaunch;
  }

  lemma CommitAfterDrainMarks(s: State, k: LaunchId, s': State)
    requires Steppable(s, k, s') && CommitAfterDrain(s, k, s')
    ensures Marked(s, k, s')
  {
    hide OnlyLaunch;
  }

  lemma ClaimRejectedMarks(s: State, k: LaunchId, s': State)
    requires Steppable(s, k, s') && ClaimRejected(s, k, s')
    ensures Marked(s, k, s')
  {
    hide OnlyLaunch;
  }

  lemma PersistStartingStateMarks(s: State, k: LaunchId, a: Answer, s': State)
    requires Steppable(s, k, s') && PersistStartingState(s, k, a, s')
    ensures Marked(s, k, s')
  {
    hide OnlyLaunch;
  }

  lemma SpawnProcessMarks(s: State, k: LaunchId, s': State)
    requires Steppable(s, k, s') && SpawnProcess(s, k, s')
    ensures Marked(s, k, s')
  {
    hide OnlyLaunch;
  }

  lemma SpawnFailsMarks(s: State, k: LaunchId, s': State)
    requires Steppable(s, k, s') && SpawnFails(s, k, s')
    ensures Marked(s, k, s')
  {
    hide OnlyLaunch;
  }

  lemma PersistFailureMarks(s: State, k: LaunchId, a: Answer, s': State)
    requires Steppable(s, k, s') && PersistFailure(s, k, a, s')
    ensures Marked(s, k, s')
  {
    hide OnlyLaunch;
  }

  lemma PersistRunningStateMarks(s: State, k: LaunchId, s': State)
    requires Steppable(s, k, s') && PersistRunningState(s, k, s')
    ensures Marked(s, k, s')
  {
    hide OnlyLaunch;
  }

  lemma PersistRunningFailsMarks(s: State, k: LaunchId, a: Answer, s': State)
    requires Steppable(s, k, s') && PersistRunningFails(s, k, a, s')
    ensures Marked(s, k, s')
  {
    hide OnlyLaunch;
  }

  lemma StartMarks(s: State, k: LaunchId, a: Answer, s': State)
    requires Steppable(s, k, s') && StartStep(s, k, a, s')
    ensures Marked(s, k, s')
  {
    hide Steppable, Marked, CommitSpawn, CommitAfterDrain, ClaimRejected, PersistStartingState, SpawnProcess, SpawnFails, PersistFailure,
         PersistRunningState, PersistRunningFails;
    if CommitSpawn(s, k, s') {
      CommitSpawnMarks(s, k, s');
    } else if CommitAfterDrain(s, k, s') {
      CommitAfterDrainMarks(s, k, s');
    } else if ClaimRejected(s, k, s') {
      ClaimRejectedMarks(s, k, s');
    } else if PersistStartingState(s, k, a, s') {
      PersistStartingStateMarks(s, k, a, s');
    } else if SpawnProcess(s, k, s') {
      SpawnProcessMarks(s, k, s');
    } else if SpawnFails(s, k, s') {
      SpawnFailsMarks(s, k, s');
    } else if PersistFailure(s, k, a, s') {
      PersistFailureMarks(s, k, a, s');
    } else if PersistRunningState(s, k, s') {
      PersistRunningStateMarks(s, k, s');
    } else {
      PersistRunningFailsMarks(s, k, a, s');
    }
  }

  lemma KillAcceptedMarks(s: State, k: LaunchId, s': State)
    requires Steppable(s, k, s') && KillAccepted(s, k, s')
    ensures Marked(s, k, s')
  {
    hide OnlyLaunch;
  }

  lemma RollbackConfirmedMarks(s: State, k: LaunchId, s': State)
    requires Steppable(s, k, s') && RollbackConfirmed(s, k, s')
    ensures Marked(s, k, s')
  {
    hide OnlyLaunch;
  }

  lemma RollbackUnconfirmedMarks(s: State, k: LaunchId, s': State)
    requires Steppable(s, k, s') && RollbackUnconfirmed(s, k, s')
    ensures Marked(s, k, s')
  {
    hide OnlyLaunch;
  }

  lemma PersistRollbackMarks(s: State, k: LaunchId, a: Answer, s': State)
    requires Steppable(s, k, s') && PersistRollback(s, k, a, s')
    ensures Marked(s, k, s')
  {
    hide OnlyLaunch;
  }

  lemma ReleaseRunMarks(s: State, k: LaunchId, s': State)
    requires Steppable(s, k, s') && ReleaseRun(s, k, s')
    ensures Marked(s, k, s')
  {
    hide OnlyLaunch;
  }

  lemma CompleteRunMarks(s: State, k: LaunchId, s': State)
    requires Steppable(s, k, s') && CompleteRun(s, k, s')
    ensures Marked(s, k, s')
  {
    hide OnlyLaunch;
  }

  lemma ForgetRunMarks(s: State, k: LaunchId, s': State)
    requires Steppable(s, k, s') && ForgetRun(s, k, s')
    ensures Marked(s, k, s')
  {
    hide OnlyLaunch;
  }

  lemma RollbackMarks(s: State, k: LaunchId, a: Answer, s': State)
    requires Steppable(s, k, s') && RollbackStep(s, k, a, s')
    ensures Marked(s, k, s')
  {
    hide Steppable, Marked, KillAccepted, RollbackConfirmed, RollbackUnconfirmed, PersistRollback, ReleaseRun, CompleteRun, ForgetRun;
    if KillAccepted(s, k, s') {
      KillAcceptedMarks(s, k, s');
    } else if RollbackConfirmed(s, k, s') {
      RollbackConfirmedMarks(s, k, s');
    } else if RollbackUnconfirmed(s, k, s') {
      RollbackUnconfirmedMarks(s, k, s');
    } else if PersistRollback(s, k, a, s') {
      PersistRollbackMarks(s, k, a, s');
    } else if ReleaseRun(s, k, s') {
      ReleaseRunMarks(s, k, s');
    } else if CompleteRun(s, k, s') {
      CompleteRunMarks(s, k, s');
    } else {
      ForgetRunMarks(s, k, s');
    }
  }

  lemma ReleaseAbortedMarks(s: State, k: LaunchId, s': State)
    requires Steppable(s, k, s') && ReleaseAborted(s, k, s')
    ensures Marked(s, k, s')
  {
    hide OnlyLaunch;
  }

  lemma FailAbortedMarks(s: State, k: LaunchId, a: Answer, s': State)
    requires Steppable(s, k, s') && FailAborted(s, k, a, s')
    ensures Marked(s, k, s')
  {
    hide OnlyLaunch;
  }

  lemma ForgetAbortedMarks(s: State, k: LaunchId, s': State)
    requires Steppable(s, k, s') && ForgetAborted(s, k, s')
    ensures Marked(s, k, s')
  {
    hide OnlyLaunch;
  }

  lemma ReturnTokenMarks(s: State, k: LaunchId, s': State)
    requires Steppable(s, k, s') && ReturnToken(s, k, s')
    ensures Marked(s, k, s')
  {
    hide OnlyLaunch;
  }

  lemma AbortMarks(s: State, k: LaunchId, a: Answer, s': State)
    requires Steppable(s, k, s') && AbortStep(s, k, a, s')
    ensures Marked(s, k, s')
  {
    hide Steppable, Marked, ReleaseAborted, FailAborted, ForgetAborted, ReturnToken;
    if ReleaseAborted(s, k, s') {
      ReleaseAbortedMarks(s, k, s');
    } else if FailAborted(s, k, a, s') {
      FailAbortedMarks(s, k, a, s');
    } else if ForgetAborted(s, k, s') {
      ForgetAbortedMarks(s, k, s');
    } else {
      ReturnTokenMarks(s, k, s');
    }
  }

  lemma LeaveLifecycleMarks(s: State, k: LaunchId, s': State)
    requires Steppable(s, k, s') && LeaveLifecycle(s, k, s')
    ensures Marked(s, k, s')
  {
    hide OnlyLaunch;
  }

  lemma MarkUnspawnedMarks(s: State, k: LaunchId, s': State)
    requires Steppable(s, k, s') && MarkUnspawned(s, k, s')
    ensures Marked(s, k, s')
  {
    hide OnlyLaunch;
  }

  lemma StoreUnspawnedMarks(s: State, k: LaunchId, a: Answer, s': State)
    requires Steppable(s, k, s') && StoreUnspawned(s, k, a, s')
    ensures Marked(s, k, s')
  {
    hide OnlyLaunch;
  }

  lemma ForgetControllerMarks(s: State, k: LaunchId, s': State)
    requires Steppable(s, k, s') && ForgetController(s, k, s')
    ensures Marked(s, k, s')
  {
    hide OnlyLaunch;
  }

  lemma ReleaseOperationMarks(s: State, k: LaunchId, s': State)
    requires Steppable(s, k, s') && ReleaseOperation(s, k, s')
    ensures Marked(s, k, s')
  {
    hide OnlyLaunch;
  }

  lemma FinishMarks(s: State, k: LaunchId, a: Answer, s': State)
    requires Steppable(s, k, s') && FinishStep(s, k, a, s')
    ensures Marked(s, k, s')
  {
    hide Steppable, Marked, LeaveLifecycle, MarkUnspawned, StoreUnspawned, ForgetController, ReleaseOperation;
    if LeaveLifecycle(s, k, s') {
      LeaveLifecycleMarks(s, k, s');
    } else if MarkUnspawned(s, k, s') {
      MarkUnspawnedMarks(s, k, s');
    } else if StoreUnspawned(s, k, a, s') {
      StoreUnspawnedMarks(s, k, a, s');
    } else if ForgetController(s, k, s') {
      ForgetControllerMarks(s, k, s');
    } else {
      ReleaseOperationMarks(s, k, s');
    }
  }

  lemma ProcessDiesMarks(s: State, k: LaunchId, s': State)
    requires Steppable(s, k, s') && ProcessDies(s, k, s')
    ensures Marked(s, k, s')
  {
    hide OnlyLaunch;
  }

  lemma ReapProcessMarks(s: State, k: LaunchId, s': State)
    requires Steppable(s, k, s') && ReapProcess(s, k, s')
    ensures Marked(s, k, s')
  {
    hide OnlyLaunch;
  }

  lemma ObserveExitMarks(s: State, k: LaunchId, a: Answer, s': State)
    requires Steppable(s, k, s') && ObserveExit(s, k, a, s')
    ensures Marked(s, k, s')
  {
    hide OnlyLaunch;
  }

  lemma PersistExitMarks(s: State, k: LaunchId, a: Answer, s': State)
    requires Steppable(s, k, s') && PersistExit(s, k, a, s')
    ensures Marked(s, k, s')
  {
    hide OnlyLaunch;
  }

  lemma NoteExitFailureMarks(s: State, k: LaunchId, s': State)
    requires Steppable(s, k, s') && NoteExitFailure(s, k, s')
    ensures Marked(s, k, s')
  {
    hide OnlyLaunch;
  }

  lemma ReleaseExitedMarks(s: State, k: LaunchId, s': State)
    requires Steppable(s, k, s') && ReleaseExited(s, k, s')
    ensures Marked(s, k, s')
  {
    hide OnlyLaunch;
  }

  lemma CompleteExitedMarks(s: State, k: LaunchId, s': State)
    requires Steppable(s, k, s') && CompleteExited(s, k, s')
    ensures Marked(s, k, s')
  {
    hide OnlyLaunch;
  }

  lemma ProcessMarks(s: State, k: LaunchId, a: Answer, s': State)
    requires Steppable(s, k, s') && ProcessStep(s, k, a, s')
    ensures Marked(s, k, s')
  {
    hide Steppable, Marked, ProcessDies, ReapProcess, ObserveExit, PersistExit, NoteExitFailure, ReleaseExited, CompleteExited;
    if ProcessDies(s, k, s') {
      ProcessDiesMarks(s, k, s');
    } else if ReapProcess(s, k, s') {
      ReapProcessMarks(s, k, s');
    } else if ObserveExit(s, k, a, s') {
      ObserveExitMarks(s, k, a, s');
    } else if PersistExit(s, k, a, s') {
      PersistExitMarks(s, k, a, s');
    } else if NoteExitFailure(s, k, s') {
      NoteExitFailureMarks(s, k, s');
    } else if ReleaseExited(s, k, s') {
      ReleaseExitedMarks(s, k, s');
    } else {
      CompleteExitedMarks(s, k, s');
    }
  }

  lemma StopOldMarks(s: State, k: LaunchId, a: Answer, s': State)
    requires Steppable(s, k, s') && StopOldStep(s, k, a, s')
    ensures Marked(s, k, s')
  {
    hide OnlyLaunch, StopOldRun, StopOldRunReturns;
    if next :| StopOldRun(s, k, a, next, s') {
      StopOldRunMarks(s, k, a, next, s');
    } else {
      var ok :| StopOldRunReturns(s, k, a, ok, s');
      StopOldReturnsMarks(s, k, a, ok, s');
    }
  }

  lemma StopOldRunMarks(s: State, k: LaunchId, a: Answer, next: StopPc, s': State)
    requires Steppable(s, k, s') && StopOldRun(s, k, a, next, s')
    ensures Marked(s, k, s')
  {
    hide OnlyLaunch;
  }

  lemma StopOldReturnsMarks(s: State, k: LaunchId, a: Answer, ok: bool, s': State)
    requires Steppable(s, k, s') && StopOldRunReturns(s, k, a, ok, s')
    ensures Marked(s, k, s')
  {
    hide OnlyLaunch;
  }

  lemma LaunchMarks(s: State, k: LaunchId, a: Answer, s': State)
    requires Steppable(s, k, s') && LaunchStep(s, k, a, s')
    ensures Marked(s, k, s')
  {
    hide Marked, OnlyLaunch, ArbitrationStep, PublishClaim, PrepareStep, StartStep, RollbackStep, AbortStep, FinishStep, StopOldStep,
         ProcessStep;
    if ArbitrationStep(s, k, a, s') {
      ArbitrationMarks(s, k, a, s');
    } else if PublishClaim(s, k, s') {
      PublishMarks(s, k, s');
    } else if PrepareStep(s, k, a, s') {
      PrepareMarks(s, k, a, s');
    } else if StartStep(s, k, a, s') {
      StartMarks(s, k, a, s');
    } else if RollbackStep(s, k, a, s') {
      RollbackMarks(s, k, a, s');
    } else if AbortStep(s, k, a, s') {
      AbortMarks(s, k, a, s');
    } else if FinishStep(s, k, a, s') {
      FinishMarks(s, k, a, s');
    } else if StopOldStep(s, k, a, s') {
      StopOldMarks(s, k, a, s');
    } else {
      ProcessMarks(s, k, a, s');
    }
  }

  /* ---- a restart that goes on has no open run behind it, whatever a stale wait() has written ---- */

  /** The state is terminal, or the current run is over for its controller. */
  predicate Unencumbered(s: State, id: ControllerId)
    requires id in s.controllers
  {
    var c := s.controllers[id];
    !c.phase.InFlight() || c.run.None? || (c.run.value in s.launches && !Open(s.launches[c.run.value]))
  }

  predicate Careful(s: State)
    requires Tables(s)
  {
    forall k :: k in s.launches && Readying(s.launches[k]) ==> Unencumbered(s, s.launches[k].controller)
  }

  /** What one launch knows of its controller. */
  predicate Own(k: LaunchId, launch: Launch, c: Controller) {
    && (launch.done ==> !Open(launch) && !Deciding(launch.pc))
    && (BeforeCommit(launch.pc) ==> !launch.started)
    && (Deciding(launch.pc) ==> c.phase.InFlight())
    && (launch.pc.ArbWait? || launch.pc.Spawn? ==> launch.waiter.NoWaiter?)
    && (Owning(launch.pc) ==> c.active.Some? && c.active.value.claim == k)
    && (AfterCommit(launch.pc) && !launch.pc.PersistStarting? ==> c.run == Some(k))
    && (launch.pc.AbortFail? || launch.pc.AbortForget? || (!launch.restart && launch.pc.Commit?) ==> c.preSpawnToken)
    && (launch.pc.FailUnspawned? || launch.pc.Forget? ==> !launch.restart && (c.run.None? || c.run == Some(k)))
    && (!launch.restart && Arbitrating(launch.pc) ==> !c.born)
    && (Readying(launch) ==> Owning(launch.pc) && launch.waiter.NoWaiter?)
    && (launch.process.Alive? || launch.process.Dead? ==> c.process == Some(k))
    && (launch.process.Alive? ==>
          && launch.started && !launch.rolledBack && launch.spawns == 1 && (Deciding(launch.pc) || launch.waiter.Waiting?)
          && !launch.pc.Spawn? && !launch.pc.AbortFail? && !launch.pc.FailUnspawned? && !launch.pc.PersistStarting? && !launch.pc.Commit?
          && !launch.pc.RunForget? && !launch.pc.AbortForget? && !launch.pc.Forget? && !Arbitrating(launch.pc))
    && launch.spawns <= 1
  }

  lemma OwnOf(k: LaunchId, launch: Launch, c: Controller, max: nat)
    requires LaunchOk(k, launch, c, max)
    ensures Own(k, launch, c)
  {
  }

  lemma OwnIn(s: State, k: LaunchId)
    requires Inv(s) && k in s.launches
    ensures Known(s, k) && Own(k, s.launches[k], Before(s, k))
  {
    hide ControllersOk, StopsOk, OperationsOk, ArbitrationOk, ScanOk, Exclusive, RestartsOk, CountsOk, DurableOk, LaunchOk, Own;
    OwnOf(k, s.launches[k], Before(s, k), s.maxConcurrent);
  }

  /** What a controller knows of its launches. */
  predicate Grounded(s: State, id: ControllerId)
    requires id in s.controllers
  {
    var c := s.controllers[id];
    && (c.phase.InFlight() || c.phase.Terminal())
    && (c.preSpawnToken || !c.born ==> NothingStarted(s, id))
    && (c.run.Some? ==> c.run.value in s.launches && s.launches[c.run.value].controller == id && s.launches[c.run.value].started)
  }

  lemma GroundedIn(s: State, id: ControllerId)
    requires Inv(s) && id in s.controllers
    ensures Grounded(s, id)
  {
    hide LaunchesOk, StopsOk, OperationsOk, ArbitrationOk, ScanOk, Exclusive, RestartsOk, CountsOk, DurableOk;
    assert ControllerOk(s, id);
  }

  lemma SteppableIn(s: State, k: LaunchId, a: Answer, s': State)
    requires Inv(s) && Backed(s) && LaunchStep(s, k, a, s')
    ensures Tables(s) && Steppable(s, k, s') && Flowing(s, s', k) && Marked(s, k, s')
  {
    hide Inv, Backed, LaunchStep, Marked, Marks;
    LaunchFlows(s, k, a, s');
    OwnIn(s, k);
    GroundedIn(s, s.launches[k].controller);
    LaunchMarks(s, k, a, s');
  }

  lemma AwaitedIsRun(s: State, k: LaunchId)
    requires Inv(s) && Known(s, k) && s.launches[k].pc.AwaitRun?
    ensures Before(s, k).run == Some(s.launches[k].pc.previous)
  {
    hide LaunchesOk, ControllersOk, StopsOk, OperationsOk, ArbitrationOk, ScanOk, Exclusive, CountsOk, DurableOk;
  }

  /** The mover's own claim to go on. */
  lemma MoverStaysCareful(s: State, k: LaunchId, s': State)
    requires Inv(s) && Steppable(s, k, s') && Marked(s, k, s') && Readying(s'.launches[k])
    requires Readying(s.launches[k]) ==> Unencumbered(s, s.launches[k].controller)
    ensures Unencumbered(s', s.launches[k].controller)
  {
    hide Inv, LaunchStep;
    var id := s.launches[k].controller;
    var c := s.controllers[id];
    GroundedIn(s, id);
    if s.launches[k].pc.AwaitRun? { AwaitedIsRun(s, k); }
    if c.run.Some? {
      OwnIn(s, c.run.value);
      OwnIn(s, k);
      if c.run.value != k { assert s'.launches[c.run.value] == s.launches[c.run.value]; }
    }
  }

  /** Somebody else's claim to go on: only the owner of the operation writes what it rests on. */
  lemma OtherStaysCareful(s: State, k: LaunchId, s': State, m: LaunchId)
    requires Inv(s) && Steppable(s, k, s') && Marked(s, k, s') && Known(s, m) && m != k
    requires Readying(s.launches[m]) && Unencumbered(s, s.launches[m].controller)
    ensures Unencumbered(s', s.launches[m].controller)
  {
    hide Inv;
    var id := s.launches[m].controller;
    var c := s.controllers[id];
    GroundedIn(s, id);
    OwnIn(s, m);
    OwnIn(s, k);
    if id == s.launches[k].controller {
      assert !Owning(s.launches[k].pc);
      if c.run.Some? && c.run.value != k { assert s'.launches[c.run.value] == s.launches[c.run.value]; }
    } else if c.run.Some? {
      assert c.run.value != k && s'.launches[c.run.value] == s.launches[c.run.value];
    }
  }

  lemma LaunchStaysCareful(s: State, k: LaunchId, s': State)
    requires Inv(s) && Tables(s) && Tables(s') && Steppable(s, k, s') && Marked(s, k, s') && Careful(s)
    ensures Careful(s')
  {
    hide Inv, Tables, Marked, Unencumbered, Readying;
    TablesMean(s);
    TablesMean(s');
    forall m | m in s'.launches && Readying(s'.launches[m]) ensures Unencumbered(s', s'.launches[m].controller) {
      assert m in s.launches.Keys;
      if m == k {
        MoverStaysCareful(s, k, s');
      } else {
        assert s'.launches[m] == s.launches[m];
        OtherStaysCareful(s, k, s', m);
      }
    }
  }

  lemma StopPhases(s: State, t: StopId, a: Answer, s': State)
    requires StopStep(s, t, a, s')
    ensures KnownStop(s, t) && s.stops[t].controller in s'.controllers && s'.registry == s.registry
    ensures var c, d := s.controllers[s.stops[t].controller], s'.controllers[s.stops[t].controller];
            d.phase == c.phase || (d.phase.Stopping? && !c.phase.Terminal())
  {
    hide StopCallGoes, StopCallReturns, EnterStop, LeaveStop;
    if next :| StopCallGoes(s, t, a, next, s') {
      GoingPhases(s, t, a, next, s');
    } else if ok :| StopCallReturns(s, t, a, ok, s') {
      ReturningPhases(s, t, a, ok, s');
    } else {
      LockPhases(s, t, s');
    }
  }

  lemma LockPhases(s: State, t: StopId, s': State)
    requires EnterStop(s, t, s') || LeaveStop(s, t, s')
    ensures KnownStop(s, t) && s.stops[t].controller in s'.controllers
    ensures s'.registry == s.registry && s'.controllers[s.stops[t].controller].phase == s.controllers[s.stops[t].controller].phase
  {
  }

  lemma GoingPhases(s: State, t: StopId, a: Answer, next: StopPc, s': State)
    requires StopCallGoes(s, t, a, next, s')
    ensures KnownStop(s, t) && s.stops[t].controller in s'.controllers
    ensures var c, d := s.controllers[s.stops[t].controller], s'.controllers[s.stops[t].controller];
            s'.registry == s.registry && (d.phase == c.phase || (d.phase.Stopping? && !c.phase.Terminal()))
  {
  }

  lemma ReturningPhases(s: State, t: StopId, a: Answer, ok: bool, s': State)
    requires StopCallReturns(s, t, a, ok, s')
    ensures KnownStop(s, t) && s.stops[t].controller in s'.controllers
    ensures var c, d := s.controllers[s.stops[t].controller], s'.controllers[s.stops[t].controller];
            s'.registry == s.registry && d.phase == c.phase
  {
  }

  /** A Stop call leaves launches, runs and the registry alone, and a state in flight in flight. */
  predicate StopsOnly(s: State, s': State) {
    && s'.launches == s.launches && s'.registry == s.registry && s'.controllers.Keys == s.controllers.Keys
    && forall c :: c in s.controllers ==>
         && s'.controllers[c].run == s.controllers[c].run && SameAttribution(s.controllers[c], s'.controllers[c])
         && s'.controllers[c].phase.InFlight() == s.controllers[c].phase.InFlight()
  }

  lemma StopStopsOnly(s: State, t: StopId, a: Answer, s': State)
    requires Inv(s) && Backed(s) && StopStep(s, t, a, s')
    ensures StopsOnly(s, s')
  {
    hide Inv, Backed, StopStep;
    StopFlows(s, t, a, s');
    StopPhases(s, t, a, s');
    GroundedIn(s, s.stops[t].controller);
  }

  lemma StopStaysCareful(s: State, s': State)
    requires Tables(s) && Tables(s') && StopsOnly(s, s') && Careful(s)
    ensures Careful(s')
  {
    hide Readying;
  }

  lemma GrowsStaysCareful(s: State, s': State)
    requires Inv(s) && Tables(s) && Tables(s') && Grows(s, s') && Careful(s)
    ensures Careful(s')
  {
    hide Inv;
    forall m | m in s'.launches && Readying(s'.launches[m]) ensures Unencumbered(s', s'.launches[m].controller) {
      assert m in s.launches && s'.launches[m] == s.launches[m];
      var id := s.launches[m].controller;
      GroundedIn(s, id);
      if s.controllers[id].run.Some? { GrowsLaunch(s, s', s.controllers[id].run.value); }
    }
  }

  ghost predicate Whole(s: State) { Inv(s) && Backed(s) && Careful(s) }

  lemma NextKeepsWhole(s: State, s': State)
    requires Whole(s) && Next(s, s')
    ensures Whole(s')
  {
    hide Inv, Backed, Tables, Careful, Steppable, Flowing, Marked, StopsOnly, Grows, LaunchStep, StopStep, CleanupStep, CallStep,
         EnvironmentStep;
    NextKeepsBacked(s, s');
    TablesOf(s);
    TablesOf(s');
    if l, a :| LaunchStep(s, l, a, s') {
      SteppableIn(s, l, a, s');
      LaunchStaysCareful(s, l, s');
    } else if t, a :| StopStep(s, t, a, s') {
      StopStopsOnly(s, t, a, s');
      StopStaysCareful(s, s');
    } else {
      NextGrows(s, s');
      GrowsStaysCareful(s, s');
    }
  }

  /** The steps that move no launch and no stop. */
  lemma NextGrows(s: State, s': State)
    requires Next(s, s') && !(exists l, a :: LaunchStep(s, l, a, s')) && !(exists t, a :: StopStep(s, t, a, s'))
    ensures Grows(s, s')
  {
    hide Grows, LaunchStep, StopStep, CleanupStep, CallStep, EnvironmentStep;
    if k :| CleanupStep(s, k, s') {
      CleanupGrows(s, k, s');
    } else if CallStep(s, s') {
      CallGrows(s, s');
    } else {
      EnvironmentGrows(s, s');
    }
  }

  lemma InitialIsCareful(max: nat, durable: map<InstanceId, Record>)
    ensures Careful(Initial(max, durable))
  {
  }

  /** Every state of every run. */
  lemma {:induction false} RunIsWhole(states: seq<State>, i: nat)
    requires Run(states) && i < |states|
    ensures Whole(states[i])
  {
    hide Inv, Backed, Careful, Next;
    if i == 0 {
      var max: nat, durable :| states[0] == Initial(max, durable);
      InitialInv(max, durable);
      InitialIsBacked(max, durable);
      InitialIsCareful(max, durable);
    } else {
      RunIsWhole(states, i - 1);
      assert Next(states[i - 1], states[i - 1 + 1]);
      NextKeepsWhole(states[i - 1], states[i]);
    }
  }

  /* ---- whether a live process is seen never changes ---- */

  /** Another launch of the controller of a live process. */
  predicate Beside(s: State, k: LaunchId, l: LaunchId) {
    Known(s, k) && Lives(s, l) && k != l && s.launches[k].controller == s.launches[l].controller
  }

  /** What it cannot be doing. */
  lemma BesideIsQuiet(s: State, k: LaunchId, l: LaunchId)
    requires Inv(s) && Beside(s, k, l)
    ensures var launch := s.launches[k]; var c := Before(s, k);
            && c.process == Some(l) && c.born && !c.preSpawnToken && !launch.process.Alive?
            && !launch.pc.AbortFail? && !launch.pc.AbortForget? && !(!launch.restart && (launch.pc.Commit? || Arbitrating(launch.pc)))
            && (AfterCommit(launch.pc) && !launch.pc.PersistStarting? ==> c.run == Some(k))
            && (launch.pc.FailUnspawned? || launch.pc.Forget? ==> c.run != Some(l))
  {
    hide Inv;
    OwnIn(s, k);
    OwnIn(s, l);
    GroundedIn(s, s.launches[l].controller);
  }

  /** A restart about to commit beside a live process finds a state that is not that process's. */
  lemma CommitsUnseen(s: State, k: LaunchId, l: LaunchId)
    requires Inv(s) && Tables(s) && Careful(s) && Beside(s, k, l) && s.launches[k].pc.Commit?
    ensures !Seen(s, l)
  {
    hide Inv;
    BesideIsQuiet(s, k, l);
    OwnIn(s, k);
    OwnIn(s, l);
    assert Readying(s.launches[k]) && Unencumbered(s, s.launches[k].controller);
  }

  ghost predicate SameElsewhere(s: State, s': State, k: LaunchId, l: LaunchId) {
    && Lives(s, l) && Lives(s', l) && s'.launches[l].controller == s.launches[l].controller
    && forall m :: m != k && m != l ==> (m in s'.launches <==> m in s.launches) && (m in s'.launches ==> s'.launches[m] == s.launches[m])
  }

  lemma OthersAreSame(s: State, s': State, k: LaunchId, l: LaunchId)
    requires Steppable(s, k, s') && Lives(s, l) && Lives(s', l)
    ensures SameElsewhere(s, s', k, l)
  {
    forall m ensures m in s'.launches <==> m in s.launches { assert m in s'.launches.Keys <==> m in s.launches.Keys; }
  }

  /** A step of launch k, with what it does to the registry. */
  predicate Tracked(s: State, k: LaunchId, s': State)
    requires Tables(s)
  {
    Steppable(s, k, s') && Marked(s, k, s') && Leaves(s, s', k)
  }

  lemma TrackedIn(s: State, k: LaunchId, a: Answer, s': State)
    requires Inv(s) && Backed(s) && LaunchStep(s, k, a, s')
    ensures Tables(s) && Tracked(s, k, s')
  {
    hide Inv, Backed, LaunchStep, Marked, Steppable, Leaves, Flow, Locks, KeepsHolder;
    SteppableIn(s, k, a, s');
  }

  /** A step of another launch of the controller. */
  lemma BesideStaysSeen(s: State, k: LaunchId, s': State, l: LaunchId)
    requires Inv(s) && Tables(s) && Careful(s) && Tracked(s, k, s') && Beside(s, k, l) && Lives(s', l) && Seen(s, l)
    ensures Seen(s', l)
  {
    hide Inv, Tables, Careful;
    BesideIsQuiet(s, k, l);
    if s.launches[k].pc.Commit? { CommitsUnseen(s, k, l); }
    OthersAreSame(s, s', k, l);
    assert !Loose(s'.launches[k]);
    assert After(s, s', k).run == Some(l) && After(s, s', k).phase.InFlight();
    assert Enrolled(s', s.launches[l].controller);
  }

  lemma BesideWasSeen(s: State, k: LaunchId, s': State, l: LaunchId)
    requires Inv(s) && Tables(s) && Tracked(s, k, s') && Beside(s, k, l) && Lives(s', l) && Seen(s', l)
    ensures Seen(s, l)
  {
    hide Inv, Tables;
    BesideIsQuiet(s, k, l);
    OthersAreSame(s, s', k, l);
    var id := s.launches[l].controller;
    var c := s.controllers[id];
    forall m | m in s.launches && m != k && m != l ensures m in s'.launches && s'.launches[m] == s.launches[m] { }
    assert Enrolled(s, id);
    assert c.run == Some(l);
    assert c.phase.InFlight();
  }

  /** A step of the launch itself. */
  lemma SelfStaysSeen(s: State, l: LaunchId, s': State)
    requires Inv(s) && Tables(s) && Tracked(s, l, s') && Lives(s, l) && Lives(s', l)
    ensures Seen(s', l) == Seen(s, l)
  {
    hide Inv, Tables;
    OwnIn(s, l);
    GroundedIn(s, s.launches[l].controller);
    OthersAreSame(s, s', l, l);
    var id := s.launches[l].controller;
    assert Enrolled(s', id) == Enrolled(s, id);
    assert After(s, s', l).run == Before(s, l).run && After(s, s', l).phase.InFlight() == Before(s, l).phase.InFlight();
    forall m | m != l ensures m in s'.launches <==> m in s.launches { }
    if Seen(s', l) {
      forall m | m in s.launches && m != l && s.launches[m].controller == id ensures !Loose(s.launches[m]) { assert s'.launches[m] == s.launches[m]; }
    }
  }

  /** A step elsewhere. */
  lemma ApartStaysSeen(s: State, k: LaunchId, s': State, l: LaunchId)
    requires Inv(s) && Tables(s) && Tracked(s, k, s') && Lives(s, l) && Lives(s', l) && s.launches[k].controller != s.launches[l].controller
    ensures Seen(s', l) == Seen(s, l)
  {
    hide Inv, Marks;
    OthersAreSame(s, s', k, l);
    var id := s.launches[l].controller;
    assert s'.controllers[id] == s.controllers[id] && s'.launches[l] == s.launches[l];
    assert Enrolled(s', id) == Enrolled(s, id);
    forall m | m != l && m != k ensures m in s'.launches <==> m in s.launches { }
    if Seen(s', l) {
      forall m | m in s.launches && m != l && s.launches[m].controller == id ensures !Loose(s.launches[m]) { assert s'.launches[m] == s.launches[m]; }
    }
  }

  lemma LaunchStaysSeen(s: State, k: LaunchId, a: Answer, s': State, l: LaunchId)
    requires Whole(s) && LaunchStep(s, k, a, s') && Lives(s, l) && Lives(s', l)
    ensures Seen(s', l) == Seen(s, l)
  {
    hide Inv, Backed, Careful, Tables, LaunchStep, Seen, Marked;
    TrackedIn(s, k, a, s');
    if k == l {
      SelfStaysSeen(s, l, s');
    } else if s.launches[k].controller != s.launches[l].controller {
      ApartStaysSeen(s, k, s', l);
    } else {
      if Seen(s, l) { BesideStaysSeen(s, k, s', l); }
      if Seen(s', l) { BesideWasSeen(s, k, s', l); }
    }
  }

  lemma StopStaysSeen(s: State, s': State, l: LaunchId)
    requires StopsOnly(s, s') && Lives(s, l) && Lives(s', l)
    ensures Seen(s', l) == Seen(s, l)
  {
  }

  /** Cleanup leaves the controller of a live process in the registry, whatever it had collected. */
  lemma CleanupKeepsEnrolled(s: State, k: CleanerId, s': State, l: LaunchId)
    requires Inv(s) && CleanupStep(s, k, s') && Lives(s, l)
    ensures var id := s.launches[l].controller; id in s'.controllers && Enrolled(s', id) == Enrolled(s, id)
  {
    hide Inv, StartCleanup, ListDurable, CollectCandidates, RemoveCandidate;
    OwnIn(s, l);
    if pick :| RemoveCandidate(s, k, pick, s') {
      RemovalSparesLive(s, k, pick, s', s.launches[l].controller);
    } else {
      OnlyCleans(s, k, s');
    }
  }

  lemma RemovalSparesLive(s: State, k: CleanerId, pick: (InstanceId, ControllerId), s': State, id: ControllerId)
    requires RemoveCandidate(s, k, pick, s') && id in s.controllers && s.controllers[id].process.Some?
    ensures id in s'.controllers && Enrolled(s', id) == Enrolled(s, id)
  {
  }

  lemma OthersKeepEnrolled(s: State, s': State, l: LaunchId)
    requires Inv(s) && (CallStep(s, s') || EnvironmentStep(s, s')) && Lives(s, l)
    ensures var id := s.launches[l].controller; id in s'.controllers && Enrolled(s', id) == Enrolled(s, id)
  {
    hide Inv, CallStep, EnvironmentStep;
    if CallStep(s, s') { CallKeepsRegistry(s, s'); CallGrows(s, s'); } else { EnvironmentKeepsRegistry(s, s'); EnvironmentGrows(s, s'); }
  }

  lemma CallKeepsRegistry(s: State, s': State)
    requires CallStep(s, s')
    ensures s'.registry == s.registry
  {
    hide Admit, Restart, StopCalled;
    if l, id, c :| Admit(s, l, id, c, s') {
      AdmitKeepsRegistry(s, l, id, c, s');
    } else if l, id :| Restart(s, l, id, s') {
      RestartKeepsRegistry(s, l, id, s');
    } else {
      var t, id :| StopCalled(s, t, id, s');
      StopCalledOnly(s, t, id, s');
    }
  }

  lemma AdmitKeepsRegistry(s: State, l: LaunchId, id: ControllerId, c: Controller, s': State)
    requires Admit(s, l, id, c, s')
    ensures s'.registry == s.registry
  {
  }

  lemma RestartKeepsRegistry(s: State, l: LaunchId, id: InstanceId, s': State)
    requires Restart(s, l, id, s')
    ensures s'.registry == s.registry
  {
  }

  lemma EnvironmentKeepsRegistry(s: State, s': State)
    requires EnvironmentStep(s, s')
    ensures s'.registry == s.registry
  {
    hide EnvironmentStep;
    if !BeginDrain(s, s') && !CancelLifecycle(s, s') { OthersRecordsChange(s, s'); }
  }

  lemma GrowsStaysSeen(s: State, s': State, l: LaunchId)
    requires Grows(s, s') && Lives(s, l) && Lives(s', l)
    requires Enrolled(s', s.launches[l].controller) == Enrolled(s, s.launches[l].controller)
    requires forall m :: m in s'.launches && m !in s.launches ==> s'.launches[m].waiter.NoWaiter?
    ensures Seen(s', l) == Seen(s, l)
  {
    var id := s.launches[l].controller;
    if Seen(s', l) {
      forall m | m in s.launches && m != l && s.launches[m].controller == id ensures !Loose(s.launches[m]) { GrowsLaunch(s, s', m); }
    }
  }

  lemma NewcomersDoNotWait(s: State, s': State, m: LaunchId)
    requires Inv(s') && Grows(s, s') && m in s'.launches && m !in s.launches
    ensures s'.launches[m].waiter.NoWaiter?
  {
    hide Inv;
    OwnIn(s', m);
  }

  /** One step: whether a process that lives through it is seen stays as it is. */
  lemma NextStaysSeen(s: State, s': State, l: LaunchId)
    requires Whole(s) && Next(s, s') && Lives(s, l) && Lives(s', l)
    ensures Seen(s', l) == Seen(s, l)
  {
    hide Inv, Backed, Careful, Seen, Enrolled, StopsOnly, Grows, LaunchStep, StopStep, CleanupStep, CallStep, EnvironmentStep;
    NextKeepsBacked(s, s');
    if k, a :| LaunchStep(s, k, a, s') {
      LaunchStaysSeen(s, k, a, s', l);
    } else if t, a :| StopStep(s, t, a, s') {
      StopStopsOnly(s, t, a, s');
      StopStaysSeen(s, s', l);
    } else {
      NextGrows(s, s');
      if k :| CleanupStep(s, k, s') { CleanupKeepsEnrolled(s, k, s', l); } else { OthersKeepEnrolled(s, s', l); }
      forall m | m in s'.launches && m !in s.launches ensures s'.launches[m].waiter.NoWaiter? { NewcomersDoNotWait(s, s', m); }
      GrowsStaysSeen(s, s', l);
    }
  }

  lemma LaunchKept(s: State, k: LaunchId, s': State, l: LaunchId)
    requires Steppable(s, k, s') && l in s.launches && l != k
    ensures l in s'.launches && s'.launches[l] == s.launches[l]
  {
  }

  /** Before its process was started a launch had started none. */
  lemma LivedBefore(s: State, s': State, l: LaunchId)
    requires Whole(s) && Next(s, s') && Lives(s', l) && !Lives(s, l)
    ensures l !in s.launches || s.launches[l].spawns == 0
  {
    hide Inv, Backed, Careful, LaunchStep, StopStep, CleanupStep, CallStep, EnvironmentStep;
    NextKeepsBacked(s, s');
    OwnIn(s', l);
    if l in s.launches {
      OwnIn(s, l);
      if k, a :| LaunchStep(s, k, a, s') {
        TrackedIn(s, k, a, s');
        if k != l { LaunchKept(s, k, s', l); }
      } else if t, a :| StopStep(s, t, a, s') {
        StopStopsOnly(s, t, a, s');
      } else {
        NextGrows(s, s');
        GrowsLaunch(s, s', l);
      }
    }
  }

  /* ---- two processes that should not be alive together ---- */

  /** l and m are alive on two controllers of one model that are not two entries of one pipeline, and m's is registered. */
  predicate Colliding(s: State, l: LaunchId, m: LaunchId) {
    && Lives(s, l) && Lives(s, m) && s.launches[l].controller != s.launches[m].controller
    && Before(s, l).modelId == Before(s, m).modelId && !Siblings(Before(s, l), Before(s, m)) && Enrolled(s, s.launches[m].controller)
  }

  /** Both seen: they are compatible. */
  lemma SeenDoNotCollide(s: State, l: LaunchId, m: LaunchId)
    requires Inv(s) && Lives(s, l) && Seen(s, l) && Known(s, m) && Enrolled(s, s.launches[m].controller) && Before(s, m).phase.InFlight()
    requires s.launches[l].controller != s.launches[m].controller && Before(s, l).modelId == Before(s, m).modelId
    ensures Siblings(Before(s, l), Before(s, m))
  {
    hide LaunchesOk, ControllersOk, StopsOk, OperationsOk, ArbitrationOk, ScanOk, RestartsOk, CountsOk, DurableOk;
    assert s.registry[Before(s, l).instanceId] != s.registry[Before(s, m).instanceId];
  }

  /** What a step leaves of the two controllers, and who can enter the registry. */
  predicate Steady(s: State, s': State, l: LaunchId)
    requires Known(s, l)
  {
    && l in s'.launches && s'.launches[l].controller == s.launches[l].controller && s.launches[l].controller in s'.controllers
    && SameAttribution(s.controllers[s.launches[l].controller], s'.controllers[s.launches[l].controller])
    && (Lives(s, l) && Enrolled(s', s.launches[l].controller) ==> Enrolled(s, s.launches[l].controller))
    && (!Lives(s, l) && Lives(s', l) ==> s'.controllers[s.launches[l].controller].phase.InFlight())
  }

  lemma LaunchIsSteady(s: State, k: LaunchId, s': State, l: LaunchId)
    requires Inv(s) && Tables(s) && Tracked(s, k, s') && Known(s, l)
    ensures Steady(s, s', l)
  {
    hide Inv, Tables;
    OwnIn(s, k);
    OwnIn(s, l);
    GroundedIn(s, s.launches[l].controller);
    if k != l { assert s'.launches[l] == s.launches[l]; }
    if s.launches[k].controller != s.launches[l].controller { assert s'.controllers[s.launches[l].controller] == s.controllers[s.launches[l].controller]; }
  }

  lemma NextIsSteady(s: State, s': State, l: LaunchId)
    requires Whole(s) && Next(s, s') && Known(s, l)
    ensures Steady(s, s', l)
  {
    hide Inv, Backed, Careful, LaunchStep, StopStep, CleanupStep, CallStep, EnvironmentStep, Tracked;
    if k, a :| LaunchStep(s, k, a, s') {
      TrackedIn(s, k, a, s');
      LaunchIsSteady(s, k, s', l);
    } else if t, a :| StopStep(s, t, a, s') {
      StopStopsOnly(s, t, a, s');
    } else {
      NextGrows(s, s');
      GrowsLaunch(s, s', l);
    }
  }

  /** While l is seen, a step makes no process collide with it. */
  lemma NoNewCollision(s: State, s': State, l: LaunchId, m: LaunchId)
    requires Whole(s) && Next(s, s') && Lives(s, l) && Seen(s, l) && Colliding(s', l, m)
    ensures Colliding(s, l, m)
  {
    hide Inv, Backed, Careful, Next, Seen, Siblings;
    NextKeepsWhole(s, s');
    NextStaysSeen(s, s', l);
    NextIsSteady(s, s', l);
    if Known(s, m) {
      NextIsSteady(s, s', m);
      if !Lives(s, m) { SeenDoNotCollide(s', l, m); }
      hide Enrolled;
      SameSiblings(Before(s, l), Before(s, m), Before(s', l), Before(s', m));
    } else {
      NewcomersAreNotAlive(s, s', m);
    }
  }

  lemma SameSiblings(c: Controller, d: Controller, c': Controller, d': Controller)
    requires SameAttribution(c, c') && SameAttribution(d, d')
    ensures Siblings(c', d') == Siblings(c, d)
  {
  }

  lemma NewcomersAreNotAlive(s: State, s': State, m: LaunchId)
    requires Whole(s) && Next(s, s') && !Known(s, m) && m in s'.launches
    ensures !Lives(s', m)
  {
    hide Inv, Backed, Careful, Next;
    TablesOf(s);
    TablesMean(s);
    NextKeepsBacked(s, s');
    OwnIn(s', m);
    SpawnedNothing(s, s', m);
  }

  lemma SpawnedNothing(s: State, s': State, m: LaunchId)
    requires Inv(s) && Next(s, s') && m !in s.launches && m in s'.launches
    ensures s'.launches[m].spawns == 0
  {
    hide Inv, Next;
    NextKeeps(s, s');
  }

  /* ---- runs ---- */

  lemma StepOf(states: seq<State>, i: nat)
    requires Run(states) && i + 1 < |states|
    ensures Next(states[i], states[i + 1])
  {
    hide Next;
  }

  /** A launch keeps its controller, which keeps its attribution, and never takes a process back. */
  lemma {:induction false} SteadyAlong(states: seq<State>, i: nat, j: nat, l: LaunchId)
    requires Run(states) && i <= j < |states| && Known(states[i], l)
    ensures Known(states[j], l) && states[j].launches[l].controller == states[i].launches[l].controller
    ensures SameAttribution(Before(states[i], l), Before(states[j], l)) && states[j].launches[l].spawns >= states[i].launches[l].spawns
    decreases j
  {
    hide Run, Next, Whole, Forward;
    if i < j {
      SteadyAlong(states, i, j - 1, l);
      RunIsWhole(states, j - 1);
      StepOf(states, j - 1);
      NextIsSteady(states[j - 1], states[j], l);
      StepForward(states, j - 1);
      SpawnsRemain(states[j - 1], states[j], l);
    }
  }

  lemma SpawnsRemain(s: State, s': State, l: LaunchId)
    requires Forward(s, s') && l in s.launches
    ensures l in s'.launches && s'.launches[l].spawns >= s.launches[l].spawns
  {
  }

  lemma SpawnedOnce(states: seq<State>, i: nat, l: LaunchId)
    requires Run(states) && i < |states| && Lives(states[i], l)
    ensures states[i].launches[l].spawns == 1
  {
    hide Run, Inv;
    RunInv(states, i);
    OwnIn(states[i], l);
  }

  /** A process that is alive twice is alive in between. */
  lemma LivesBetween(states: seq<State>, i: nat, j: nat, l: LaunchId)
    requires Run(states) && i < j < |states| && Lives(states[i], l) && Lives(states[j], l)
    ensures Lives(states[j - 1], l)
  {
    hide Run, Next, Whole;
    SpawnedOnce(states, i, l);
    SteadyAlong(states, i, j - 1, l);
    RunIsWhole(states, j - 1);
    StepOf(states, j - 1);
    if !Lives(states[j - 1], l) { LivedBefore(states[j - 1], states[j], l); }
  }

  /** Whether a live process is seen is settled when it is started, and stays as it is while it lives. */
  lemma {:induction false} SeenForLife(states: seq<State>, i: nat, j: nat, l: LaunchId)
    requires Run(states) && i <= j < |states| && Lives(states[i], l) && Lives(states[j], l)
    ensures Seen(states[j], l) == Seen(states[i], l)
    decreases j
  {
    hide Run, Next, Whole, Seen;
    if i < j {
      LivesBetween(states, i, j, l);
      SeenForLife(states, i, j - 1, l);
      RunIsWhole(states, j - 1);
      StepOf(states, j - 1);
      NextStaysSeen(states[j - 1], states[j], l);
    }
  }

  /** Nothing ever collides with a process that is seen and collides with nothing. */
  lemma {:induction false} NoCollisionAhead(states: seq<State>, i: nat, j: nat, l: LaunchId, m: LaunchId)
    requires Run(states) && i <= j < |states| && Lives(states[i], l) && Seen(states[i], l) && Colliding(states[j], l, m)
    ensures Colliding(states[i], l, m)
    decreases j
  {
    hide Run, Next, Whole, Seen;
    if i < j {
      LivesBetween(states, i, j, l);
      SeenForLife(states, i, j - 1, l);
      RunIsWhole(states, j - 1);
      StepOf(states, j - 1);
      NoNewCollision(states[j - 1], states[j], l, m);
      NoCollisionAhead(states, i, j - 1, l, m);
    }
  }

  lemma {:induction false} LimitStays(states: seq<State>, i: nat, j: nat)
    requires Run(states) && i <= j < |states|
    ensures states[j].maxConcurrent == states[i].maxConcurrent
    decreases j
  {
    hide Run, Next;
    if i < j {
      LimitStays(states, i, j - 1);
      StepForward(states, j - 1);
    }
  }

  /** Two processes are alive together only if the limit allows them. */
  lemma TwoNeedTwoSlots(states: seq<State>, i: nat, l: LaunchId, m: LaunchId)
    requires Run(states) && i < |states| && Lives(states[i], l) && Lives(states[i], m) && l != m
    ensures states[i].maxConcurrent != 1
  {
    hide Run;
    SlotsAreConserved(states, i);
    Smaller({l, m}, Living(states[i]));
  }

  /** Of two live processes that collide, with both controllers registered, one is unseen. */
  lemma CollisionsAreUnseen(states: seq<State>, i: nat, l: LaunchId, m: LaunchId)
    requires Run(states) && i < |states| && Colliding(states[i], l, m)
    ensures !Seen(states[i], l) || !Seen(states[i], m)
  {
    hide Run, Inv;
    RunInv(states, i);
    if Seen(states[i], l) && Seen(states[i], m) { SeenDoNotCollide(states[i], l, m); }
  }

  /** A process that has just been started stands before its running record. */
  lemma JustStarted(s: State, s': State, l: LaunchId)
    requires Whole(s) && Next(s, s') && Lives(s', l) && !Lives(s, l)
    ensures Deciding(s'.launches[l].pc)
  {
    hide Inv, Backed, Careful, LaunchStep, StopStep, CleanupStep, CallStep, EnvironmentStep;
    NextKeepsBacked(s, s');
    OwnIn(s', l);
    if l !in s.launches { SpawnedNothing(s, s', l); }
    OwnIn(s, l);
    if k, a :| LaunchStep(s, k, a, s') {
      TrackedIn(s, k, a, s');
      if k != l { LaunchKept(s, k, s', l); }
    } else if t, a :| StopStep(s, t, a, s') {
      StopStopsOnly(s, t, a, s');
    } else {
      NextGrows(s, s');
      GrowsLaunch(s, s', l);
    }
  }

  /** What settles it: at its start a process is seen exactly when its controller is registered and no other launch of the
  controller has a wait() that has still to see its exit. */
  lemma StartDecides(states: seq<State>, i: nat, l: LaunchId)
    requires Run(states) && i + 1 < |states| && Lives(states[i + 1], l) && !Lives(states[i], l)
    ensures var s := states[i + 1]; var id := s.launches[l].controller;
            Seen(s, l) <==> Enrolled(s, id) && forall k :: k in s.launches && k != l && s.launches[k].controller == id ==> !s.launches[k].waiter.Waiting?
  {
    hide Run, Next, Inv, Backed, Careful, Enrolled;
    RunIsWhole(states, i);
    StepOf(states, i);
    JustStarted(states[i], states[i + 1], l);
    RunIsWhole(states, i + 1);
    var s := states[i + 1];
    OwnIn(s, l);
    forall k | k in s.launches && k != l && s.launches[k].controller == s.launches[l].controller ensures !s.launches[k].pc.PersistStarting? { OwnIn(s, k); }
  }
}
