/** Every run of the launch supervisor stays inside the invariant. */
module LaunchRuns {
  import opened LaunchState
  import opened LaunchSteps
  import opened LaunchInvariant
  import opened LaunchFrames
  import opened LaunchKeeps
  import opened LaunchArbitration
  import opened LaunchStops
  import opened LaunchCalls

  /** The operation can only be set when it is nil and cleared by its exact id, so the claim still stands at commit C. */
  lemma ClaimIsNeverRejected(s: State, l: LaunchId, s': State)
    requires Inv(s)
    ensures !ClaimRejected(s, l, s')
  {
    if Known(s, l) && s.launches[l].pc.Commit? {
      assert ClaimOk(l, s.launches[l], Before(s, l)) by { assert LaunchOk(l, s.launches[l], Before(s, l), s.maxConcurrent); }
    }
  }

  lemma ArbitrationStepKeeps(s: State, l: LaunchId, a: Answer, s': State)
    requires Inv(s) && ArbitrationStep(s, l, a, s')
    ensures Inv(s') && Forward(s, s')
  {
    hide Inv, AcquireArbitration, Reject, CheckTarget, Examine, Pass;
    if AcquireArbitration(s, l, s') {
      AcquireKeeps(s, l, s');
    } else if Reject(s, l, a, s') {
      RejectKeeps(s, l, a, s');
    } else if CheckTarget(s, l, s') {
      CheckTargetKeeps(s, l, s');
    } else if Examine(s, l, a, s') {
      ExamineKeeps(s, l, a, s');
    } else {
      PassKeeps(s, l, a, s');
    }
  }

  lemma PrepareStepKeeps(s: State, l: LaunchId, a: Answer, s': State)
    requires Inv(s) && PrepareStep(s, l, a, s')
    ensures Inv(s') && Forward(s, s')
  {
    hide Inv, EnterLifecycle, RevalidateOperation, AwaitPrevious, TakeSlot, GiveUpSlot, CreateRecord;
    if EnterLifecycle(s, l, s') {
      EnterLifecycleKeeps(s, l, s');
    } else if RevalidateOperation(s, l, s') {
      RevalidateOperationKeeps(s, l, s');
    } else if AwaitPrevious(s, l, a, s') {
      AwaitPreviousKeeps(s, l, a, s');
    } else if TakeSlot(s, l, s') {
      TakeSlotKeeps(s, l, s');
    } else if GiveUpSlot(s, l, s') {
      GiveUpSlotKeeps(s, l, s');
    } else {
      CreateRecordKeeps(s, l, a, s');
    }
  }

  lemma StartStepKeeps(s: State, l: LaunchId, a: Answer, s': State)
    requires Inv(s) && StartStep(s, l, a, s')
    ensures Inv(s') && Forward(s, s')
  {
    hide Inv, CommitSpawn, CommitAfterDrain, ClaimRejected, PersistStartingState, SpawnProcess, SpawnFails, PersistFailure,
         PersistRunningState, PersistRunningFails;
    ClaimIsNeverRejected(s, l, s');
    if CommitSpawn(s, l, s') {
      CommitSpawnKeeps(s, l, s');
    } else if CommitAfterDrain(s, l, s') {
      CommitAfterDrainKeeps(s, l, s');
    } else if PersistStartingState(s, l, a, s') {
      PersistStartingStateKeeps(s, l, a, s');
    } else if SpawnProcess(s, l, s') {
      SpawnProcessKeeps(s, l, s');
    } else if SpawnFails(s, l, s') {
      SpawnFailsKeeps(s, l, s');
    } else if PersistFailure(s, l, a, s') {
      PersistFailureKeeps(s, l, a, s');
    } else if PersistRunningState(s, l, s') {
      PersistRunningStateKeeps(s, l, s');
    } else {
      PersistRunningFailsKeeps(s, l, a, s');
    }
  }

  lemma RollbackStepKeeps(s: State, l: LaunchId, a: Answer, s': State)
    requires Inv(s) && RollbackStep(s, l, a, s')
    ensures Inv(s') && Forward(s, s')
  {
    hide Inv, KillAccepted, RollbackConfirmed, RollbackUnconfirmed, PersistRollback, ReleaseRun, CompleteRun, ForgetRun;
    if KillAccepted(s, l, s') {
      KillAcceptedKeeps(s, l, s');
    } else if RollbackConfirmed(s, l, s') {
      RollbackConfirmedKeeps(s, l, s');
    } else if RollbackUnconfirmed(s, l, s') {
      RollbackUnconfirmedKeeps(s, l, s');
    } else if PersistRollback(s, l, a, s') {
      PersistRollbackKeeps(s, l, a, s');
    } else if ReleaseRun(s, l, s') {
      ReleaseRunKeeps(s, l, s');
    } else if CompleteRun(s, l, s') {
      CompleteRunKeeps(s, l, s');
    } else {
      ForgetRunKeeps(s, l, s');
    }
  }

  lemma AbortStepKeeps(s: State, l: LaunchId, a: Answer, s': State)
    requires Inv(s) && AbortStep(s, l, a, s')
    ensures Inv(s') && Forward(s, s')
  {
    hide Inv, ReleaseAborted, FailAborted, ForgetAborted, ReturnToken;
    if ReleaseAborted(s, l, s') {
      ReleaseAbortedKeeps(s, l, s');
    } else if FailAborted(s, l, a, s') {
      FailAbortedKeeps(s, l, a, s');
    } else if ForgetAborted(s, l, s') {
      ForgetAbortedKeeps(s, l, s');
    } else {
      ReturnTokenKeeps(s, l, s');
    }
  }

  lemma FinishStepKeeps(s: State, l: LaunchId, a: Answer, s': State)
    requires Inv(s) && FinishStep(s, l, a, s')
    ensures Inv(s') && Forward(s, s')
  {
    hide Inv, LeaveLifecycle, MarkUnspawned, StoreUnspawned, ForgetController, ReleaseOperation;
    if LeaveLifecycle(s, l, s') {
      LeaveLifecycleKeeps(s, l, s');
    } else if MarkUnspawned(s, l, s') {
      MarkUnspawnedKeeps(s, l, s');
    } else if StoreUnspawned(s, l, a, s') {
      StoreUnspawnedKeeps(s, l, a, s');
    } else if ForgetController(s, l, s') {
      ForgetControllerKeeps(s, l, s');
    } else {
      ReleaseOperationKeeps(s, l, s');
    }
  }

  lemma ProcessStepKeeps(s: State, l: LaunchId, a: Answer, s': State)
    requires Inv(s) && ProcessStep(s, l, a, s')
    ensures Inv(s') && Forward(s, s')
  {
    hide Inv, ProcessDies, ReapProcess, ObserveExit, PersistExit, NoteExitFailure, ReleaseExited, CompleteExited;
    if ProcessDies(s, l, s') {
      ProcessDiesKeeps(s, l, s');
    } else if ReapProcess(s, l, s') {
      ReapProcessKeeps(s, l, s');
    } else if ObserveExit(s, l, a, s') {
      ObserveExitKeeps(s, l, a, s');
    } else if PersistExit(s, l, a, s') {
      PersistExitKeeps(s, l, a, s');
    } else if NoteExitFailure(s, l, s') {
      NoteExitFailureKeeps(s, l, s');
    } else if ReleaseExited(s, l, s') {
      ReleaseExitedKeeps(s, l, s');
    } else {
      CompleteExitedKeeps(s, l, s');
    }
  }

  lemma StopOldStepKeeps(s: State, l: LaunchId, a: Answer, s': State)
    requires Inv(s) && StopOldStep(s, l, a, s')
    ensures Inv(s') && Forward(s, s')
  {
    hide Inv, StopOldRun, StopOldRunReturns;
    if next :| StopOldRun(s, l, a, next, s') {
      StopOldRunKeeps(s, l, a, next, s');
    } else {
      var ok :| StopOldRunReturns(s, l, a, ok, s');
      StopOldReturnsKeeps(s, l, a, ok, s');
    }
  }

  lemma LaunchStepKeeps(s: State, l: LaunchId, a: Answer, s': State)
    requires Inv(s) && LaunchStep(s, l, a, s')
    ensures Inv(s') && Forward(s, s')
  {
    hide Inv, ArbitrationStep, PublishClaim, PrepareStep, StartStep, RollbackStep, AbortStep, FinishStep, StopOldStep, ProcessStep;
    if ArbitrationStep(s, l, a, s') {
      ArbitrationStepKeeps(s, l, a, s');
    } else if PublishClaim(s, l, s') {
      PublishKeeps(s, l, s');
    } else if PrepareStep(s, l, a, s') {
      PrepareStepKeeps(s, l, a, s');
    } else if StartStep(s, l, a, s') {
      StartStepKeeps(s, l, a, s');
    } else if RollbackStep(s, l, a, s') {
      RollbackStepKeeps(s, l, a, s');
    } else if AbortStep(s, l, a, s') {
      AbortStepKeeps(s, l, a, s');
    } else if FinishStep(s, l, a, s') {
      FinishStepKeeps(s, l, a, s');
    } else if StopOldStep(s, l, a, s') {
      StopOldStepKeeps(s, l, a, s');
    } else {
      ProcessStepKeeps(s, l, a, s');
    }
  }

  lemma CallKeeps(s: State, s': State)
    requires Inv(s) && CallStep(s, s')
    ensures Inv(s') && Forward(s, s')
  {
    hide Inv, Admit, Restart, StopCalled;
    if l, id, c :| Admit(s, l, id, c, s') {
      AdmitKeeps(s, l, id, c, s');
    } else if l, id :| Restart(s, l, id, s') {
      RestartKeeps(s, l, id, s');
    } else {
      var t, id :| StopCalled(s, t, id, s');
      StopCalledKeeps(s, t, id, s');
    }
  }

  lemma NextKeeps(s: State, s': State)
    requires Inv(s) && Next(s, s')
    ensures Inv(s') && Forward(s, s')
  {
    hide Inv, LaunchStep, StopStep, CleanupStep, CallStep, EnvironmentStep;
    if l, a :| LaunchStep(s, l, a, s') {
      LaunchStepKeeps(s, l, a, s');
    } else if t, a :| StopStep(s, t, a, s') {
      StopCallKeeps(s, t, a, s');
    } else if k :| CleanupStep(s, k, s') {
      CleanupKeeps(s, k, s');
    } else if CallStep(s, s') {
      CallKeeps(s, s');
    } else {
      EnvironmentKeeps(s, s');
    }
  }

  lemma InitialInv(max: nat, durable: map<InstanceId, Record>)
    ensures Inv(Initial(max, durable))
  {
  }

  /** The invariant holds in every state of every run. */
  lemma {:induction false} RunInv(states: seq<State>, i: nat)
    requires Run(states) && i < |states|
    ensures Inv(states[i])
  {
    hide Inv, Next;
    if i == 0 {
      var max: nat, durable :| states[0] == Initial(max, durable);
      InitialInv(max, durable);
    } else {
      RunInv(states, i - 1);
      assert Next(states[i - 1], states[i - 1 + 1]);
      NextKeeps(states[i - 1], states[i]);
    }
  }
}
