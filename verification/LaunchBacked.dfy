/** Whatever blocks a call is held by a call that is still at work: the references from locks and in-flight states back to
their holders. */
module LaunchBacked {
  import opened Wrappers
  import opened LaunchState
  import opened LaunchSteps
  import opened LaunchInvariant
  import opened LaunchFrames
  import opened LaunchArbitration
  import opened LaunchCalls
  import opened LaunchRuns

  predicate StopHoldsMu(pc: StopCallPc) { pc.StopRun? && (pc.stop.ManagerStop? || pc.stop.PersistStopping?) }

  predicate StopHoldsLifecycle(pc: StopCallPc) { pc.StopRun? || pc.StopUnlock? }

  predicate MuHeld(s: State, id: ControllerId, h: Holder) {
    match h
    case LaunchHolder(l) => l in s.launches && s.launches[l].controller == id && HoldsMu(s.launches[l].pc)
    case StopHolder(t) => t in s.stops && s.stops[t].controller == id && StopHoldsMu(s.stops[t].pc)
  }

  predicate LifecycleHeld(s: State, id: ControllerId, h: Holder) {
    match h
    case LaunchHolder(l) => l in s.launches && s.launches[l].controller == id && HoldsLifecycle(s.launches[l])
    case StopHolder(t) => t in s.stops && s.stops[t].controller == id && StopHoldsLifecycle(s.stops[t].pc)
  }

  predicate HoldersOk(s: State, id: ControllerId)
    requires id in s.controllers
  {
    var c := s.controllers[id];
    (c.mu.Some? ==> MuHeld(s, id, c.mu.value)) && (c.lifecycleMu.Some? ==> LifecycleHeld(s, id, c.lifecycleMu.value))
  }

  predicate LockOk(s: State, m: ModelId)
    requires m in s.arbLocks
  {
    var l := s.arbLocks[m];
    Known(s, l) && Arbitrating(s.launches[l].pc) && s.controllers[s.launches[l].controller].modelId == m
  }

  /** The launch is on its way to a process, or has still to leave the registry. */
  predicate Starts(launch: Launch) {
    || (!launch.restart && (BeforeCommit(launch.pc) || Aborting(launch.pc)))
    || launch.pc.PersistStarting? || launch.pc.Spawn? || Deciding(launch.pc)
    || (launch.pc.RunRelease? && launch.pc.forget) || (launch.pc.RunComplete? && launch.pc.forget) || launch.pc.RunForget?
  }

  /** An in-flight state has a launch that is starting it or a wait() that will see its exit. */
  predicate FlightOk(s: State, id: ControllerId)
    requires id in s.controllers
  {
    var c := s.controllers[id];
    c.phase.InFlight() ==>
      || (c.active.Some? && c.active.value.claim in s.launches && Starts(s.launches[c.active.value.claim]))
      || (c.run.Some? && c.run.value in s.launches && Open(s.launches[c.run.value]))
  }

  predicate AbortedOk(s: State, l: LaunchId)
    requires Known(s, l)
  { s.launches[l].pc.AbortToken? ==> s.controllers[s.launches[l].controller].instanceId !in s.registry }

  predicate Backed(s: State)
    requires Tables(s)
  {
    && (forall m :: m in s.arbLocks ==> LockOk(s, m))
    && (forall c :: c in s.controllers ==> HoldersOk(s, c))
    && (forall id :: id in s.registry ==> FlightOk(s, s.registry[id]))
    && (forall l :: l in s.launches ==> AbortedOk(s, l))
  }

  /* ---- the step of one launch ---- */

  predicate KeepsHolder(l: LaunchId, before: Option<Holder>, after: Option<Holder>, holds: bool) {
    && (after.None? || after == before || after == Some(LaunchHolder(l)))
    && (after == Some(LaunchHolder(l)) ==> holds)
  }

  predicate Flow(l: LaunchId, launch: Launch, c: Controller, next: Launch, d: Controller) {
    d.phase.InFlight() ==>
      || (d.active.Some? && d.active.value.claim == l && Starts(next))
      || (d.run == Some(l) && Open(next))
      || (&& c.phase.InFlight() && d.run == c.run
          && (d.active == c.active || c.active.None? || (c.active.value.claim == l && !Starts(launch)))
          && (c.active.Some? && c.active.value.claim == l && Starts(launch) ==> d.active == c.active && Starts(next))
          && (c.run == Some(l) && Open(launch) ==> Open(next)))
  }

  predicate Locks(s: State, s': State, l: LaunchId)
    requires OnlyLaunch(s, s', l) && Known(s, l)
  {
    var m := Before(s, l).modelId;
    || (s'.arbLocks == s.arbLocks && (Arbitrating(s.launches[l].pc) ==> Arbitrating(s'.launches[l].pc)))
    || (s'.arbLocks == s.arbLocks[m := l] && Arbitrating(s'.launches[l].pc))
    || (s'.arbLocks == s.arbLocks - {m} && Arbitrating(s.launches[l].pc))
  }

  predicate Leaves(s: State, s': State, l: LaunchId)
    requires OnlyLaunch(s, s', l) && Known(s, l)
  {
    && (forall id :: id in s'.registry ==> (id in s.registry && s'.registry[id] == s.registry[id])
                                           || (s'.registry[id] == s.launches[l].controller && id == Before(s, l).instanceId
                                               && !s.launches[l].restart && Arbitrating(s.launches[l].pc)))
    && (s'.launches[l].pc.AbortToken? ==> Before(s, l).instanceId !in s'.registry)
  }

  predicate Flowing(s: State, s': State, l: LaunchId)
    requires Tables(s)
  {
    && l in s.launches && OnlyLaunch(s, s', l)
    && var launch := s.launches[l]; var next := s'.launches[l]; var c := Before(s, l); var d := After(s, s', l);
    && d.modelId == c.modelId && d.instanceId == c.instanceId
    && KeepsHolder(l, c.mu, d.mu, HoldsMu(next.pc))
    && KeepsHolder(l, c.lifecycleMu, d.lifecycleMu, HoldsLifecycle(next))
    && (Flow(l, launch, c, next, d) || c.instanceId !in s'.registry)
    && (c.instanceId in s'.registry && c.instanceId !in s.registry ==> d.active.Some? && d.active.value.claim == l && Starts(next))
    && Locks(s, s', l) && Leaves(s, s', l)
  }

  lemma FlowingKeepsHolders(s: State, s': State, l: LaunchId, id: ControllerId)
    requires Tables(s) && Tables(s') && Backed(s) && Flowing(s, s', l) && id in s'.controllers
    ensures HoldersOk(s', id)
  {
    hide LockOk, FlightOk, AbortedOk, Flow, Locks, Leaves, HoldsMu, HoldsLifecycle, StopHoldsMu, StopHoldsLifecycle;
    assert id in s.controllers && HoldersOk(s, id);
    assert s'.stops == s.stops;
    hide Tables, Backed;
  }

  lemma FlowingKeepsFlight(s: State, s': State, l: LaunchId, id: InstanceId)
    requires Inv(s) && Tables(s') && Backed(s) && Flowing(s, s', l) && id in s'.registry
    ensures FlightOk(s', s'.registry[id])
  {
    hide LaunchesOk, ControllersOk, StopsOk, OperationsOk, ArbitrationOk, ScanOk, Exclusive, RestartsOk, CountsOk, DurableOk, KeepsHolder, Locks, Starts;
    var k := s'.registry[id];
    ReferencesOf(s, k);
    if id in s.registry { assert s.registry[id] == k && FlightOk(s, k); }
    assert forall m :: m in s.launches && m != l ==> s'.launches[m] == s.launches[m];
    if k == s.launches[l].controller {
      assert Flow(l, s.launches[l], Before(s, l), s'.launches[l], After(s, s', l));
    } else {
      assert s'.controllers[k] == s.controllers[k];
    }
  }

  /** A controller's references lead to its own launches. */
  lemma ReferencesOf(s: State, k: ControllerId)
    requires Inv(s) && k in s.controllers
    ensures var c := s.controllers[k];
            && (c.active.Some? ==> c.active.value.claim in s.launches && s.launches[c.active.value.claim].controller == k)
            && (c.run.Some? ==> c.run.value in s.launches && s.launches[c.run.value].controller == k)
  {
    hide LaunchesOk, StopsOk, OperationsOk, ArbitrationOk, ScanOk, Exclusive, RestartsOk, CountsOk, DurableOk;
    assert ControllerOk(s, k);
  }

  lemma FlowingKeepsLocks(s: State, s': State, l: LaunchId, m: ModelId)
    requires Tables(s) && Tables(s') && Backed(s) && Flowing(s, s', l) && m in s'.arbLocks
    ensures LockOk(s', m)
  {
    hide HoldersOk, FlightOk, AbortedOk, Flow, KeepsHolder, Leaves;
    if m in s.arbLocks { assert LockOk(s, m); }
    if s'.arbLocks[m] != l { assert s'.launches[s'.arbLocks[m]] == s.launches[s'.arbLocks[m]]; }
  }

  /** The admission of a controller is the one launch of it that is no restart. */
  lemma OneAdmission(s: State, l: LaunchId, m: LaunchId)
    requires Inv(s) && l in s.launches && m in s.launches && s.launches[l].controller == s.launches[m].controller
    requires !s.launches[l].restart && !s.launches[m].restart
    ensures l == m
  {
    hide ControllersOk, StopsOk, OperationsOk, ArbitrationOk, ScanOk, Exclusive, RestartsOk, CountsOk, DurableOk;
    assert AdmissionOk(l, s.launches[l], Before(s, l)) by { assert LaunchOk(l, s.launches[l], Before(s, l), s.maxConcurrent); }
    assert AdmissionOk(m, s.launches[m], Before(s, m)) by { assert LaunchOk(m, s.launches[m], Before(s, m), s.maxConcurrent); }
  }

  lemma AbortingIsAdmission(s: State, l: LaunchId)
    requires Inv(s) && l in s.launches && s.launches[l].pc.AbortToken?
    ensures !s.launches[l].restart
  {
    assert AdmissionOk(l, s.launches[l], Before(s, l)) by { assert LaunchOk(l, s.launches[l], Before(s, l), s.maxConcurrent); }
  }

  lemma FlowingKeepsAborted(s: State, s': State, l: LaunchId, m: LaunchId)
    requires Inv(s) && Tables(s') && Backed(s) && Flowing(s, s', l) && m in s'.launches
    ensures AbortedOk(s', m)
  {
    hide Inv, HoldersOk, FlightOk, LockOk, Flow, KeepsHolder, Locks;
    TablesOf(s);
    if m != l && s'.launches[m].pc.AbortToken? {
      assert s'.launches[m] == s.launches[m] && AbortedOk(s, m);
      AbortingIsAdmission(s, m);
      var id := s.controllers[s.launches[m].controller].instanceId;
      assert s'.controllers[s.launches[m].controller].instanceId == id;
      if id in s'.registry && id !in s.registry { OneAdmission(s, l, m); }
    }
  }

  lemma TablesOf(s: State)
    requires Inv(s)
    ensures Tables(s)
  {
    hide Tables, LaunchesOk, ControllersOk, StopsOk, OperationsOk, ArbitrationOk, ScanOk, Exclusive, RestartsOk, CountsOk, DurableOk;
  }

  lemma TablesMean(s: State)
    requires Tables(s)
    ensures forall l :: l in s.launches ==> Known(s, l)
    ensures forall id :: id in s.registry ==> s.registry[id] in s.controllers
  {
  }

  lemma FlowingKeeps(s: State, s': State, l: LaunchId)
    requires Inv(s) && Inv(s') && Backed(s) && Flowing(s, s', l)
    ensures Backed(s')
  {
    hide Inv, Flowing, LockOk, HoldersOk, FlightOk, AbortedOk, Tables;
    TablesOf(s);
    TablesOf(s');
    TablesMean(s');
    forall m | m in s'.arbLocks ensures LockOk(s', m) { FlowingKeepsLocks(s, s', l, m); }
    forall c | c in s'.controllers ensures HoldersOk(s', c) { FlowingKeepsHolders(s, s', l, c); }
    forall id | id in s'.registry ensures s'.registry[id] in s'.controllers && FlightOk(s', s'.registry[id]) { FlowingKeepsFlight(s, s', l, id); }
    forall m | m in s'.launches ensures Known(s', m) && AbortedOk(s', m) { FlowingKeepsAborted(s, s', l, m); }
  }

  /* ---- step by step ---- */

  /** What a step of l may use. */
  predicate Start(s: State, l: LaunchId)
    requires Tables(s)
  {
    && l in s.launches
    && var launch := s.launches[l]; var c := Before(s, l);
    && ClaimOk(l, launch, c) && AdmissionOk(l, launch, c) && PhaseOk(l, launch, c) && ProcessOk(l, launch, c)
    && (c.mu == Some(LaunchHolder(l)) ==> HoldsMu(launch.pc))
    && (c.lifecycleMu == Some(LaunchHolder(l)) ==> HoldsLifecycle(launch))
    && (c.active.Some? && c.active.value.claim == l ==> Owning(launch.pc))
    && (launch.pc.AbortToken? ==> c.instanceId !in s.registry)
    && (launch.restart && launch.pc.Publish? ==> c.active.None?)
    && (c.phase.InFlight() || c.phase.Terminal())
  }

  lemma StartOf(s: State, l: LaunchId)
    requires Inv(s) && Backed(s) && l in s.launches
    ensures Tables(s) && Start(s, l)
  {
    hide StopsOk, OperationsOk, ScanOk, Exclusive, RestartsOk, CountsOk, DurableOk, ClaimOk, AdmissionOk, PhaseOk, ProcessOk,
         Attributed, LocksOk, SlotOk, OutcomeOk;
    assert AbortedOk(s, l);
    assert LaunchOk(l, s.launches[l], Before(s, l), s.maxConcurrent);
    assert ControllerOk(s, s.launches[l].controller) && HoldersOk(s, s.launches[l].controller);
  }

  lemma AcquireArbitrationFlows(s: State, l: LaunchId, s': State)
    requires Inv(s) && Backed(s) && AcquireArbitration(s, l, s')
    ensures Tables(s) && Flowing(s, s', l)
  {
    hide Inv, Backed;
    StartOf(s, l);
  }

  lemma RejectFlows(s: State, l: LaunchId, a: Answer, s': State)
    requires Inv(s) && Backed(s) && Reject(s, l, a, s')
    ensures Tables(s) && Flowing(s, s', l)
  {
    hide Inv, Backed;
    StartOf(s, l);
  }

  lemma CheckTargetFlows(s: State, l: LaunchId, s': State)
    requires Inv(s) && Backed(s) && CheckTarget(s, l, s')
    ensures Tables(s) && Flowing(s, s', l)
  {
    hide Inv, Backed;
    StartOf(s, l);
  }

  lemma ExamineFlows(s: State, l: LaunchId, a: Answer, s': State)
    requires Inv(s) && Backed(s) && Examine(s, l, a, s')
    ensures Tables(s) && Flowing(s, s', l)
  {
    hide Inv, Backed;
    StartOf(s, l);
  }

  lemma PassFlows(s: State, l: LaunchId, a: Answer, s': State)
    requires Inv(s) && Backed(s) && Pass(s, l, a, s')
    ensures Tables(s) && Flowing(s, s', l)
  {
    hide Inv, Backed;
    StartOf(s, l);
  }

  lemma TargetIsBorn(s: State, l: LaunchId)
    requires Tables(s) && Start(s, l) && s.launches[l].restart
    ensures Before(s, l).born
  {
  }

  lemma PublishedFlows(s: State, l: LaunchId, s': State)
    requires Tables(s) && Start(s, l) && Published(s, l, s')
    requires forall id :: id in s'.registry ==> (id in s.registry && s'.registry[id] == s.registry[id]) || !s.launches[l].restart
    ensures Flowing(s, s', l)
  {
    hide AdmissionOk, ProcessOk, PhaseOk, ClaimOk;
  }

  lemma PublishClaimFlows(s: State, l: LaunchId, s': State)
    requires Inv(s) && Backed(s) && PublishClaim(s, l, s')
    ensures Tables(s) && Flowing(s, s', l)
  {
    hide Inv, Backed, AdmissionOk, ProcessOk, PhaseOk, ClaimOk, Flowing;
    StartOf(s, l);
    assert s.launches[l].restart ==> Before(s, l).born by { if s.launches[l].restart { TargetIsBorn(s, l); } }
    PublishShape(s, l, s');
    assert !s.launches[l].restart ==> s.launches[l].pc.Publish?;
    PublishedFlows(s, l, s');
  }

  lemma EnterLifecycleFlows(s: State, l: LaunchId, s': State)
    requires Inv(s) && Backed(s) && EnterLifecycle(s, l, s')
    ensures Tables(s) && Flowing(s, s', l)
  {
    hide Inv, Backed;
    StartOf(s, l);
  }

  lemma RevalidateOperationFlows(s: State, l: LaunchId, s': State)
    requires Inv(s) && Backed(s) && RevalidateOperation(s, l, s')
    ensures Tables(s) && Flowing(s, s', l)
  {
    hide Inv, Backed;
    StartOf(s, l);
  }

  lemma AwaitPreviousFlows(s: State, l: LaunchId, a: Answer, s': State)
    requires Inv(s) && Backed(s) && AwaitPrevious(s, l, a, s')
    ensures Tables(s) && Flowing(s, s', l)
  {
    hide Inv, Backed;
    StartOf(s, l);
  }

  lemma TakeSlotFlows(s: State, l: LaunchId, s': State)
    requires Inv(s) && Backed(s) && TakeSlot(s, l, s')
    ensures Tables(s) && Flowing(s, s', l)
  {
    hide Inv, Backed;
    StartOf(s, l);
  }

  lemma GiveUpSlotFlows(s: State, l: LaunchId, s': State)
    requires Inv(s) && Backed(s) && GiveUpSlot(s, l, s')
    ensures Tables(s) && Flowing(s, s', l)
  {
    hide Inv, Backed;
    StartOf(s, l);
  }

  lemma CreateRecordFlows(s: State, l: LaunchId, a: Answer, s': State)
    requires Inv(s) && Backed(s) && CreateRecord(s, l, a, s')
    ensures Tables(s) && Flowing(s, s', l)
  {
    hide Inv, Backed;
    StartOf(s, l);
  }

  lemma CommitSpawnFlows(s: State, l: LaunchId, s': State)
    requires Inv(s) && Backed(s) && CommitSpawn(s, l, s')
    ensures Tables(s) && Flowing(s, s', l)
  {
    hide Inv, Backed;
    StartOf(s, l);
  }

  lemma CommitAfterDrainFlows(s: State, l: LaunchId, s': State)
    requires Inv(s) && Backed(s) && CommitAfterDrain(s, l, s')
    ensures Tables(s) && Flowing(s, s', l)
  {
    hide Inv, Backed;
    StartOf(s, l);
  }

  lemma PersistStartingStateFlows(s: State, l: LaunchId, a: Answer, s': State)
    requires Inv(s) && Backed(s) && PersistStartingState(s, l, a, s')
    ensures Tables(s) && Flowing(s, s', l)
  {
    hide Inv, Backed, AdmissionOk, ProcessOk, PhaseOk;
    StartOf(s, l);
  }

  lemma SpawnProcessFlows(s: State, l: LaunchId, s': State)
    requires Inv(s) && Backed(s) && SpawnProcess(s, l, s')
    ensures Tables(s) && Flowing(s, s', l)
  {
    hide Inv, Backed;
    StartOf(s, l);
  }

  lemma SpawnFailsFlows(s: State, l: LaunchId, s': State)
    requires Inv(s) && Backed(s) && SpawnFails(s, l, s')
    ensures Tables(s) && Flowing(s, s', l)
  {
    hide Inv, Backed;
    StartOf(s, l);
  }

  lemma PersistFailureFlows(s: State, l: LaunchId, a: Answer, s': State)
    requires Inv(s) && Backed(s) && PersistFailure(s, l, a, s')
    ensures Tables(s) && Flowing(s, s', l)
  {
    hide Inv, Backed;
    StartOf(s, l);
  }

  lemma PersistRunningStateFlows(s: State, l: LaunchId, s': State)
    requires Inv(s) && Backed(s) && PersistRunningState(s, l, s')
    ensures Tables(s) && Flowing(s, s', l)
  {
    hide Inv, Backed;
    StartOf(s, l);
  }

  lemma PersistRunningFailsFlows(s: State, l: LaunchId, a: Answer, s': State)
    requires Inv(s) && Backed(s) && PersistRunningFails(s, l, a, s')
    ensures Tables(s) && Flowing(s, s', l)
  {
    hide Inv, Backed;
    StartOf(s, l);
  }

  lemma KillAcceptedFlows(s: State, l: LaunchId, s': State)
    requires Inv(s) && Backed(s) && KillAccepted(s, l, s')
    ensures Tables(s) && Flowing(s, s', l)
  {
    hide Inv, Backed;
    StartOf(s, l);
  }

  lemma RollbackConfirmedFlows(s: State, l: LaunchId, s': State)
    requires Inv(s) && Backed(s) && RollbackConfirmed(s, l, s')
    ensures Tables(s) && Flowing(s, s', l)
  {
    hide Inv, Backed;
    StartOf(s, l);
  }

  lemma RollbackUnconfirmedFlows(s: State, l: LaunchId, s': State)
    requires Inv(s) && Backed(s) && RollbackUnconfirmed(s, l, s')
    ensures Tables(s) && Flowing(s, s', l)
  {
    hide Inv, Backed;
    StartOf(s, l);
  }

  lemma PersistRollbackFlows(s: State, l: LaunchId, a: Answer, s': State)
    requires Inv(s) && Backed(s) && PersistRollback(s, l, a, s')
    ensures Tables(s) && Flowing(s, s', l)
  {
    hide Inv, Backed;
    StartOf(s, l);
  }

  lemma ReleaseRunFlows(s: State, l: LaunchId, s': State)
    requires Inv(s) && Backed(s) && ReleaseRun(s, l, s')
    ensures Tables(s) && Flowing(s, s', l)
  {
    hide Inv, Backed;
    StartOf(s, l);
  }

  lemma CompleteRunFlows(s: State, l: LaunchId, s': State)
    requires Inv(s) && Backed(s) && CompleteRun(s, l, s')
    ensures Tables(s) && Flowing(s, s', l)
  {
    hide Inv, Backed;
    StartOf(s, l);
  }

  lemma ForgetRunFlows(s: State, l: LaunchId, s': State)
    requires Inv(s) && Backed(s) && ForgetRun(s, l, s')
    ensures Tables(s) && Flowing(s, s', l)
  {
    hide Inv, Backed;
    StartOf(s, l);
  }

  lemma ReleaseAbortedFlows(s: State, l: LaunchId, s': State)
    requires Inv(s) && Backed(s) && ReleaseAborted(s, l, s')
    ensures Tables(s) && Flowing(s, s', l)
  {
    hide Inv, Backed;
    StartOf(s, l);
  }

  lemma FailAbortedFlows(s: State, l: LaunchId, a: Answer, s': State)
    requires Inv(s) && Backed(s) && FailAborted(s, l, a, s')
    ensures Tables(s) && Flowing(s, s', l)
  {
    hide Inv, Backed;
    StartOf(s, l);
  }

  lemma ForgetAbortedFlows(s: State, l: LaunchId, s': State)
    requires Inv(s) && Backed(s) && ForgetAborted(s, l, s')
    ensures Tables(s) && Flowing(s, s', l)
  {
    hide Inv, Backed;
    StartOf(s, l);
  }

  lemma ReturnTokenFlows(s: State, l: LaunchId, s': State)
    requires Inv(s) && Backed(s) && ReturnToken(s, l, s')
    ensures Tables(s) && Flowing(s, s', l)
  {
    hide Inv, Backed;
    StartOf(s, l);
  }

  lemma LeaveLifecycleFlows(s: State, l: LaunchId, s': State)
    requires Inv(s) && Backed(s) && LeaveLifecycle(s, l, s')
    ensures Tables(s) && Flowing(s, s', l)
  {
    hide Inv, Backed;
    StartOf(s, l);
  }

  lemma MarkUnspawnedFlows(s: State, l: LaunchId, s': State)
    requires Inv(s) && Backed(s) && MarkUnspawned(s, l, s')
    ensures Tables(s) && Flowing(s, s', l)
  {
    hide Inv, Backed;
    StartOf(s, l);
  }

  lemma StoreUnspawnedFlows(s: State, l: LaunchId, a: Answer, s': State)
    requires Inv(s) && Backed(s) && StoreUnspawned(s, l, a, s')
    ensures Tables(s) && Flowing(s, s', l)
  {
    hide Inv, Backed;
    StartOf(s, l);
  }

  lemma ForgetControllerFlows(s: State, l: LaunchId, s': State)
    requires Inv(s) && Backed(s) && ForgetController(s, l, s')
    ensures Tables(s) && Flowing(s, s', l)
  {
    hide Inv, Backed;
    StartOf(s, l);
  }

  lemma ReleaseOperationFlows(s: State, l: LaunchId, s': State)
    requires Inv(s) && Backed(s) && ReleaseOperation(s, l, s')
    ensures Tables(s) && Flowing(s, s', l)
  {
    hide Inv, Backed;
    StartOf(s, l);
  }

  lemma ProcessDiesFlows(s: State, l: LaunchId, s': State)
    requires Inv(s) && Backed(s) && ProcessDies(s, l, s')
    ensures Tables(s) && Flowing(s, s', l)
  {
    hide Inv, Backed;
    StartOf(s, l);
  }

  lemma ReapProcessFlows(s: State, l: LaunchId, s': State)
    requires Inv(s) && Backed(s) && ReapProcess(s, l, s')
    ensures Tables(s) && Flowing(s, s', l)
  {
    hide Inv, Backed;
    StartOf(s, l);
  }

  lemma ObserveExitFlows(s: State, l: LaunchId, a: Answer, s': State)
    requires Inv(s) && Backed(s) && ObserveExit(s, l, a, s')
    ensures Tables(s) && Flowing(s, s', l)
  {
    hide Inv, Backed;
    StartOf(s, l);
  }

  lemma PersistExitFlows(s: State, l: LaunchId, a: Answer, s': State)
    requires Inv(s) && Backed(s) && PersistExit(s, l, a, s')
    ensures Tables(s) && Flowing(s, s', l)
  {
    hide Inv, Backed;
    StartOf(s, l);
  }

  lemma NoteExitFailureFlows(s: State, l: LaunchId, s': State)
    requires Inv(s) && Backed(s) && NoteExitFailure(s, l, s')
    ensures Tables(s) && Flowing(s, s', l)
  {
    hide Inv, Backed;
    StartOf(s, l);
  }

  lemma ReleaseExitedFlows(s: State, l: LaunchId, s': State)
    requires Inv(s) && Backed(s) && ReleaseExited(s, l, s')
    ensures Tables(s) && Flowing(s, s', l)
  {
    hide Inv, Backed;
    StartOf(s, l);
  }

  lemma CompleteExitedFlows(s: State, l: LaunchId, s': State)
    requires Inv(s) && Backed(s) && CompleteExited(s, l, s')
    ensures Tables(s) && Flowing(s, s', l)
  {
    hide Inv, Backed;
    StartOf(s, l);
  }

  lemma StopOldRunFlows(s: State, l: LaunchId, a: Answer, next: StopPc, s': State)
    requires Inv(s) && Backed(s) && StopOldRun(s, l, a, next, s')
    ensures Tables(s) && Flowing(s, s', l)
  {
    hide Inv, Backed;
    StartOf(s, l);
  }

  lemma StopOldReturnsFlows(s: State, l: LaunchId, a: Answer, ok: bool, s': State)
    requires Inv(s) && Backed(s) && StopOldRunReturns(s, l, a, ok, s')
    ensures Tables(s) && Flowing(s, s', l)
  {
    hide Inv, Backed, ProcessOk, PhaseOk;
    StartOf(s, l);
  }

  /* ---- a step of a Stop call ---- */

  predicate StopFlowing(s: State, s': State, t: StopId)
    requires Tables(s)
  {
    && KnownStop(s, t) && t in s'.stops && s.stops[t].controller in s'.controllers
    && s'.launches == s.launches && s'.registry == s.registry && s'.arbLocks == s.arbLocks
    && s'.stops == s.stops[t := s'.stops[t]] && s'.stops[t].controller == s.stops[t].controller
    && s'.controllers == s.controllers[s.stops[t].controller := s'.controllers[s.stops[t].controller]]
    && var c := s.controllers[s.stops[t].controller]; var d := s'.controllers[s.stops[t].controller]; var pc := s'.stops[t].pc;
    && d == c.(phase := d.phase, mu := d.mu, lifecycleMu := d.lifecycleMu)
    && (d.phase.InFlight() ==> c.phase.InFlight())
    && (d.mu.None? || d.mu == c.mu || d.mu == Some(StopHolder(t))) && (d.mu == Some(StopHolder(t)) ==> StopHoldsMu(pc))
    && (d.lifecycleMu.None? || d.lifecycleMu == c.lifecycleMu || d.lifecycleMu == Some(StopHolder(t)))
    && (d.lifecycleMu == Some(StopHolder(t)) ==> StopHoldsLifecycle(pc))
  }

  lemma StopKeepsHolders(s: State, s': State, t: StopId, id: ControllerId)
    requires Tables(s) && Tables(s') && Backed(s) && StopFlowing(s, s', t) && id in s'.controllers
    ensures HoldersOk(s', id)
  {
    hide LockOk, FlightOk, AbortedOk, HoldsMu, HoldsLifecycle, StopHoldsMu, StopHoldsLifecycle;
    assert id in s.controllers && HoldersOk(s, id);
  }

  lemma StopFlowingKeeps(s: State, s': State, t: StopId)
    requires Inv(s) && Inv(s') && Backed(s) && StopFlowing(s, s', t)
    ensures Backed(s')
  {
    hide Inv, HoldersOk, Tables;
    TablesOf(s);
    TablesOf(s');
    TablesMean(s);
    TablesMean(s');
    forall c | c in s'.controllers ensures HoldersOk(s', c) { StopKeepsHolders(s, s', t, c); }
    forall m | m in s'.arbLocks ensures LockOk(s', m) { assert LockOk(s, m); }
    forall id | id in s'.registry ensures FlightOk(s', s'.registry[id]) { assert FlightOk(s, s.registry[id]); }
    forall l | l in s'.launches ensures AbortedOk(s', l) { assert AbortedOk(s, l); }
  }

  /** What a Stop call that holds a lock knows. */
  predicate StopStart(s: State, t: StopId) {
    && KnownStop(s, t)
    && var c := s.controllers[s.stops[t].controller];
    && (c.mu == Some(StopHolder(t)) ==> StopHoldsMu(s.stops[t].pc))
    && (c.lifecycleMu == Some(StopHolder(t)) ==> StopHoldsLifecycle(s.stops[t].pc))
    && (c.phase.InFlight() || c.phase.Terminal())
  }

  lemma StopStartOf(s: State, t: StopId)
    requires Inv(s) && Backed(s) && t in s.stops
    ensures Tables(s) && StopStart(s, t)
  {
    hide LaunchesOk, StopsOk, OperationsOk, ArbitrationOk, ScanOk, Exclusive, RestartsOk, CountsOk, DurableOk;
    assert HoldersOk(s, s.stops[t].controller) && ControllerOk(s, s.stops[t].controller);
  }

  lemma StopGoesFlows(s: State, t: StopId, a: Answer, next: StopPc, s': State)
    requires Inv(s) && Backed(s) && StopCallGoes(s, t, a, next, s')
    ensures Tables(s) && StopFlowing(s, s', t)
  {
    hide Inv, Backed;
    StopStartOf(s, t);
  }

  lemma StopReturnsFlows(s: State, t: StopId, a: Answer, ok: bool, s': State)
    requires Inv(s) && Backed(s) && StopCallReturns(s, t, a, ok, s')
    ensures Tables(s) && StopFlowing(s, s', t)
  {
    hide Inv, Backed;
    StopStartOf(s, t);
  }

  lemma StopLockFlows(s: State, t: StopId, s': State)
    requires Inv(s) && Backed(s) && (EnterStop(s, t, s') || LeaveStop(s, t, s'))
    ensures Tables(s) && StopFlowing(s, s', t)
  {
    hide Inv, Backed;
    StopStartOf(s, t);
  }

  /* ---- calls, cleanup and the environment ---- */

  /** Nothing that is there changes; what is new holds nothing; the registry can only lose entries. */
  predicate Grows(s: State, s': State) {
    && (forall l :: l in s.launches ==> l in s'.launches && s'.launches[l] == s.launches[l])
    && (forall l :: l in s'.launches && l !in s.launches ==> s'.launches[l].pc.ArbWait?)
    && (forall t :: t in s.stops ==> t in s'.stops && s'.stops[t] == s.stops[t])
    && (forall c :: c in s.controllers ==> c in s'.controllers && s'.controllers[c] == s.controllers[c])
    && (forall c :: c in s'.controllers && c !in s.controllers ==> s'.controllers[c].mu.None? && s'.controllers[c].lifecycleMu.None?)
    && s'.arbLocks == s.arbLocks
    && (forall id :: id in s'.registry ==> id in s.registry && s'.registry[id] == s.registry[id])
  }

  lemma GrowsLaunch(s: State, s': State, l: LaunchId)
    requires Grows(s, s') && l in s.launches
    ensures l in s'.launches && s'.launches[l] == s.launches[l]
  {
  }

  lemma GrowsKeeps(s: State, s': State)
    requires Inv(s) && Inv(s') && Backed(s) && Grows(s, s')
    ensures Backed(s')
  {
    hide Inv, Tables;
    TablesOf(s);
    TablesOf(s');
    TablesMean(s);
    TablesMean(s');
    forall c | c in s'.controllers ensures HoldersOk(s', c) { if c in s.controllers { assert HoldersOk(s, c); } }
    forall m | m in s'.arbLocks ensures LockOk(s', m) { assert LockOk(s, m); }
    forall id | id in s'.registry ensures FlightOk(s', s'.registry[id]) {
      var k := s.registry[id];
      assert FlightOk(s, k) && s'.controllers[k] == s.controllers[k];
      var c := s.controllers[k];
      if c.active.Some? && c.active.value.claim in s.launches { GrowsLaunch(s, s', c.active.value.claim); }
      if c.run.Some? && c.run.value in s.launches { GrowsLaunch(s, s', c.run.value); }
    }
    forall l | l in s'.launches ensures AbortedOk(s', l) { if l in s.launches { assert AbortedOk(s, l); } }
  }

  lemma CallGrows(s: State, s': State)
    requires CallStep(s, s')
    ensures Grows(s, s')
  {
    hide Admit, Restart, StopCalled;
    if l, id, c :| Admit(s, l, id, c, s') {
      AdmitGrows(s, l, id, c, s');
    } else if l, id :| Restart(s, l, id, s') {
      RestartGrows(s, l, id, s');
    } else {
      var t, id :| StopCalled(s, t, id, s');
      StopCalledGrows(s, t, id, s');
    }
  }

  lemma AdmitGrows(s: State, l: LaunchId, id: ControllerId, c: Controller, s': State)
    requires Admit(s, l, id, c, s')
    ensures Grows(s, s')
  {
  }

  lemma RestartGrows(s: State, l: LaunchId, id: InstanceId, s': State)
    requires Restart(s, l, id, s')
    ensures Grows(s, s')
  {
  }

  lemma StopCalledGrows(s: State, t: StopId, id: InstanceId, s': State)
    requires StopCalled(s, t, id, s')
    ensures Grows(s, s')
  {
  }

  lemma CleanupGrows(s: State, k: CleanerId, s': State)
    requires CleanupStep(s, k, s')
    ensures Grows(s, s')
  {
    hide CleanupStep;
    CleanupUnregisters(s, k, s');
  }

  lemma EnvironmentGrows(s: State, s': State)
    requires EnvironmentStep(s, s')
    ensures Grows(s, s')
  {
    hide EnvironmentStep;
    if !BeginDrain(s, s') && !CancelLifecycle(s, s') { OthersRecordsChange(s, s'); }
  }

  /* ---- every step, every run ---- */

  lemma ArbitrationFlows(s: State, l: LaunchId, a: Answer, s': State)
    requires Inv(s) && Backed(s) && ArbitrationStep(s, l, a, s')
    ensures Tables(s) && Flowing(s, s', l)
  {
    hide Inv, Backed, Flowing, AcquireArbitration, Reject, CheckTarget, Examine, Pass;
    if AcquireArbitration(s, l, s') {
      AcquireArbitrationFlows(s, l, s');
    } else if Reject(s, l, a, s') {
      RejectFlows(s, l, a, s');
    } else if CheckTarget(s, l, s') {
      CheckTargetFlows(s, l, s');
    } else if Examine(s, l, a, s') {
      ExamineFlows(s, l, a, s');
    } else {
      PassFlows(s, l, a, s');
    }
  }

  lemma PrepareFlows(s: State, l: LaunchId, a: Answer, s': State)
    requires Inv(s) && Backed(s) && PrepareStep(s, l, a, s')
    ensures Tables(s) && Flowing(s, s', l)
  {
    hide Inv, Backed, Flowing, EnterLifecycle, RevalidateOperation, AwaitPrevious, TakeSlot, GiveUpSlot, CreateRecord;
    if EnterLifecycle(s, l, s') {
      EnterLifecycleFlows(s, l, s');
    } else if RevalidateOperation(s, l, s') {
      RevalidateOperationFlows(s, l, s');
    } else if AwaitPrevious(s, l, a, s') {
      AwaitPreviousFlows(s, l, a, s');
    } else if TakeSlot(s, l, s') {
      TakeSlotFlows(s, l, s');
    } else if GiveUpSlot(s, l, s') {
      GiveUpSlotFlows(s, l, s');
    } else {
      CreateRecordFlows(s, l, a, s');
    }
  }

  lemma StartFlows(s: State, l: LaunchId, a: Answer, s': State)
    requires Inv(s) && Backed(s) && StartStep(s, l, a, s')
    ensures Tables(s) && Flowing(s, s', l)
  {
    hide Inv, Backed, Flowing, CommitSpawn, CommitAfterDrain, ClaimRejected, PersistStartingState, SpawnProcess, SpawnFails, PersistFailure,
         PersistRunningState, PersistRunningFails;
    ClaimIsNeverRejected(s, l, s');
    if CommitSpawn(s, l, s') {
      CommitSpawnFlows(s, l, s');
    } else if CommitAfterDrain(s, l, s') {
      CommitAfterDrainFlows(s, l, s');
    } else if PersistStartingState(s, l, a, s') {
      PersistStartingStateFlows(s, l, a, s');
    } else if SpawnProcess(s, l, s') {
      SpawnProcessFlows(s, l, s');
    } else if SpawnFails(s, l, s') {
      SpawnFailsFlows(s, l, s');
    } else if PersistFailure(s, l, a, s') {
      PersistFailureFlows(s, l, a, s');
    } else if PersistRunningState(s, l, s') {
      PersistRunningStateFlows(s, l, s');
    } else {
      PersistRunningFailsFlows(s, l, a, s');
    }
  }

  lemma RollbackFlows(s: State, l: LaunchId, a: Answer, s': State)
    requires Inv(s) && Backed(s) && RollbackStep(s, l, a, s')
    ensures Tables(s) && Flowing(s, s', l)
  {
    hide Inv, Backed, Flowing, KillAccepted, RollbackConfirmed, RollbackUnconfirmed, PersistRollback, ReleaseRun, CompleteRun, ForgetRun;
    if KillAccepted(s, l, s') {
      KillAcceptedFlows(s, l, s');
    } else if RollbackConfirmed(s, l, s') {
      RollbackConfirmedFlows(s, l, s');
    } else if RollbackUnconfirmed(s, l, s') {
      RollbackUnconfirmedFlows(s, l, s');
    } else if PersistRollback(s, l, a, s') {
      PersistRollbackFlows(s, l, a, s');
    } else if ReleaseRun(s, l, s') {
      ReleaseRunFlows(s, l, s');
    } else if CompleteRun(s, l, s') {
      CompleteRunFlows(s, l, s');
    } else {
      ForgetRunFlows(s, l, s');
    }
  }

  lemma AbortFlows(s: State, l: LaunchId, a: Answer, s': State)
    requires Inv(s) && Backed(s) && AbortStep(s, l, a, s')
    ensures Tables(s) && Flowing(s, s', l)
  {
    hide Inv, Backed, Flowing, ReleaseAborted, FailAborted, ForgetAborted, ReturnToken;
    if ReleaseAborted(s, l, s') {
      ReleaseAbortedFlows(s, l, s');
    } else if FailAborted(s, l, a, s') {
      FailAbortedFlows(s, l, a, s');
    } else if ForgetAborted(s, l, s') {
      ForgetAbortedFlows(s, l, s');
    } else {
      ReturnTokenFlows(s, l, s');
    }
  }

  lemma FinishFlows(s: State, l: LaunchId, a: Answer, s': State)
    requires Inv(s) && Backed(s) && FinishStep(s, l, a, s')
    ensures Tables(s) && Flowing(s, s', l)
  {
    hide Inv, Backed, Flowing, LeaveLifecycle, MarkUnspawned, StoreUnspawned, ForgetController, ReleaseOperation;
    if LeaveLifecycle(s, l, s') {
      LeaveLifecycleFlows(s, l, s');
    } else if MarkUnspawned(s, l, s') {
      MarkUnspawnedFlows(s, l, s');
    } else if StoreUnspawned(s, l, a, s') {
      StoreUnspawnedFlows(s, l, a, s');
    } else if ForgetController(s, l, s') {
      ForgetControllerFlows(s, l, s');
    } else {
      ReleaseOperationFlows(s, l, s');
    }
  }

  lemma ProcessFlows(s: State, l: LaunchId, a: Answer, s': State)
    requires Inv(s) && Backed(s) && ProcessStep(s, l, a, s')
    ensures Tables(s) && Flowing(s, s', l)
  {
    hide Inv, Backed, Flowing, ProcessDies, ReapProcess, ObserveExit, PersistExit, NoteExitFailure, ReleaseExited, CompleteExited;
    if ProcessDies(s, l, s') {
      ProcessDiesFlows(s, l, s');
    } else if ReapProcess(s, l, s') {
      ReapProcessFlows(s, l, s');
    } else if ObserveExit(s, l, a, s') {
      ObserveExitFlows(s, l, a, s');
    } else if PersistExit(s, l, a, s') {
      PersistExitFlows(s, l, a, s');
    } else if NoteExitFailure(s, l, s') {
      NoteExitFailureFlows(s, l, s');
    } else if ReleaseExited(s, l, s') {
      ReleaseExitedFlows(s, l, s');
    } else {
      CompleteExitedFlows(s, l, s');
    }
  }

  lemma StopOldFlows(s: State, l: LaunchId, a: Answer, s': State)
    requires Inv(s) && Backed(s) && StopOldStep(s, l, a, s')
    ensures Tables(s) && Flowing(s, s', l)
  {
    hide Inv, Backed, Flowing, StopOldRun, StopOldRunReturns;
    if next :| StopOldRun(s, l, a, next, s') {
      StopOldRunFlows(s, l, a, next, s');
    } else {
      var ok :| StopOldRunReturns(s, l, a, ok, s');
      StopOldReturnsFlows(s, l, a, ok, s');
    }
  }

  lemma LaunchFlows(s: State, l: LaunchId, a: Answer, s': State)
    requires Inv(s) && Backed(s) && LaunchStep(s, l, a, s')
    ensures Tables(s) && Flowing(s, s', l)
  {
    hide Inv, Backed, Flowing, ArbitrationStep, PublishClaim, PrepareStep, StartStep, RollbackStep, AbortStep, FinishStep, StopOldStep, ProcessStep;
    if ArbitrationStep(s, l, a, s') {
      ArbitrationFlows(s, l, a, s');
    } else if PublishClaim(s, l, s') {
      PublishClaimFlows(s, l, s');
    } else if PrepareStep(s, l, a, s') {
      PrepareFlows(s, l, a, s');
    } else if StartStep(s, l, a, s') {
      StartFlows(s, l, a, s');
    } else if RollbackStep(s, l, a, s') {
      RollbackFlows(s, l, a, s');
    } else if AbortStep(s, l, a, s') {
      AbortFlows(s, l, a, s');
    } else if FinishStep(s, l, a, s') {
      FinishFlows(s, l, a, s');
    } else if StopOldStep(s, l, a, s') {
      StopOldFlows(s, l, a, s');
    } else {
      ProcessFlows(s, l, a, s');
    }
  }

  lemma StopFlows(s: State, t: StopId, a: Answer, s': State)
    requires Inv(s) && Backed(s) && StopStep(s, t, a, s')
    ensures Tables(s) && StopFlowing(s, s', t)
  {
    hide Inv, Backed, StopFlowing, StopCallGoes, StopCallReturns, EnterStop, LeaveStop;
    if EnterStop(s, t, s') || LeaveStop(s, t, s') {
      StopLockFlows(s, t, s');
    } else if next :| StopCallGoes(s, t, a, next, s') {
      StopGoesFlows(s, t, a, next, s');
    } else {
      var ok :| StopCallReturns(s, t, a, ok, s');
      StopReturnsFlows(s, t, a, ok, s');
    }
  }

  lemma NextKeepsBacked(s: State, s': State)
    requires Inv(s) && Backed(s) && Next(s, s')
    ensures Inv(s') && Backed(s')
  {
    hide Inv, Backed, Flowing, StopFlowing, Grows, Forward, LaunchStep, StopStep, CleanupStep, CallStep, EnvironmentStep;
    NextKeeps(s, s');
    if l, a :| LaunchStep(s, l, a, s') {
      LaunchFlows(s, l, a, s');
      FlowingKeeps(s, s', l);
    } else if t, a :| StopStep(s, t, a, s') {
      StopFlows(s, t, a, s');
      StopFlowingKeeps(s, s', t);
    } else {
      if k :| CleanupStep(s, k, s') {
        CleanupGrows(s, k, s');
      } else if CallStep(s, s') {
        CallGrows(s, s');
      } else {
        EnvironmentGrows(s, s');
      }
      GrowsKeeps(s, s');
    }
  }

  lemma InitialIsBacked(max: nat, durable: map<InstanceId, Record>)
    ensures Backed(Initial(max, durable))
  {
  }

  /** In every state of every run what is held has a holder at work, and what is in flight has somebody to end it. */
  lemma {:induction false} RunIsBacked(states: seq<State>, i: nat)
    requires Run(states) && i < |states|
    ensures Inv(states[i]) && Backed(states[i])
  {
    hide Inv, Backed, Next;
    if i == 0 {
      var max: nat, durable :| states[0] == Initial(max, durable);
      InitialInv(max, durable);
      InitialIsBacked(max, durable);
    } else {
      RunIsBacked(states, i - 1);
      assert Next(states[i - 1], states[i - 1 + 1]);
      NextKeepsBacked(states[i - 1], states[i]);
    }
  }
}
