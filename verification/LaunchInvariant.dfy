/** The inductive invariant of the launch supervisor. */
module LaunchInvariant {
  import opened Wrappers
  import opened LaunchState
  import opened LaunchSteps

  /* ---- classes of program points ---- */

  predicate Arbitrating(pc: Pc) { pc.ArbCheck? || pc.Scan? || pc.Fence? || pc.Publish? }

  /** The launch holds its controller's operation. */
  predicate Owning(pc: Pc) { !pc.ArbWait? && !Arbitrating(pc) && !pc.Done? }

  predicate BeforeCommit(pc: Pc) {
    pc.Lifecycle? || pc.Revalidate? || pc.StopOld? || pc.AwaitRun? || pc.Slot? || pc.Create? || pc.Commit?
  }

  predicate Aborting(pc: Pc) { pc.AbortRelease? || pc.AbortFail? || pc.AbortForget? || pc.AbortToken? }

  predicate HoldsMu(pc: Pc) {
    || pc.PersistStarting? || pc.Spawn? || pc.PersistSpawnFailure? || pc.PersistRunning? || pc.RollbackKill?
    || pc.ConfirmExit? || pc.PersistRolledBack?
    || (pc.StopOld? && (pc.stop.ManagerStop? || pc.stop.PersistStopping?))
  }

  predicate AfterCommit(pc: Pc) {
    || pc.PersistStarting? || pc.Spawn? || pc.PersistSpawnFailure? || pc.PersistRunning? || pc.RollbackKill?
    || pc.ConfirmExit? || pc.PersistRolledBack? || pc.RunRelease? || pc.RunComplete? || pc.RunForget?
  }

  predicate HoldsLifecycle(launch: Launch) {
    if launch.restart then Owning(launch.pc) && !launch.pc.Lifecycle?
    else launch.pc.Commit? || AfterCommit(launch.pc) || launch.pc.Returned? || (Aborting(launch.pc) && Consumed(launch))
  }

  /** The reservation is held by the launch itself. */
  predicate NeedsSlot(launch: Launch) {
    || launch.pc.Create? || launch.pc.Commit? || (launch.pc.Lifecycle? && !launch.restart)
    || (AfterCommit(launch.pc) && !launch.pc.RunRelease? && !launch.pc.RunComplete? && !launch.pc.RunForget?)
  }

  predicate HasNoSlot(launch: Launch) {
    || launch.pc.ArbWait? || Arbitrating(launch.pc) || launch.pc.Slot? || launch.pc.Revalidate? || launch.pc.StopOld? || launch.pc.AwaitRun?
    || (launch.pc.Lifecycle? && launch.restart)
    || launch.pc.RunComplete? || launch.pc.RunForget? || launch.pc.AbortFail? || launch.pc.AbortForget? || launch.pc.AbortToken?
    || launch.done || launch.outcome.Aborted? || launch.outcome.Error?
    || launch.waiter.Complete? || launch.waiter.Finished?
  }

  /** Somebody is still going to return the slot: the launch itself or its wait(). */
  predicate SlotInUse(launch: Launch) {
    || NeedsSlot(launch) || launch.pc.AbortRelease? || launch.pc.RunRelease?
    || launch.waiter.Waiting? || launch.waiter.PersistTerminal? || launch.waiter.NoteFailure? || launch.waiter.ReleaseSlot?
  }

  /** The run has a process that startCore still decides about. */
  predicate Deciding(pc: Pc) { pc.PersistRunning? || pc.RollbackKill? || pc.ConfirmExit? }

  /** wait() has not yet seen the exit of a run that was not rolled back. */
  predicate Open(launch: Launch) { launch.waiter.Waiting? && !launch.rolledBack }

  predicate ExitSeen(waiter: Waiter) { !waiter.NoWaiter? && !waiter.Waiting? }

  predicate HoldsToken(launch: Launch) {
    !launch.restart && Owning(launch.pc) && (BeforeCommit(launch.pc) || Aborting(launch.pc))
  }

  /* ---- local invariant of one launch against its controller ---- */

  predicate Attributed(launch: Launch, c: Controller) {
    c.InstanceOwner() == Some(launch.owner)
  }

  predicate ClaimOk(l: LaunchId, launch: Launch, c: Controller) {
    && (launch.claim.Some? ==>
          && launch.claim.value.modelId == c.modelId && launch.claim.value.instanceId == c.instanceId
          && launch.claim.value.owner == launch.owner && launch.claim.value.restart == launch.restart)
    && (Owning(launch.pc) ==> launch.claim.Some? && c.active == Some(Operation(launch.claim.value.opId, launch.owner, l)))
    && (launch.pc.ArbWait? || Arbitrating(launch.pc) ==> launch.claim.None?)
    && (BeforeCommit(launch.pc) ==> !Consumed(launch))
    && (AfterCommit(launch.pc) || launch.committed ==> Consumed(launch))
    && (AfterCommit(launch.pc) ==> launch.committed)
    && (launch.pc.AbortFail? ==> Consumed(launch))
    && (Aborting(launch.pc) ==> !launch.committed)
  }

  predicate AdmissionOk(l: LaunchId, launch: Launch, c: Controller) {
    if launch.restart then c.born && launch.tokens == 0 && !launch.pc.Create? && !launch.pc.AbortFail? && !launch.pc.AbortForget?
                           && !launch.pc.AbortToken? && !launch.pc.Returned? && !launch.pc.FailUnspawned? && !launch.pc.PersistUnspawned?
                           && !launch.pc.Forget?
    else
      && c.creator == l
      && !launch.pc.Revalidate? && !launch.pc.StopOld? && !launch.pc.AwaitRun?
      && (launch.claim.Some? ==> c.born)
      && (launch.pc.ArbWait? || Arbitrating(launch.pc) ==> !c.born && c.active.None?)
      && (c.preSpawnToken <==> HoldsToken(launch))
      && launch.tokens == (if launch.claim.Some? && !HoldsToken(launch) then 1 else 0)
      && (!c.born || HoldsToken(launch) ==> c.run.None? && !c.clobbered)
      && (Owning(launch.pc) ==> c.run.None? || c.run == Some(l))
  }

  predicate LocksOk(l: LaunchId, launch: Launch, c: Controller) {
    && (HoldsMu(launch.pc) ==> c.mu == Some(LaunchHolder(l)))
    && (HoldsLifecycle(launch) ==> c.lifecycleMu == Some(LaunchHolder(l)))
  }

  predicate SlotOk(launch: Launch, max: nat) {
    && (max == 0 ==> !launch.slot)
    && (max > 0 && (NeedsSlot(launch) || launch.process.Alive? || Open(launch)) ==> launch.slot)
    && (HasNoSlot(launch) ==> !launch.slot)
    && (launch.slot ==> SlotInUse(launch))
  }

  predicate ProcessOk(l: LaunchId, launch: Launch, c: Controller) {
    && launch.spawns == (if launch.process.NoProcess? then 0 else 1)
    && (launch.spawns > 0 ==> launch.committed)
    && (launch.process.Alive? || launch.process.Dead? ==> c.process == Some(l))
    && (!launch.started ==> launch.process.NoProcess? && !launch.done)
    && (launch.pc.ArbWait? || Arbitrating(launch.pc) || BeforeCommit(launch.pc) || Aborting(launch.pc) || launch.pc.PersistStarting? ==> !launch.started)
    && (launch.outcome.Aborted? ==> launch.process.NoProcess?)
    && (launch.pc.Spawn? || launch.pc.PersistSpawnFailure? ==> launch.started && launch.process.NoProcess? && !launch.done)
    && (launch.pc.PersistRolledBack? ==> !launch.process.NoProcess? && launch.waiter.NoWaiter? && !launch.done)
    && (Deciding(launch.pc) ==> launch.started && !launch.process.NoProcess? && !launch.done && launch.waiter.NoWaiter? && !launch.rolledBack)
    && (launch.pc.PersistRolledBack? || launch.pc.RunRelease? || launch.pc.RunComplete? || launch.pc.RunForget? || launch.outcome.Error? ==> !launch.process.Alive?)
    && (launch.pc.PersistRolledBack? || launch.pc.RunRelease? || launch.pc.RunComplete? || launch.pc.RunForget? ==> launch.started)
    && (launch.process.NoProcess? ==> launch.waiter.NoWaiter? && !launch.rolledBack)
    && (launch.waiter.Waiting? && launch.done ==> launch.rolledBack)
    && (ExitSeen(launch.waiter) ==> launch.process.Reaped?)
    && (launch.process.Alive? ==> Deciding(launch.pc) || launch.waiter.Waiting?)
    && (launch.rolledBack ==> !launch.process.Alive? && !launch.outcome.Success? && !launch.outcome.Residual?)
    && (Open(launch) ==> !launch.done && (launch.outcome.Success? || launch.outcome.Residual?))
  }

  predicate OutcomeOk(launch: Launch) {
    && (!launch.outcome.NotReturned? ==> Owning(launch.pc) || launch.pc.Done?)
    && (AfterCommit(launch.pc) || BeforeCommit(launch.pc) || Aborting(launch.pc) || launch.pc.ArbWait? || Arbitrating(launch.pc) ==> launch.outcome.NotReturned?)
    && (launch.pc.FailUnspawned? || launch.pc.PersistUnspawned? || launch.pc.Forget? ==> launch.outcome.Error?)
    && (launch.outcome.Success? || launch.outcome.Residual? ==> launch.started && !launch.process.NoProcess? && !launch.waiter.NoWaiter?)
    && (launch.outcome.Error? && launch.outcome.persistenceFailure ==> launch.rolledBack)
  }

  predicate PhaseOk(l: LaunchId, launch: Launch, c: Controller) {
    && (launch.pc.PersistStarting? || launch.pc.Spawn? ==> c.phase.Starting?)
    && (Deciding(launch.pc) ==> c.phase.Running? && c.identity == Some(l))
    && (AfterCommit(launch.pc) && !launch.pc.PersistStarting? ==> c.run == Some(l))
    && (Open(launch) && !c.clobbered ==>
          c.run == Some(l) && (c.phase.Stopping? || (if launch.outcome.Success? then c.phase.Running? else c.phase.Starting?)))
  }

  predicate LaunchOk(l: LaunchId, launch: Launch, c: Controller, max: nat) {
    && Attributed(launch, c)
    && ClaimOk(l, launch, c)
    && AdmissionOk(l, launch, c)
    && LocksOk(l, launch, c)
    && SlotOk(launch, max)
    && ProcessOk(l, launch, c)
    && OutcomeOk(launch)
    && PhaseOk(l, launch, c)
  }

  predicate StopOk(t: StopId, call: StopCall, c: Controller) {
    && c.born
    && (call.pc.StopRun? || call.pc.StopUnlock? ==> c.lifecycleMu == Some(StopHolder(t)))
    && (call.pc.StopRun? && (call.pc.stop.ManagerStop? || call.pc.stop.PersistStopping?) ==> c.mu == Some(StopHolder(t)))
  }

  /* ---- invariants of the whole state ---- */

  predicate Tables(s: State) {
    && (forall l :: l in s.launches ==> s.launches[l].controller in s.controllers)
    && (forall t :: t in s.stops ==> s.stops[t].controller in s.controllers)
    && (forall c, d :: c in s.controllers && d in s.controllers && s.controllers[c].instanceId == s.controllers[d].instanceId ==> c == d)
    && (forall id :: id in s.registry ==>
          s.registry[id] in s.controllers && s.controllers[s.registry[id]].instanceId == id && s.controllers[s.registry[id]].born)
  }

  predicate NothingStarted(s: State, id: ControllerId) {
    forall l :: l in s.launches && s.launches[l].controller == id ==> !s.launches[l].started
  }

  /** References from a controller to launches. */
  predicate ControllerOk(s: State, id: ControllerId)
    requires id in s.controllers
  {
    var c := s.controllers[id];
    && c.creator in s.launches && s.launches[c.creator].controller == id && !s.launches[c.creator].restart
    && !c.phase.Unknown? && !c.phase.Stale? && !c.phase.Orphan?
    && (c.pipelineId != "" ==> c.entryId != "")
    && (c.active.Some? ==>
          && var l := c.active.value.claim;
          && l in s.launches && s.launches[l].controller == id && Owning(s.launches[l].pc))
    && (c.process.Some? ==>
          && var l := c.process.value;
          && l in s.launches && s.launches[l].controller == id && (s.launches[l].process.Alive? || s.launches[l].process.Dead?))
    && (c.run.Some? ==> c.run.value in s.launches && s.launches[c.run.value].controller == id && s.launches[c.run.value].started)
    && (c.preSpawnToken || !c.born ==> NothingStarted(s, id))
  }

  predicate LaunchesOk(s: State)
    requires Tables(s)
  {
    forall l :: l in s.launches ==> LaunchOk(l, s.launches[l], s.controllers[s.launches[l].controller], s.maxConcurrent)
  }

  predicate ControllersOk(s: State) {
    forall c :: c in s.controllers ==> ControllerOk(s, c)
  }

  predicate StopsOk(s: State)
    requires Tables(s)
  {
    forall t :: t in s.stops ==> StopOk(t, s.stops[t], s.controllers[s.stops[t].controller])
  }

  predicate SameOperation(a: Launch, b: Launch) { a.claim.Some? && b.claim.Some? && a.claim.value.opId == b.claim.value.opId }

  /** Operation identities are minted once. */
  predicate OperationsOk(s: State) {
    && (forall l :: l in s.launches && s.launches[l].claim.Some? ==> s.launches[l].claim.value.opId <= s.opSeq)
    && (forall l, m :: l in s.launches && m in s.launches && SameOperation(s.launches[l], s.launches[m]) ==> l == m)
  }

  /** The arbitration lock of a model is held exactly by the launch that arbitrates for it. */
  predicate ArbitrationOk(s: State)
    requires Tables(s)
  {
    && (forall l :: l in s.launches && Arbitrating(s.launches[l].pc) ==>
          var m := s.controllers[s.launches[l].controller].modelId; m in s.arbLocks && s.arbLocks[m] == l)
    && (forall l :: l in s.launches && s.launches[l].restart && Arbitrating(s.launches[l].pc) && !s.launches[l].pc.ArbCheck? ==>
          s.controllers[s.launches[l].controller].active.None?)
  }

  /** What the scan has established about the registered instances it has examined. */
  predicate ScanOk(s: State)
    requires Tables(s)
  {
    forall l, id :: l in s.launches && Examined(s.launches[l].pc, id) && id in s.registry ==> !Conflicts(s, s.launches[l], id)
  }

  predicate Examined(pc: Pc, id: InstanceId) { pc.Fence? || pc.Publish? || (pc.Scan? && id !in pc.todo) }

  /** Two controllers of one model may be visible together only as two entries of one pipeline. */
  predicate Siblings(c: Controller, d: Controller) {
    c.pipelineId != "" && c.pipelineId == d.pipelineId && c.entryId != "" && d.entryId != "" && c.entryId != d.entryId
  }

  predicate Exclusive(s: State)
    requires Tables(s)
  {
    forall i, j :: i in s.registry && j in s.registry && i != j ==>
      var c, d := s.controllers[s.registry[i]], s.controllers[s.registry[j]];
      c.modelId == d.modelId && c.Visible() && d.Visible() ==> Siblings(c, d)
  }

  /** A restart that goes on to spawn has no earlier run whose exit wait() has still to see. */
  predicate NoOpenRun(s: State, id: ControllerId) {
    forall l :: l in s.launches && s.launches[l].controller == id ==> !Open(s.launches[l])
  }

  predicate ReadyToStart(launch: Launch) {
    launch.pc.PersistStarting? || (launch.restart && (launch.pc.Slot? || launch.pc.Commit? || (launch.pc.StopOld? && launch.pc.stop == Final(true))))
  }

  predicate RestartsOk(s: State)
    requires Tables(s)
  {
    && (forall l :: l in s.launches && ReadyToStart(s.launches[l]) ==>
          s.controllers[s.launches[l].controller].clobbered || NoOpenRun(s, s.launches[l].controller))
    && (forall l :: l in s.launches && s.launches[l].pc.AwaitRun? ==>
          s.controllers[s.launches[l].controller].run == Some(s.launches[l].pc.previous))
  }

  function Tokens(s: State): set<ControllerId> { set c | c in s.controllers && s.controllers[c].preSpawnToken }

  function Held(s: State): set<LaunchId> { set l | l in s.launches && s.launches[l].slot }

  predicate CountsOk(s: State) {
    && s.preSpawnInFlight == |Tokens(s)|
    && s.free + |Held(s)| == s.maxConcurrent && s.free >= 0
    && (s.zeroSig <==> s.draining && s.preSpawnInFlight == 0)
  }

  predicate DurableOk(s: State)
    requires Tables(s)
  {
    forall l :: l in s.launches && s.launches[l].outcome.Success? ==>
      var c := s.controllers[s.launches[l].controller]; (c.instanceId, Record(c.modelId, Running, Some(l))) in s.written
  }

  predicate Inv(s: State) {
    && Tables(s)
    && LaunchesOk(s)
    && ControllersOk(s)
    && StopsOk(s)
    && OperationsOk(s)
    && ArbitrationOk(s)
    && ScanOk(s)
    && Exclusive(s)
    && RestartsOk(s)
    && CountsOk(s)
    && DurableOk(s)
  }

  /* ---- what no step undoes ---- */

  /** Commit C is passed once and needs an open drain latch, a spawn needs a commit, an outcome is final. */
  predicate Advances(draining: bool, a: Launch, b: Launch) {
    && b.controller == a.controller
    && (b.committed == a.committed || (b.committed && !draining))
    && (b.spawns == a.spawns || (b.spawns == a.spawns + 1 && a.pc.Spawn?))
    && (b.outcome == a.outcome || a.outcome.NotReturned?)
  }

  /** The durable record of l carries the process of l as running. */
  predicate Announced(s: State, l: LaunchId) {
    && Known(s, l)
    && var c := s.controllers[s.launches[l].controller];
    c.instanceId in s.durable && s.durable[c.instanceId] == Record(c.modelId, Running, Some(l))
  }

  /** A published controller whose record is gone and that no launch can bring back or is about to spawn. */
  predicate Gone(s: State, c: ControllerId) {
    && c in s.controllers && s.controllers[c].born && s.controllers[c].instanceId !in s.durable
    && (forall l :: l in s.launches && s.launches[l].controller == c ==> Passed(s.launches[l]))
  }

  /** The call has ended, or can only be refused: the lifecycle was cancelled before arbitration has looked, or the drain
  has started before the claim is published. */
  predicate Refused(s: State, launch: Launch) {
    || launch.pc.Done?
    || (s.cancelled && (launch.pc.ArbWait? || launch.pc.ArbCheck?))
    || (s.draining && (launch.pc.ArbWait? || Arbitrating(launch.pc)))
  }

  /** A controller that left the registry and whose calls have all ended or can only be refused. */
  predicate Retired(s: State, c: ControllerId) {
    && c in s.controllers && s.controllers[c].born
    && (forall id :: id in s.registry ==> s.registry[id] != c)
    && (forall l :: l in s.launches && s.launches[l].controller == c ==> Refused(s, s.launches[l]))
  }

  predicate Passed(launch: Launch) {
    !launch.pc.Spawn? && !launch.pc.Create? && (launch.restart || !launch.pc.Slot?)
  }

  /** A wait() wrote the state of c out of turn only after a rollback of c had completed a run early. */
  predicate Blamed(s: State, c: ControllerId) {
    c in s.controllers && s.controllers[c].clobbered ==>
      exists l :: l in s.launches && s.launches[l].controller == c && s.launches[l].rolledBack
  }

  predicate Unstarted(launch: Launch) { !launch.committed && launch.spawns == 0 && launch.outcome.NotReturned? }

  /** One step, seen from every launch and every controller. */
  predicate Forward(s: State, s': State) {
    && (forall l :: l in s.launches ==> l in s'.launches && Advances(s.draining, s.launches[l], s'.launches[l]))
    && (forall l :: l in s'.launches && l !in s.launches ==> Unstarted(s'.launches[l]))
    && (s.draining ==> s'.draining && s'.preSpawnInFlight <= s.preSpawnInFlight)
    && (s.cancelled ==> s'.cancelled)
    && s'.maxConcurrent == s.maxConcurrent
    && (forall l :: l in s.launches && l in s'.launches && s'.launches[l].outcome.Success? && !s.launches[l].outcome.Success? ==> Announced(s', l))
    && (forall c :: c in s.controllers ==> c in s'.controllers && s'.controllers[c].instanceId == s.controllers[c].instanceId)
    && (forall c :: c in s.controllers && Gone(s, c) ==> Gone(s', c))
    && (forall c :: c in s.controllers && Retired(s, c) ==> Retired(s', c))
    && (forall c :: c in s'.controllers && Blamed(s, c) ==> Blamed(s', c))
  }
}
