/** Stops keep the invariant: the stop inside a restart and the Stop call. */
module LaunchStops {
  import opened Wrappers
  import opened LaunchState
  import opened LaunchSteps
  import opened LaunchInvariant
  import opened LaunchFrames
  import opened LaunchMoves
  import opened LaunchKeeps

  /** What the stop program does to its controller when it goes on. */
  predicate StopShape(c: Controller, who: Holder, pc: StopPc, next: StopPc, d: Controller) {
    match pc
    case Mark => c.mu.None? && !c.phase.Terminal() && !c.phase.Pending? && next.LockMu? && d == c.(phase := Stopping)
    case LockMu => c.mu.None? && next.ManagerStop? && d == c.(mu := Some(who))
    case ManagerStop => next.PersistStopping? && d == c
    case PersistStopping(_) => next.AwaitDone? && d == c.(mu := None)
    case AwaitDone(_) => next.Final? && d == c
    case Final(_) => false
  }

  /** What it does when it returns. */
  predicate ReturnShape(c: Controller, pc: StopPc, d: Controller) {
    (pc.Mark? && d == c) || (pc.PersistStopping? && d == c.(mu := None)) || (pc.Final? && d == c)
  }

  lemma StopGoesShape(s: State, c: Controller, who: Holder, pc: StopPc, a: Answer, next: StopPc, d: Controller)
    requires StopGoes(s, c, who, pc, a, next, d)
    ensures StopShape(c, who, pc, next, d)
    ensures StopAnswer(pc, a).Ok? ==> c.instanceId in s.durable
    ensures next == Final(true) ==> c.run.None? || (c.run.value in s.launches && s.launches[c.run.value].done)
  {
  }

  lemma StopReturnsShape(s: State, c: Controller, pc: StopPc, a: Answer, ok: bool, d: Controller)
    requires StopReturns(s, c, pc, a, ok, d)
    ensures ReturnShape(c, pc, d)
    ensures StopAnswer(pc, a).Ok? ==> c.instanceId in s.durable
    ensures ok && pc.Mark? ==> c.phase.Terminal()
    ensures ok && !pc.Mark? ==> pc == Final(true)
  {
  }

  /* ---- inside a restart ---- */

  lemma StopOldMoves(l: LaunchId, launch: Launch, c: Controller, stop: StopPc, next: Launch, d: Controller, max: nat)
    requires Joined(l, launch, c, max) && launch.pc.StopOld? && StopShape(c, LaunchHolder(l), launch.pc.stop, stop, d)
    requires next == launch.(pc := StopOld(stop))
    ensures Move(l, launch, c, next, d, max)
    ensures Calm(c, d) && launch.outcome.NotReturned? && d.clobbered == c.clobbered
    ensures ReadyToStart(next) ==> stop == Final(true)
  {
  }

  lemma StopOldReturnMoves(l: LaunchId, launch: Launch, c: Controller, next: Launch, d: Controller, max: nat)
    requires Joined(l, launch, c, max) && launch.pc.StopOld? && ReturnShape(c, launch.pc.stop, d)
    requires next == launch.(pc := Slot) || next == launch.(pc := ReleaseOp)
    ensures Move(l, launch, c, next, d, max)
    ensures Calm(c, d) && launch.outcome.NotReturned? && d.clobbered == c.clobbered && launch.restart
  {
  }

  /** One step of the stop inside a restart, without its guards. */
  predicate StopOldFrame(s: State, l: LaunchId, next: Pc, s': State) {
    && Known(s, l) && l in s'.launches && OnlyLaunch(s, s', l) && Balanced(s, s', l)
    && s'.launches[l] == s.launches[l].(pc := next) && s.launches[l].pc.StopOld?
  }

  lemma StopOldRunFrame(s: State, l: LaunchId, a: Answer, stop: StopPc, s': State)
    requires CountsOk(s) && StopOldRun(s, l, a, stop, s')
    ensures StopOldFrame(s, l, StopOld(stop), s')
    ensures StopGoes(s, Before(s, l), LaunchHolder(l), s.launches[l].pc.stop, a, stop, After(s, s', l))
  {
    StopGoesShape(s, Before(s, l), LaunchHolder(l), s.launches[l].pc.stop, a, stop, s'.controllers[s.launches[l].controller]);
    hide StopGoes;
  }

  lemma StopOldReturnsFrame(s: State, l: LaunchId, a: Answer, ok: bool, s': State)
    requires CountsOk(s) && StopOldRunReturns(s, l, a, ok, s')
    ensures StopOldFrame(s, l, if ok then Slot else ReleaseOp, s')
    ensures StopReturns(s, Before(s, l), s.launches[l].pc.stop, a, ok, After(s, s', l))
  {
    StopReturnsShape(s, Before(s, l), s.launches[l].pc.stop, a, ok, s'.controllers[s.launches[l].controller]);
    hide StopReturns;
  }

  lemma StopOldRunKeeps(s: State, l: LaunchId, a: Answer, stop: StopPc, s': State)
    requires Inv(s) && StopOldRun(s, l, a, stop, s')
    ensures Inv(s') && Forward(s, s')
  {
    hide Inv, CountsOk, Joined, Move, SoleWriter, StopGoes, StopShape, Calm, NoOpenRun, ReadyToStart, StopOldRun, OnlyLaunch, Balanced,
         Prepared, Forward;
    CountsOf(s);
    StopOldRunFrame(s, l, a, stop, s');
    var c := Before(s, l);
    StopGoesShape(s, c, LaunchHolder(l), s.launches[l].pc.stop, a, stop, After(s, s', l));
    if stop == Final(true) { NothingOpen(s, l); }
    ContextOf(s, l);
    StopOldMoves(l, s.launches[l], c, stop, s'.launches[l], After(s, s', l), s.maxConcurrent);
    PointPrepares(s, l, s');
    GoodStepKeepsInv(s, s', l);
  }

  lemma ReturnedReady(s: State, l: LaunchId)
    requires Inv(s) && l in s.launches && s.launches[l].restart && s.launches[l].pc.StopOld?
    requires if s.launches[l].pc.stop.Mark? then Before(s, l).phase.Terminal() else s.launches[l].pc.stop == Final(true)
    ensures Before(s, l).clobbered || NoOpenRun(s, s.launches[l].controller)
  {
    hide Inv, NoOpenRun;
    if s.launches[l].pc.stop.Mark? { NothingOpen(s, l); } else { AloneWhenReady(s, l); }
  }

  lemma StopOldReturnsKeeps(s: State, l: LaunchId, a: Answer, ok: bool, s': State)
    requires Inv(s) && StopOldRunReturns(s, l, a, ok, s')
    ensures Inv(s') && Forward(s, s')
  {
    hide Inv, CountsOk, Joined, Move, SoleWriter, StopReturns, ReturnShape, Calm, NoOpenRun, StopOldRunReturns, OnlyLaunch, Balanced,
         Prepared, Forward;
    CountsOf(s);
    StopOldReturnsFrame(s, l, a, ok, s');
    var c := Before(s, l);
    StopReturnsShape(s, c, s.launches[l].pc.stop, a, ok, After(s, s', l));
    ContextOf(s, l);
    StopOldReturnMoves(l, s.launches[l], c, s'.launches[l], After(s, s', l), s.maxConcurrent);
    if ok { ReturnedReady(s, l); }
    PointPrepares(s, l, s');
    GoodStepKeepsInv(s, s', l);
  }

  /* ---- the Stop call ---- */

  /** What a Stop call may do to its controller. */
  predicate StopMild(t: StopId, c: Controller, d: Controller) {
    && d == c.(phase := d.phase, mu := d.mu, lifecycleMu := d.lifecycleMu)
    && (d.phase == c.phase || (c.mu.None? && d.phase.Stopping? && c.phase.InFlight()))
    && (d.mu == c.mu || c.mu.None? || c.mu == Some(StopHolder(t)))
    && (d.lifecycleMu == c.lifecycleMu || c.lifecycleMu.None? || c.lifecycleMu == Some(StopHolder(t)))
  }

  predicate OnlyStop(s: State, s': State, t: StopId) {
    && KnownStop(s, t) && t in s'.stops
    && s'.stops == s.stops[t := s'.stops[t]] && s'.stops[t].controller == s.stops[t].controller
    && s.stops[t].controller in s'.controllers
    && s'.controllers == s.controllers[s.stops[t].controller := s'.controllers[s.stops[t].controller]]
    && s'.launches == s.launches && s'.registry == s.registry && s'.arbLocks == s.arbLocks && s'.opSeq == s.opSeq
    && s'.maxConcurrent == s.maxConcurrent && s'.free == s.free && s'.preSpawnInFlight == s.preSpawnInFlight
    && s'.draining == s.draining && s'.cancelled == s.cancelled && s'.zeroSig == s.zeroSig && s.written <= s'.written
    && (forall id :: id in s'.durable ==> id in s.durable)
    && StopMild(t, s.controllers[s.stops[t].controller], s'.controllers[s.stops[t].controller])
    && StopOk(t, s'.stops[t], s'.controllers[s.stops[t].controller])
  }

  lemma StopUndisturbs(t: StopId, m: LaunchId, launch: Launch, c: Controller, d: Controller)
    requires StopMild(t, c, d)
    ensures Undisturbed(m, launch, c, d)
  {
  }

  lemma StopTables(s: State, s': State, t: StopId)
    requires Inv(s) && OnlyStop(s, s', t)
    ensures Tables(s') && LaunchesOk(s') && StopsOk(s')
  {
    hide LaunchOk, ControllersOk, OperationsOk, ArbitrationOk, ScanOk, Exclusive, RestartsOk, CountsOk, DurableOk, Undisturbed;
    var id := s.stops[t].controller;
    forall m | m in s'.launches ensures LaunchOk(m, s'.launches[m], s'.controllers[s'.launches[m].controller], s'.maxConcurrent) {
      assert LaunchOk(m, s.launches[m], s.controllers[s.launches[m].controller], s.maxConcurrent);
      if s.launches[m].controller == id {
        StopUndisturbs(t, m, s.launches[m], s.controllers[id], s'.controllers[id]);
        Tolerates(m, s.launches[m], s.controllers[id], s'.controllers[id], s.maxConcurrent);
      }
    }
  }

  lemma StopController(s: State, s': State, t: StopId, id: ControllerId)
    requires OnlyStop(s, s', t) && id in s.controllers && ControllerOk(s, id)
    ensures id in s'.controllers && ControllerOk(s', id)
  {
  }

  lemma StopVisible(s: State, s': State, t: StopId)
    requires Inv(s) && OnlyStop(s, s', t) && Tables(s')
    ensures OperationsOk(s') && ArbitrationOk(s') && ScanOk(s') && Exclusive(s')
  {
    hide LaunchesOk, ControllersOk, StopsOk, RestartsOk, CountsOk, DurableOk, StopOk, Siblings;
    forall c | c in s.controllers
      ensures c in s'.controllers && s'.controllers[c].modelId == s.controllers[c].modelId
      ensures s'.controllers[c].active == s.controllers[c].active
      ensures s'.controllers[c].pipelineId == s.controllers[c].pipelineId && s'.controllers[c].entryId == s.controllers[c].entryId
      ensures s'.controllers[c].instanceId == s.controllers[c].instanceId
      ensures s'.controllers[c].Visible() == s.controllers[c].Visible()
    {
    }
    forall m, id | m in s'.launches && Examined(s'.launches[m].pc, id) && id in s'.registry
      ensures !Conflicts(s', s'.launches[m], id)
    {
      assert !Conflicts(s, s.launches[m], id);
    }
    forall i, j | i in s'.registry && j in s'.registry && i != j
      ensures var c, d := s'.controllers[s'.registry[i]], s'.controllers[s'.registry[j]];
        c.modelId == d.modelId && c.Visible() && d.Visible() ==> Siblings(c, d)
    {
      StopSiblings(s.controllers[s.registry[i]], s.controllers[s.registry[j]], s'.controllers[s.registry[i]], s'.controllers[s.registry[j]]);
    }
  }

  lemma StopSiblings(c: Controller, d: Controller, c': Controller, d': Controller)
    requires c'.pipelineId == c.pipelineId && c'.entryId == c.entryId && d'.pipelineId == d.pipelineId && d'.entryId == d.entryId
    ensures Siblings(c', d') == Siblings(c, d)
  {
  }

  lemma StopRest(s: State, s': State, t: StopId)
    requires Inv(s) && OnlyStop(s, s', t) && Tables(s')
    ensures RestartsOk(s') && CountsOk(s') && DurableOk(s') && ControllersOk(s')
  {
    hide LaunchesOk, StopsOk, OperationsOk, ArbitrationOk, ScanOk, Exclusive, ControllerOk;
    TokensFrame(s, s', s.stops[t].controller);
    assert Held(s') == Held(s);
    forall c | c in s'.controllers ensures ControllerOk(s', c) { StopController(s, s', t, c); }
    forall c ensures NoOpenRun(s', c) == NoOpenRun(s, c) { }
  }

  lemma StopForward(s: State, s': State, t: StopId)
    requires OnlyStop(s, s', t)
    ensures Forward(s, s')
  {
    hide Gone, Retired, Blamed, StopOk;
    forall c | c in s.controllers && Gone(s, c) ensures Gone(s', c) { StopGone(s, s', t, c); }
    forall c | c in s.controllers && Retired(s, c) ensures Retired(s', c) { StopRetired(s, s', t, c); }
    forall c | c in s'.controllers && Blamed(s, c) ensures Blamed(s', c) { StopBlamed(s, s', t, c); }
  }

  lemma StopGone(s: State, s': State, t: StopId, c: ControllerId)
    requires OnlyStop(s, s', t) && Gone(s, c)
    ensures Gone(s', c)
  {
    hide StopOk, Passed;
  }

  lemma StopRetired(s: State, s': State, t: StopId, c: ControllerId)
    requires OnlyStop(s, s', t) && Retired(s, c)
    ensures Retired(s', c)
  {
    hide StopOk;
  }

  lemma StopBlamed(s: State, s': State, t: StopId, c: ControllerId)
    requires OnlyStop(s, s', t) && c in s'.controllers && Blamed(s, c)
    ensures Blamed(s', c)
  {
    hide StopOk;
  }

  lemma OnlyStopKeeps(s: State, s': State, t: StopId)
    requires Inv(s) && OnlyStop(s, s', t)
    ensures Inv(s') && Forward(s, s')
  {
    hide LaunchesOk, ControllersOk, StopsOk, OperationsOk, ArbitrationOk, ScanOk, Exclusive, RestartsOk, CountsOk, DurableOk, Tables,
         OnlyStop, Forward;
    StopForward(s, s', t);
    StopTables(s, s', t);
    StopVisible(s, s', t);
    StopRest(s, s', t);
  }

  lemma StopCallContext(s: State, t: StopId)
    requires Inv(s) && t in s.stops
    ensures KnownStop(s, t) && StopOk(t, s.stops[t], s.controllers[s.stops[t].controller])
    ensures var c := s.controllers[s.stops[t].controller]; !c.phase.Unknown? && !c.phase.Stale? && !c.phase.Orphan?
  {
    hide LaunchesOk;
    assert ControllerOk(s, s.stops[t].controller);
  }

  lemma StopMoves(t: StopId, call: StopCall, pc: StopPc, c: Controller, next: StopCall, d: Controller)
    requires StopOk(t, call, c) && call.pc == StopRun(pc) && next.controller == call.controller
    requires !c.phase.Unknown? && !c.phase.Stale? && !c.phase.Orphan?
    requires (next.pc.StopRun? && StopShape(c, StopHolder(t), pc, next.pc.stop, d)) || (next.pc.StopUnlock? && ReturnShape(c, pc, d))
    ensures StopMild(t, c, d) && StopOk(t, next, d)
  {
  }

  lemma StopCallGoesKeeps(s: State, t: StopId, a: Answer, next: StopPc, s': State)
    requires Inv(s) && StopCallGoes(s, t, a, next, s')
    ensures Inv(s') && Forward(s, s')
  {
    hide Inv, StopMild, StopOk;
    StopCallContext(s, t);
    var c, d := s.controllers[s.stops[t].controller], s'.controllers[s.stops[t].controller];
    StopGoesShape(s, c, StopHolder(t), s.stops[t].pc.stop, a, next, d);
    hide StopGoes, StopShape;
    StopMoves(t, s.stops[t], s.stops[t].pc.stop, c, s'.stops[t], d);
    assert OnlyStop(s, s', t);
    OnlyStopKeeps(s, s', t);
  }

  lemma StopCallReturnsKeeps(s: State, t: StopId, a: Answer, ok: bool, s': State)
    requires Inv(s) && StopCallReturns(s, t, a, ok, s')
    ensures Inv(s') && Forward(s, s')
  {
    hide Inv, StopMild, StopOk;
    StopCallContext(s, t);
    var c, d := s.controllers[s.stops[t].controller], s'.controllers[s.stops[t].controller];
    StopReturnsShape(s, c, s.stops[t].pc.stop, a, ok, d);
    hide StopReturns, ReturnShape;
    StopMoves(t, s.stops[t], s.stops[t].pc.stop, c, s'.stops[t], d);
    assert OnlyStop(s, s', t);
    OnlyStopKeeps(s, s', t);
  }

  lemma StopLockKeeps(s: State, t: StopId, s': State)
    requires Inv(s) && (EnterStop(s, t, s') || LeaveStop(s, t, s'))
    ensures Inv(s') && Forward(s, s')
  {
    hide Inv;
    StopCallContext(s, t);
    assert OnlyStop(s, s', t);
    OnlyStopKeeps(s, s', t);
  }

  lemma StopCallKeeps(s: State, t: StopId, a: Answer, s': State)
    requires Inv(s) && StopStep(s, t, a, s')
    ensures Inv(s') && Forward(s, s')
  {
    hide Inv, StopCallGoes, StopCallReturns, EnterStop, LeaveStop;
    if EnterStop(s, t, s') || LeaveStop(s, t, s') {
      StopLockKeeps(s, t, s');
    } else if exists next :: StopCallGoes(s, t, a, next, s') {
      var next :| StopCallGoes(s, t, a, next, s');
      StopCallGoesKeeps(s, t, a, next, s');
    } else {
      var ok :| StopCallReturns(s, t, a, ok, s');
      StopCallReturnsKeeps(s, t, a, ok, s');
    }
  }
}
