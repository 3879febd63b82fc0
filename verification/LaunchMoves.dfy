/** A step of one launch, judged by what it does to the launch and to its controller. */
module LaunchMoves {
  import opened Wrappers
  import opened LaunchState
  import opened LaunchSteps
  import opened LaunchInvariant
  import opened LaunchFrames

  /** What the step of launch l may do to the controller it shares with other goroutines. */
  predicate Mild(l: LaunchId, launch: Launch, c: Controller, d: Controller) {
    && d.instanceId == c.instanceId && d.modelId == c.modelId && d.pipelineId == c.pipelineId && d.entryId == c.entryId
    && d.creator == c.creator && d.born == c.born
    && (d.preSpawnToken == c.preSpawnToken || c.creator == l)
    && (d.active == c.active || (c.born && d.active.None? && c.active.Some? && c.active.value.claim == l))
    && (d.mu == c.mu || c.mu.None? || c.mu == Some(LaunchHolder(l)))
    && (d.lifecycleMu == c.lifecycleMu || c.lifecycleMu.None? || c.lifecycleMu == Some(LaunchHolder(l)))
    && (d.process == c.process || c.process.None? || c.process == Some(l))
    && ((d.phase == c.phase && d.identity == c.identity && d.run == c.run) || c.mu.None? || c.mu == Some(LaunchHolder(l)))
    && (d.run == c.run || (d.run == Some(l) && Owning(launch.pc) && c.active.Some? && c.active.value.claim == l))
    && ((d.run == c.run && d.clobbered == c.clobbered) || (c.born && !c.preSpawnToken))
    && (c.clobbered ==> d.clobbered)
    && (d.Visible() ==> c.Visible())
  }

  /** The launch stays outside arbitration and the references of the controller to it stay right. */
  predicate Linked(l: LaunchId, launch: Launch, c: Controller, next: Launch, d: Controller) {
    && next.controller == launch.controller && next.owner == launch.owner && next.restart == launch.restart
    && (next.claim.Some? ==> launch.claim.Some? && next.claim.value.opId == launch.claim.value.opId)
    && !Arbitrating(launch.pc) && !Arbitrating(next.pc)
    && !d.phase.Unknown? && !d.phase.Stale? && !d.phase.Orphan?
    && (d.active.Some? && d.active.value.claim == l ==> Owning(next.pc))
    && (d.process == Some(l) ==> next.process.Alive? || next.process.Dead?)
    && (d.process.Some? ==> d.process == c.process || d.process == Some(l))
    && (launch.started ==> next.started)
    && (d.run == Some(l) && c.run != Some(l) ==> next.started)
    && (next.started && !launch.started ==> d.born && !d.preSpawnToken)
    && (d.preSpawnToken ==> c.preSpawnToken)
    && (Open(next) && !Open(launch) ==> Owning(launch.pc))
    && (next.spawns == launch.spawns || (next.spawns == launch.spawns + 1 && launch.pc.Spawn?))
    && (next.outcome == launch.outcome || launch.outcome.NotReturned?)
    && (launch.rolledBack ==> next.rolledBack)
    && (d.clobbered ==> c.clobbered || next.rolledBack)
    && (launch.pc.Done? ==> next.pc.Done?) && (launch.pc.ArbWait? ==> next.pc.ArbWait?)
    && (Passed(launch) && !next.pc.Spawn? ==> Passed(next))
  }

  predicate Move(l: LaunchId, launch: Launch, c: Controller, next: Launch, d: Controller, max: nat) {
    Mild(l, launch, c, d) && Linked(l, launch, c, next, d) && LaunchOk(l, next, d, max)
  }

  /** The step leaves the phase and the run that other goroutines rely on. */
  predicate Calm(c: Controller, d: Controller) {
    d.run == c.run && (d.phase == c.phase || d.phase.Stopping?)
  }

  /** Nobody but l relies on the phase and the run of its controller. */
  predicate SoleWriter(s: State, l: LaunchId)
    requires Known(s, l)
  {
    forall m :: m in s.launches && m != l && s.launches[m].controller == s.launches[l].controller && Open(s.launches[m])
      ==> Before(s, l).clobbered
  }

  lemma MildIsHarmless(s: State, s': State, l: LaunchId, m: LaunchId)
    requires OnlyLaunch(s, s', l) && Known(s, l) && m in s.launches && m != l && s.launches[m].controller == s.launches[l].controller
    requires Mild(l, s.launches[l], Before(s, l), After(s, s', l))
    requires Calm(Before(s, l), After(s, s', l)) || After(s, s', l).clobbered || SoleWriter(s, l)
    requires AdmissionOk(m, s.launches[m], Before(s, l))
    ensures Undisturbed(m, s.launches[m], Before(s, l), After(s, s', l))
  {
  }

  lemma MoveIsHarmless(s: State, s': State, l: LaunchId)
    requires Tables(s) && LaunchesOk(s) && OnlyLaunch(s, s', l)
    requires Mild(l, s.launches[l], Before(s, l), After(s, s', l))
    requires Calm(Before(s, l), After(s, s', l)) || After(s, s', l).clobbered || SoleWriter(s, l)
    ensures Harmless(s, s', l)
  {
    hide Calm, SoleWriter, Undisturbed;
    forall m | m in s.launches && m != l && s.launches[m].controller == s.launches[l].controller
      ensures Undisturbed(m, s.launches[m], Before(s, l), After(s, s', l))
    {
      assert AdmissionOk(m, s.launches[m], Before(s, l)) by {
        assert LaunchOk(m, s.launches[m], s.controllers[s.launches[m].controller], s.maxConcurrent);
      }
      MildIsHarmless(s, s', l, m);
    }
  }

  lemma LinkedReferences(s: State, s': State, l: LaunchId)
    requires OnlyLaunch(s, s', l) && ControllerOk(s, s.launches[l].controller)
    requires Mild(l, s.launches[l], Before(s, l), After(s, s', l))
    requires Linked(l, s.launches[l], Before(s, l), s'.launches[l], After(s, s', l))
    ensures ControllerOk(s', s.launches[l].controller)
  {
    var id := s.launches[l].controller;
    var c, d := Before(s, l), After(s, s', l);
    if d.run.Some? && d.run.value != l { assert d.run == c.run && s'.launches[d.run.value] == s.launches[d.run.value]; }
    if d.preSpawnToken || !d.born {
      assert NothingStarted(s, id);
      forall m | m in s'.launches && s'.launches[m].controller == id ensures !s'.launches[m].started {
        if m != l { assert s'.launches[m] == s.launches[m]; }
      }
    }
  }

  /** The counters move with the token and the slot of the step. */
  predicate Balanced(s: State, s': State, l: LaunchId)
    requires OnlyLaunch(s, s', l)
  {
    && s'.preSpawnInFlight - s.preSpawnInFlight == (if After(s, s', l).preSpawnToken then 1 else 0) - (if Before(s, l).preSpawnToken then 1 else 0)
    && s.free - s'.free == (if s'.launches[l].slot then 1 else 0) - (if s.launches[l].slot then 1 else 0)
    && s'.free >= 0
    && (s'.zeroSig <==> s'.draining && s'.preSpawnInFlight == 0)
    && RegistryKept(s, s') && s'.arbLocks == s.arbLocks && s'.opSeq >= s.opSeq
    && s.written <= s'.written
    && s'.draining == s.draining && s'.cancelled == s.cancelled
    && (forall id :: id in s'.durable ==> id in s.durable || (id == Before(s, l).instanceId && s.launches[l].pc.Create?))
    && (s'.launches[l].pc.Spawn? ==> s.launches[l].pc.Spawn? || Before(s, l).instanceId in s.durable)
    && (s'.launches[l].committed == s.launches[l].committed || (s'.launches[l].committed && !s.draining))
    && (s'.launches[l].outcome.Success? && !s.launches[l].outcome.Success? ==> Announced(s', l))
  }

  /** What a launch that goes on to start, wait or succeed must establish. */
  predicate Prepared(s: State, s': State, l: LaunchId)
    requires OnlyLaunch(s, s', l)
  {
    && (ReadyToStart(s'.launches[l]) ==> After(s, s', l).clobbered || NoOpenRun(s', s.launches[l].controller))
    && (s'.launches[l].pc.AwaitRun? ==> After(s, s', l).run == Some(s'.launches[l].pc.previous))
    && (s'.launches[l].outcome.Success? ==> (After(s, s', l).instanceId, Record(After(s, s', l).modelId, Running, Some(l))) in s'.written)
  }

  predicate GoodStep(s: State, s': State, l: LaunchId) {
    && OnlyLaunch(s, s', l)
    && Move(l, s.launches[l], Before(s, l), s'.launches[l], After(s, s', l), s.maxConcurrent)
    && (Calm(Before(s, l), After(s, s', l)) || After(s, s', l).clobbered || SoleWriter(s, l))
    && Balanced(s, s', l)
    && Prepared(s, s', l)
  }

  lemma GoneStays(s: State, s': State, l: LaunchId, c: ControllerId)
    requires Tables(s) && GoodStep(s, s', l) && Gone(s, c)
    ensures Gone(s', c)
  {
    hide LaunchOk, Calm, SoleWriter, Prepared, Announced;
    assert c in s.controllers.Keys;
    forall m | m in s'.launches && s'.launches[m].controller == c ensures Passed(s'.launches[m]) {
      assert m in s.launches.Keys;
      if m != l { assert s'.launches[m] == s.launches[m]; }
    }
  }

  lemma RetiredStays(s: State, s': State, l: LaunchId, c: ControllerId)
    requires GoodStep(s, s', l) && Retired(s, c)
    ensures Retired(s', c)
  {
    hide LaunchOk, Calm, SoleWriter, Prepared, Announced;
    assert c in s.controllers.Keys;
    forall m | m in s'.launches && s'.launches[m].controller == c ensures Refused(s', s'.launches[m]) {
      assert m in s.launches.Keys;
      if m != l { assert s'.launches[m] == s.launches[m]; }
    }
  }

  lemma BlameStays(s: State, s': State, l: LaunchId, c: ControllerId)
    requires GoodStep(s, s', l) && c in s'.controllers && Blamed(s, c)
    ensures Blamed(s', c)
  {
    hide Mild, LaunchOk, Calm, SoleWriter, Prepared, Announced, Balanced;
    assert c in s.controllers.Keys;
    if s'.controllers[c].clobbered {
      if s.controllers[c].clobbered {
        var m :| m in s.launches && s.launches[m].controller == c && s.launches[m].rolledBack;
        assert m in s.launches.Keys;
        if m != l { assert s'.launches[m] == s.launches[m]; }
        assert m in s'.launches && s'.launches[m].rolledBack;
      } else {
        assert c == s.launches[l].controller && s'.launches[l].rolledBack;
      }
    }
  }

  lemma StaysWhereItIs(s: State, s': State, l: LaunchId)
    requires GoodStep(s, s', l)
    ensures forall c :: c in s.controllers ==> c in s'.controllers && s'.controllers[c].instanceId == s.controllers[c].instanceId
    ensures s.draining ==> s'.preSpawnInFlight <= s.preSpawnInFlight
  {
    hide LaunchOk, Calm, SoleWriter, Prepared, Announced, RegistryKept, Passed;
    assert s'.controllers.Keys == s.controllers.Keys;
  }

  lemma GoodStepAdvances(s: State, s': State, l: LaunchId)
    requires Tables(s) && GoodStep(s, s', l)
    ensures Forward(s, s')
  {
    hide Tables, Mild, LaunchOk, Calm, SoleWriter, Prepared, Announced, Gone, Retired, Blamed, RegistryKept, Passed;
    StaysWhereItIs(s, s', l);
    forall c | c in s.controllers && Gone(s, c) ensures Gone(s', c) { GoneStays(s, s', l, c); }
    forall c | c in s.controllers && Retired(s, c) ensures Retired(s', c) { RetiredStays(s, s', l, c); }
    forall c | c in s'.controllers && Blamed(s, c) ensures Blamed(s', c) { BlameStays(s, s', l, c); }
    forall m | m in s.launches ensures m in s'.launches && Advances(s.draining, s.launches[m], s'.launches[m]) {
      if m != l { assert s'.launches[m] == s.launches[m]; }
    }
  }

  lemma GoodStepTables(s: State, s': State, l: LaunchId)
    requires Inv(s) && GoodStep(s, s', l)
    ensures Tables(s') && LaunchesOk(s') && ControllersOk(s') && StopsOk(s')
  {
    hide LaunchOk, ControllerOk, Harmless, StopOk, Calm, SoleWriter, Prepared, Announced;
    hide OperationsOk, ArbitrationOk, ScanOk, Exclusive, RestartsOk, CountsOk, DurableOk;
    MoveIsHarmless(s, s', l);
    LinkedReferences(s, s', l);
    MoveStaysInTables(s, s', l);
    LaunchesFrame(s, s', l);
    ControllersFrame(s, s', l);
    StopsFrame(s, s', l);
  }

  lemma MoveStaysInTables(s: State, s': State, l: LaunchId)
    requires Tables(s) && GoodStep(s, s', l)
    ensures Tables(s')
  {
    hide Tables, LaunchOk, Calm, SoleWriter, Prepared, Announced, Linked;
    TablesFrame(s, s', l);
  }

  lemma MoveIsQuiet(s: State, s': State, l: LaunchId)
    requires GoodStep(s, s', l)
    ensures Quiet(s, s', l)
  {
    hide LaunchOk, Calm, SoleWriter, Prepared, Announced, Controller.Visible;
  }

  lemma GoodStepQuiet(s: State, s': State, l: LaunchId)
    requires Inv(s) && GoodStep(s, s', l) && Tables(s')
    ensures OperationsOk(s') && ArbitrationOk(s') && ScanOk(s') && Exclusive(s')
  {
    hide Tables, LaunchesOk, ControllersOk, StopsOk, RestartsOk, CountsOk, DurableOk, OperationsOk, ArbitrationOk, ScanOk, Exclusive;
    hide OnlyLaunch, Quiet, Move, Balanced, Prepared, Calm, SoleWriter;
    MoveIsQuiet(s, s', l);
    QuietOperations(s, s', l);
    QuietArbitration(s, s', l);
    QuietScan(s, s', l);
    QuietExclusive(s, s', l);
  }

  lemma GoodStepCounts(s: State, s': State, l: LaunchId)
    requires CountsOk(s) && GoodStep(s, s', l)
    ensures CountsOk(s')
  {
    hide Move, Calm, SoleWriter, Prepared, Announced, Held, Tokens, RegistryKept;
    HeldFrame(s, s', l);
    TokensFrame(s, s', s.launches[l].controller);
  }

  lemma GoodStepReady(s: State, s': State, l: LaunchId)
    requires Tables(s) && LaunchesOk(s) && RestartsOk(s) && DurableOk(s) && GoodStep(s, s', l) && Tables(s')
    ensures RestartsOk(s') && DurableOk(s')
  {
    hide Tables, LaunchesOk, LaunchOk, RestartsOk, DurableOk, NoOpenRun, ReadyToStart, Open, Owning, Calm, SoleWriter, Announced,
         RegistryKept;
    OwnersAreUnique(s);
    RestartFrame(s, s', l);
    DurableFrame(s, s', l);
  }

  lemma GoodStepKeepsInv(s: State, s': State, l: LaunchId)
    requires Inv(s) && GoodStep(s, s', l)
    ensures Inv(s') && Forward(s, s')
  {
    hide Tables, LaunchesOk, ControllersOk, StopsOk, OperationsOk, ArbitrationOk, ScanOk, Exclusive, RestartsOk, CountsOk, DurableOk;
    hide GoodStep, Forward;
    GoodStepAdvances(s, s', l);
    GoodStepTables(s, s', l);
    GoodStepQuiet(s, s', l);
    GoodStepCounts(s, s', l);
    GoodStepReady(s, s', l);
  }
}
