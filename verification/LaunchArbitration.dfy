/** Arbitration keeps the invariant: the steps under the per-model lock and the publication. */
module LaunchArbitration {
  import opened Wrappers
  import opened LaunchState
  import opened LaunchSteps
  import opened LaunchInvariant
  import opened LaunchFrames
  import opened LaunchKeeps

  /** A launch that has not been admitted moves inside arbitration, or leaves it. */
  predicate Moves(s: State, l: LaunchId, next: Pc, s': State) {
    && OnlyLaunch(s, s', l)
    && (s.launches[l].pc.ArbWait? || Arbitrating(s.launches[l].pc))
    && (Arbitrating(next) || next.Done?)
    && s'.launches[l] == s.launches[l].(pc := next)
    && s'.controllers == s.controllers && s'.registry == s.registry
    && s'.preSpawnInFlight == s.preSpawnInFlight && s'.free == s.free && s'.zeroSig == s.zeroSig && s'.draining == s.draining
    && s'.cancelled == s.cancelled
    && (s.launches[l].pc.ArbWait? ==> next.ArbCheck?)
    && (s.launches[l].pc.ArbCheck? && s.cancelled ==> next.Done?)
    && s'.written == s.written && s'.opSeq >= s.opSeq && s'.durable == s.durable
  }

  lemma UnadmittedMoves(l: LaunchId, launch: Launch, c: Controller, next: Pc, max: nat)
    requires Joined(l, launch, c, max) && (launch.pc.ArbWait? || Arbitrating(launch.pc)) && (Arbitrating(next) || next.Done?)
    ensures LaunchOk(l, launch.(pc := next), c, max)
    ensures launch.claim.None? && launch.outcome.NotReturned? && !Open(launch) && !Owning(launch.pc) && !ReadyToStart(launch.(pc := next))
  {
  }

  lemma UnadmittedReferences(s: State, l: LaunchId, next: Pc, s': State)
    requires Moves(s, l, next, s') && ControllerOk(s, s.launches[l].controller) && !Owning(s.launches[l].pc)
    ensures ControllerOk(s', s.launches[l].controller)
  {
    var id := s.launches[l].controller;
    var c := s.controllers[id];
    if c.run.Some? && c.run.value != l { assert s'.launches[c.run.value] == s.launches[c.run.value]; }
    if c.preSpawnToken || !c.born {
      forall m | m in s'.launches && s'.launches[m].controller == id ensures !s'.launches[m].started {
        if m != l { assert s'.launches[m] == s.launches[m]; }
      }
    }
  }

  lemma MovesOperations(s: State, l: LaunchId, next: Pc, s': State)
    requires OperationsOk(s) && Moves(s, l, next, s')
    ensures OperationsOk(s')
  {
    forall m | m in s'.launches ensures m in s.launches && s'.launches[m].claim == s.launches[m].claim {
      assert m in s.launches.Keys;
      if m != l { assert s'.launches[m] == s.launches[m]; }
    }
  }

  lemma MovesTables(s: State, l: LaunchId, next: Pc, s': State)
    requires Tables(s) && Moves(s, l, next, s')
    ensures Tables(s') && Harmless(s, s', l)
  {
    hide Tables;
    TablesFrame(s, s', l);
  }

  lemma MovesKeeps(s: State, l: LaunchId, next: Pc, s': State)
    requires Inv(s) && Moves(s, l, next, s')
    ensures Tables(s') && LaunchesOk(s') && ControllersOk(s') && StopsOk(s') && OperationsOk(s')
  {
    hide Tables, LaunchesOk, ControllersOk, StopsOk, OperationsOk, ArbitrationOk, ScanOk, Exclusive, RestartsOk, CountsOk, DurableOk;
    hide LaunchOk, Joined, Harmless;
    ContextOf(s, l);
    UnadmittedMoves(l, s.launches[l], Before(s, l), next, s.maxConcurrent);
    OwnControllerOk(s, l);
    UnadmittedReferences(s, l, next, s');
    MovesTables(s, l, next, s');
    LaunchesFrame(s, s', l);
    ControllersFrame(s, s', l);
    StopsFrame(s, s', l);
    MovesOperations(s, l, next, s');
  }

  lemma OwnControllerOk(s: State, l: LaunchId)
    requires Inv(s) && l in s.launches
    ensures ControllerOk(s, s.launches[l].controller)
  {
    hide LaunchesOk, StopsOk, OperationsOk, ArbitrationOk, ScanOk, Exclusive, RestartsOk, CountsOk, DurableOk, ControllerOk;
  }

  lemma MovesCount(s: State, l: LaunchId, next: Pc, s': State)
    requires Inv(s) && Moves(s, l, next, s') && Tables(s')
    ensures Exclusive(s') && RestartsOk(s') && CountsOk(s') && DurableOk(s')
  {
    hide Tables, LaunchesOk, ControllersOk, StopsOk, OperationsOk, ArbitrationOk, ScanOk, Exclusive, RestartsOk, CountsOk, DurableOk, Joined;
    ContextOf(s, l);
    UnadmittedMoves(l, s.launches[l], Before(s, l), next, s.maxConcurrent);
    MovesTally(s, l, next, s');
    MovesExclusive(s, l, next, s');
    OwnersAreUnique(s);
    hide Moves, UniqueOwners;
    MovesReady(s, l, next, s');
  }

  lemma MovesTally(s: State, l: LaunchId, next: Pc, s': State)
    requires CountsOk(s) && Moves(s, l, next, s')
    ensures CountsOk(s')
  {
    hide Held, Tokens;
    HeldFrame(s, s', l);
    TokensFrame(s, s', s.launches[l].controller);
  }

  lemma MovesExclusive(s: State, l: LaunchId, next: Pc, s': State)
    requires Tables(s) && Tables(s') && Exclusive(s) && Moves(s, l, next, s')
    ensures Exclusive(s')
  {
    hide Siblings, Controller.Visible;
  }

  lemma MovesReady(s: State, l: LaunchId, next: Pc, s': State)
    requires Tables(s) && Tables(s') && RestartsOk(s) && DurableOk(s) && UniqueOwners(s) && Moves(s, l, next, s')
    requires s.launches[l].outcome.NotReturned? && !Open(s.launches[l]) && !ReadyToStart(s.launches[l].(pc := next))
    ensures RestartsOk(s') && DurableOk(s')
  {
    hide Tables, RestartsOk, DurableOk, UniqueOwners, NoOpenRun, ReadyToStart;
    RestartFrame(s, s', l);
    DurableFrame(s, s', l);
  }

  /** Scans of other launches look at the same controllers and registry. */
  lemma MovesScan(s: State, l: LaunchId, next: Pc, s': State)
    requires Inv(s) && Moves(s, l, next, s') && Tables(s')
    requires forall id :: Examined(next, id) && id in s.registry ==> !Conflicts(s, s.launches[l], id)
    ensures ScanOk(s')
  {
    hide LaunchesOk, ControllersOk, StopsOk, Exclusive, RestartsOk, CountsOk, DurableOk, OperationsOk, ArbitrationOk;
    forall m, id | m in s'.launches && Examined(s'.launches[m].pc, id) && id in s'.registry
      ensures !Conflicts(s', s'.launches[m], id)
    {
      if m != l {
        assert s'.launches[m] == s.launches[m];
        assert !Conflicts(s, s.launches[m], id);
      }
    }
  }

  /** The lock table after a step that takes, keeps or returns the lock of the launch's model. */
  lemma MovesLock(s: State, l: LaunchId, next: Pc, s': State)
    requires Tables(s) && ArbitrationOk(s) && Moves(s, l, next, s') && Tables(s')
    requires Arbitrating(s.launches[l].pc) ==> s'.arbLocks == if next.Done? then s.arbLocks - {Before(s, l).modelId} else s.arbLocks
    requires s.launches[l].pc.ArbWait? ==> next.ArbCheck? && Before(s, l).modelId !in s.arbLocks && s'.arbLocks == s.arbLocks[Before(s, l).modelId := l]
    requires s.launches[l].pc.ArbCheck? && s.launches[l].restart && !next.Done? ==> Before(s, l).active.None?
    ensures ArbitrationOk(s')
  {
    forall m | m in s'.launches && Arbitrating(s'.launches[m].pc)
      ensures var model := s'.controllers[s'.launches[m].controller].modelId; model in s'.arbLocks && s'.arbLocks[model] == m
    {
      if m != l { assert s'.launches[m] == s.launches[m]; }
    }
  }

  lemma MovesRetired(s: State, l: LaunchId, next: Pc, s': State)
    requires Tables(s) && Moves(s, l, next, s')
    ensures forall c :: c in s.controllers && Retired(s, c) ==> Retired(s', c)
  {
    forall c | c in s.controllers && Retired(s, c) ensures Retired(s', c) {
      forall m | m in s'.launches && s'.launches[m].controller == c ensures Refused(s', s'.launches[m]) {
        assert m in s.launches.Keys && Refused(s, s.launches[m]);
      }
    }
  }

  lemma MovesBlamed(s: State, l: LaunchId, next: Pc, s': State)
    requires Tables(s) && Moves(s, l, next, s')
    ensures forall c :: c in s'.controllers && Blamed(s, c) ==> Blamed(s', c)
  {
    forall c | c in s'.controllers && Blamed(s, c) ensures Blamed(s', c) {
      if c in s.controllers && s.controllers[c].clobbered {
        var m :| m in s.launches && s.launches[m].controller == c && s.launches[m].rolledBack;
        assert m in s'.launches.Keys && s'.launches[m].rolledBack;
      }
    }
  }

  lemma MovesForward(s: State, l: LaunchId, next: Pc, s': State)
    requires Tables(s) && Moves(s, l, next, s')
    ensures Forward(s, s')
  {
    hide Gone, Retired, Blamed;
    MovesGone(s, l, next, s');
    MovesRetired(s, l, next, s');
    MovesBlamed(s, l, next, s');
  }

  lemma MovesGone(s: State, l: LaunchId, next: Pc, s': State)
    requires Tables(s) && Moves(s, l, next, s')
    ensures forall c :: c in s.controllers && Gone(s, c) ==> Gone(s', c)
  {
    forall c | c in s.controllers && Gone(s, c) ensures Gone(s', c) {
      forall m | m in s'.launches && s'.launches[m].controller == c ensures Passed(s'.launches[m]) {
        assert m in s.launches.Keys && Passed(s.launches[m]);
        if m != l { assert s'.launches[m] == s.launches[m]; }
      }
    }
  }

  lemma MoveKeeps(s: State, l: LaunchId, next: Pc, s': State)
    requires Inv(s) && Moves(s, l, next, s')
    requires Tables(s') ==> ArbitrationOk(s')
    requires forall id :: Examined(next, id) && id in s.registry ==> !Conflicts(s, s.launches[l], id)
    ensures Inv(s') && Forward(s, s')
  {
    hide LaunchesOk, ControllersOk, StopsOk, Exclusive, RestartsOk, CountsOk, DurableOk, OperationsOk, Conflicts, Examined, ArbitrationOk, ScanOk;
    MovesForward(s, l, next, s');
    hide Forward;
    MovesKeeps(s, l, next, s');
    MovesCount(s, l, next, s');
    MovesScan(s, l, next, s');
  }

  lemma AcquireKeeps(s: State, l: LaunchId, s': State)
    requires Inv(s) && AcquireArbitration(s, l, s')
    ensures Inv(s') && Forward(s, s')
  {
    hide LaunchesOk, ControllersOk, StopsOk, Exclusive, RestartsOk, CountsOk, DurableOk, OperationsOk, Conflicts, ArbitrationOk, ScanOk;
    assert Moves(s, l, ArbCheck, s');
    if Tables(s') { MovesLock(s, l, ArbCheck, s'); }
    MoveKeeps(s, l, ArbCheck, s');
  }

  lemma RejectKeeps(s: State, l: LaunchId, a: Answer, s': State)
    requires Inv(s) && Reject(s, l, a, s')
    ensures Inv(s') && Forward(s, s')
  {
    hide LaunchesOk, ControllersOk, StopsOk, Exclusive, RestartsOk, CountsOk, DurableOk, OperationsOk, Conflicts, ArbitrationOk, ScanOk;
    assert Moves(s, l, Done, s');
    if Tables(s') { MovesLock(s, l, Done, s'); }
    MoveKeeps(s, l, Done, s');
  }

  lemma CheckTargetKeeps(s: State, l: LaunchId, s': State)
    requires Inv(s) && CheckTarget(s, l, s')
    ensures Inv(s') && Forward(s, s')
  {
    hide LaunchesOk, ControllersOk, StopsOk, Exclusive, RestartsOk, CountsOk, DurableOk, OperationsOk, Conflicts, ArbitrationOk, ScanOk;
    var next := Scan(s.registry.Keys);
    assert Moves(s, l, next, s');
    if Tables(s') { MovesLock(s, l, next, s'); }
    MoveKeeps(s, l, next, s');
  }

  lemma ExamineKeeps(s: State, l: LaunchId, a: Answer, s': State)
    requires Inv(s) && Examine(s, l, a, s')
    ensures Inv(s') && Forward(s, s')
  {
    hide LaunchesOk, ControllersOk, StopsOk, Exclusive, RestartsOk, CountsOk, DurableOk, OperationsOk, Conflicts, ArbitrationOk;
    var next := Scan(s.launches[l].pc.todo - {a.id});
    assert Moves(s, l, next, s');
    if Tables(s') { MovesLock(s, l, next, s'); }
    forall id | Examined(next, id) && id in s.registry ensures !Conflicts(s, s.launches[l], id) {
      if id != a.id { assert Examined(s.launches[l].pc, id); }
    }
    MoveKeeps(s, l, next, s');
  }

  lemma PassKeeps(s: State, l: LaunchId, a: Answer, s': State)
    requires Inv(s) && Pass(s, l, a, s')
    ensures Inv(s') && Forward(s, s')
  {
    hide LaunchesOk, ControllersOk, StopsOk, Exclusive, RestartsOk, CountsOk, DurableOk, OperationsOk, Conflicts, ArbitrationOk;
    var next := s'.launches[l].pc;
    assert Moves(s, l, next, s');
    if Tables(s') { MovesLock(s, l, next, s'); }
    forall id | Examined(next, id) && id in s.registry ensures !Conflicts(s, s.launches[l], id) {
      assert Examined(s.launches[l].pc, id);
    }
    MoveKeeps(s, l, next, s');
  }

  /* ---- publication ---- */

  lemma PublishLocal(l: LaunchId, launch: Launch, c: Controller, next: Launch, d: Controller, opId: int, max: nat)
    requires Joined(l, launch, c, max) && launch.pc.Publish? && c.mu.None? && c.active.None?
    requires var claim := SpawnClaim(c.modelId, launch.owner, c.instanceId, opId, launch.restart, false);
             next == launch.(pc := if launch.restart then Lifecycle else Slot, claim := Some(claim))
    requires d == c.(active := Some(Operation(opId, launch.owner, l)), preSpawnToken := c.preSpawnToken || !launch.restart, born := true)
    ensures LaunchOk(l, next, d, max)
    ensures launch.claim.None? && !launch.slot && !Open(launch) && (!launch.restart ==> !c.preSpawnToken && !c.born && c.creator == l)
    ensures launch.restart ==> c.born
    ensures launch.outcome.NotReturned?
  {
  }

  lemma PublishHarmless(s: State, l: LaunchId, s': State)
    requires Tables(s) && LaunchesOk(s) && StopsOk(s) && OnlyLaunch(s, s', l)
    requires Before(s, l).active.None? && (!s.launches[l].restart ==> Before(s, l).creator == l) && (s.launches[l].restart ==> Before(s, l).born)
    requires After(s, s', l) == Before(s, l).(active := After(s, s', l).active, preSpawnToken := Before(s, l).preSpawnToken || !s.launches[l].restart, born := true)
    ensures Harmless(s, s', l)
  {
  }

  lemma PublishReferences(s: State, l: LaunchId, s': State)
    requires OnlyLaunch(s, s', l) && ControllerOk(s, s.launches[l].controller)
    requires After(s, s', l) == Before(s, l).(active := After(s, s', l).active, preSpawnToken := After(s, s', l).preSpawnToken, born := true)
    requires After(s, s', l).active.Some? && After(s, s', l).active.value.claim == l && Owning(s'.launches[l].pc)
    requires s'.launches[l].started == s.launches[l].started && s'.launches[l].process == s.launches[l].process
    requires s'.launches[l].restart == s.launches[l].restart
    requires After(s, s', l).preSpawnToken ==> Before(s, l).preSpawnToken || !Before(s, l).born
    ensures ControllerOk(s', s.launches[l].controller)
  {
    var id := s.launches[l].controller;
    var c := s.controllers[id];
    if c.run.Some? && c.run.value != l { assert s'.launches[c.run.value] == s.launches[c.run.value]; }
    if After(s, s', l).preSpawnToken {
      forall m | m in s'.launches && s'.launches[m].controller == id ensures !s'.launches[m].started {
        if m != l { assert s'.launches[m] == s.launches[m]; }
      }
    }
  }

  /** The claim of a launch that passed the scan is compatible with everything it makes visible. */
  lemma PublishExclusive(s: State, l: LaunchId, s': State)
    requires Tables(s) && Tables(s') && ScanOk(s) && Exclusive(s) && OnlyLaunch(s, s', l)
    requires s.launches[l].pc.Publish? && Attributed(s.launches[l], Before(s, l))
    requires Before(s, l).pipelineId != "" ==> Before(s, l).entryId != ""
    requires After(s, s', l) == Before(s, l).(active := After(s, s', l).active, preSpawnToken := After(s, s', l).preSpawnToken, born := true)
    requires forall id :: id in s'.registry ==> (id in s.registry && s'.registry[id] == s.registry[id]) || s'.registry[id] == s.launches[l].controller
    ensures Exclusive(s')
  {
    forall i, j | i in s'.registry && j in s'.registry && i != j && Together(s'.controllers[s'.registry[i]], s'.controllers[s'.registry[j]])
      ensures Siblings(s'.controllers[s'.registry[i]], s'.controllers[s'.registry[j]])
    {
      if s'.registry[i] == s.launches[l].controller {
        PublishedSibling(s, l, s', j);
      } else if s'.registry[j] == s.launches[l].controller {
        PublishedSibling(s, l, s', i);
      } else {
        assert i in s.registry && j in s.registry;
      }
    }
  }

  predicate Together(c: Controller, d: Controller) { c.modelId == d.modelId && c.Visible() && d.Visible() }

  lemma PublishedSibling(s: State, l: LaunchId, s': State, id: InstanceId)
    requires Tables(s) && Tables(s') && ScanOk(s) && OnlyLaunch(s, s', l)
    requires s.launches[l].pc.Publish? && Attributed(s.launches[l], Before(s, l))
    requires Before(s, l).pipelineId != "" ==> Before(s, l).entryId != ""
    requires id in s.registry && id in s'.registry && s'.registry[id] == s.registry[id] && s.registry[id] != s.launches[l].controller
    requires Before(s, l).modelId == s.controllers[s.registry[id]].modelId && s.controllers[s.registry[id]].Visible()
    ensures Siblings(Before(s, l), s.controllers[s.registry[id]]) && Siblings(s.controllers[s.registry[id]], Before(s, l))
  {
    assert Examined(s.launches[l].pc, id);
    assert !Conflicts(s, s.launches[l], id);
    assert id != Before(s, l).instanceId;
  }

  lemma PublishOperations(s: State, l: LaunchId, s': State)
    requires OperationsOk(s) && OnlyLaunch(s, s', l)
    requires s'.opSeq == s.opSeq + 1 && s'.launches[l].claim.Some? && s'.launches[l].claim.value.opId == s.opSeq + 1
    ensures OperationsOk(s')
  {
    forall m | m in s'.launches && m != l ensures m in s.launches && s'.launches[m] == s.launches[m] { assert m in s.launches.Keys; }
  }

  lemma PublishArbitration(s: State, l: LaunchId, s': State)
    requires Tables(s) && Tables(s') && ArbitrationOk(s) && OnlyLaunch(s, s', l) && s.launches[l].pc.Publish?
    requires !Arbitrating(s'.launches[l].pc) && s'.arbLocks == s.arbLocks - {Before(s, l).modelId}
    requires After(s, s', l) == Before(s, l).(active := After(s, s', l).active, preSpawnToken := After(s, s', l).preSpawnToken, born := true)
    ensures ArbitrationOk(s')
  {
    forall m | m in s'.launches && Arbitrating(s'.launches[m].pc)
      ensures var model := s'.controllers[s'.launches[m].controller].modelId; model in s'.arbLocks && s'.arbLocks[model] == m
    {
      assert m != l && s'.launches[m] == s.launches[m];
    }
    forall m | m in s'.launches && s'.launches[m].restart && Arbitrating(s'.launches[m].pc) && !s'.launches[m].pc.ArbCheck?
      ensures s'.controllers[s'.launches[m].controller].active.None?
    {
      assert m != l && s'.launches[m] == s.launches[m];
    }
  }

  lemma PublishScan(s: State, l: LaunchId, s': State)
    requires Tables(s) && Tables(s') && ArbitrationOk(s) && ScanOk(s) && OnlyLaunch(s, s', l)
    requires s.launches[l].pc.Publish? && !Arbitrating(s'.launches[l].pc)
    requires After(s, s', l) == Before(s, l).(active := After(s, s', l).active, preSpawnToken := After(s, s', l).preSpawnToken, born := true)
    requires forall id :: id in s'.registry ==> (id in s.registry && s'.registry[id] == s.registry[id]) || s'.registry[id] == s.launches[l].controller
    ensures ScanOk(s')
  {
    forall m, id | m in s'.launches && Examined(s'.launches[m].pc, id) && id in s'.registry
      ensures !Conflicts(s', s'.launches[m], id)
    {
      assert m != l && s'.launches[m] == s.launches[m] && Arbitrating(s.launches[m].pc);
      if s'.registry[id] == s.launches[l].controller {
        assert s.controllers[s.launches[m].controller].modelId != Before(s, l).modelId;
      } else {
        assert !Conflicts(s, s.launches[m], id);
      }
    }
  }

  /** The publication in the shape the frames speak of. */
  predicate Published(s: State, l: LaunchId, s': State) {
    && OnlyLaunch(s, s', l)
    && s.launches[l].pc.Publish?
    && var launch := s.launches[l]; var c := Before(s, l);
    && var claim := SpawnClaim(c.modelId, launch.owner, c.instanceId, s.opSeq + 1, launch.restart, false);
    && s'.launches[l] == launch.(pc := if launch.restart then Lifecycle else Slot, claim := Some(claim))
    && After(s, s', l) == c.(active := Some(Operation(s.opSeq + 1, launch.owner, l)), preSpawnToken := c.preSpawnToken || !launch.restart, born := true)
    && (forall id :: id in s'.registry ==> (id in s.registry && s'.registry[id] == s.registry[id]) || (id == c.instanceId && s'.registry[id] == launch.controller))
    && s'.opSeq == s.opSeq + 1 && s'.arbLocks == s.arbLocks - {c.modelId}
    && s'.preSpawnInFlight == s.preSpawnInFlight + (if launch.restart then 0 else 1)
    && s'.free == s.free && s'.draining == s.draining && s'.cancelled == s.cancelled && s'.zeroSig == s.zeroSig && s'.written == s.written
    && c.mu.None? && !s.draining && s'.durable == s.durable
  }

  lemma PublishShape(s: State, l: LaunchId, s': State)
    requires PublishClaim(s, l, s') && (s.launches[l].restart ==> Before(s, l).born)
    ensures Published(s, l, s')
  {
  }

  lemma PublishRegisters(s: State, l: LaunchId, s': State)
    requires Tables(s) && Published(s, l, s')
    ensures Registered(s')
  {
  }

  lemma PublishTables(s: State, l: LaunchId, s': State)
    requires Inv(s) && Published(s, l, s')
    ensures Tables(s') && LaunchesOk(s') && ControllersOk(s') && StopsOk(s')
  {
    hide Inv, Tables, LaunchOk, Joined, ControllerOk, LaunchesOk, ControllersOk, StopsOk, Harmless;
    PublishTarget(s, l);
    PublishLocal(l, s.launches[l], Before(s, l), s'.launches[l], After(s, s', l), s.opSeq + 1, s.maxConcurrent);
    PublishHarmless(s, l, s');
    PublishReferences(s, l, s');
    PublishRegisters(s, l, s');
    TablesFrame(s, s', l);
    LaunchesFrame(s, s', l);
    ControllersFrame(s, s', l);
    StopsFrame(s, s', l);
  }

  lemma PublishReady(s: State, l: LaunchId, s': State)
    requires Inv(s) && Published(s, l, s') && Tables(s')
    ensures RestartsOk(s') && DurableOk(s')
  {
    hide LaunchOk, ControllersOk, StopsOk, Exclusive, OperationsOk, Conflicts, ScanOk, ArbitrationOk, NoOpenRun;
    PublishTarget(s, l);
    PublishLocal(l, s.launches[l], Before(s, l), s'.launches[l], After(s, s', l), s.opSeq + 1, s.maxConcurrent);
    OwnersAreUnique(s);
    RestartFrame(s, s', l);
    DurableFrame(s, s', l);
  }

  lemma PublishCounts(s: State, l: LaunchId, s': State)
    requires Inv(s) && Published(s, l, s')
    ensures CountsOk(s')
  {
    hide LaunchOk, LaunchesOk, ControllersOk, StopsOk, Exclusive, OperationsOk, Conflicts, ScanOk, ArbitrationOk, NoOpenRun;
    PublishTarget(s, l);
    PublishLocal(l, s.launches[l], Before(s, l), s'.launches[l], After(s, s', l), s.opSeq + 1, s.maxConcurrent);
    HeldFrame(s, s', l);
    TokensFrame(s, s', s.launches[l].controller);
  }

  lemma PublishGone(s: State, l: LaunchId, s': State)
    requires Tables(s) && Published(s, l, s') && (!s.launches[l].restart ==> !Before(s, l).born)
    ensures forall c :: c in s.controllers && Gone(s, c) ==> Gone(s', c)
  {
    forall c | c in s.controllers && Gone(s, c) ensures Gone(s', c) {
      assert c in s.controllers.Keys;
      forall m | m in s'.launches && s'.launches[m].controller == c ensures Passed(s'.launches[m]) {
        assert m in s.launches.Keys;
        if m != l { assert s'.launches[m] == s.launches[m]; }
      }
    }
  }

  lemma PublishRetired(s: State, l: LaunchId, s': State)
    requires Tables(s) && Published(s, l, s') && (!s.launches[l].restart ==> !Before(s, l).born)
    ensures forall c :: c in s.controllers && Retired(s, c) ==> Retired(s', c)
  {
    forall c | c in s.controllers && Retired(s, c) ensures Retired(s', c) {
      assert c != s.launches[l].controller;
      forall m | m in s'.launches && s'.launches[m].controller == c ensures Refused(s', s'.launches[m]) {
        assert m in s.launches.Keys && Refused(s, s.launches[m]);
      }
    }
  }

  lemma PublishBlamed(s: State, l: LaunchId, s': State)
    requires Tables(s) && Published(s, l, s')
    ensures forall c :: c in s'.controllers && Blamed(s, c) ==> Blamed(s', c)
  {
    forall c | c in s'.controllers && Blamed(s, c) ensures Blamed(s', c) {
      if c in s.controllers && s.controllers[c].clobbered {
        var m :| m in s.launches && s.launches[m].controller == c && s.launches[m].rolledBack;
        assert m in s'.launches.Keys && s'.launches[m].rolledBack;
      }
    }
  }

  lemma PublishForward(s: State, l: LaunchId, s': State)
    requires Tables(s) && Published(s, l, s') && (!s.launches[l].restart ==> !Before(s, l).born)
    ensures Forward(s, s')
  {
    hide Gone, Retired, Blamed;
    PublishGone(s, l, s');
    PublishRetired(s, l, s');
    PublishBlamed(s, l, s');
    forall m | m in s.launches ensures m in s'.launches && Advances(s.draining, s.launches[m], s'.launches[m]) {
      if m != l { assert s'.launches[m] == s.launches[m]; }
    }
  }

  lemma PublishKeeps(s: State, l: LaunchId, s': State)
    requires Inv(s) && PublishClaim(s, l, s')
    ensures Inv(s') && Forward(s, s')
  {
    assert l in s.launches && s.launches[l].pc.Publish?;
    hide PublishClaim, LaunchesOk, ControllersOk, StopsOk, Exclusive, RestartsOk, DurableOk, OperationsOk, ScanOk, ArbitrationOk, CountsOk,
         Forward;
    PublishTarget(s, l);
    PublishShape(s, l, s');
    PublishForward(s, l, s');
    PublishTables(s, l, s');
    PublishOperations(s, l, s');
    PublishArbitration(s, l, s');
    PublishScan(s, l, s');
    PublishExclusive(s, l, s');
    PublishReady(s, l, s');
    PublishCounts(s, l, s');
  }

  lemma PublishTarget(s: State, l: LaunchId)
    requires Inv(s) && l in s.launches && s.launches[l].pc.Publish?
    ensures Before(s, l).active.None? && ControllerOk(s, s.launches[l].controller) && Attributed(s.launches[l], Before(s, l))
    ensures Before(s, l).pipelineId != "" ==> Before(s, l).entryId != ""
    ensures Joined(l, s.launches[l], Before(s, l), s.maxConcurrent) && (s.launches[l].restart <==> Before(s, l).born)
    ensures Tables(s) && LaunchesOk(s) && ControllersOk(s) && StopsOk(s)
  {
    ContextOf(s, l);
    assert AdmissionOk(l, s.launches[l], Before(s, l)) && Attributed(s.launches[l], Before(s, l)) by {
      assert LaunchOk(l, s.launches[l], Before(s, l), s.maxConcurrent);
    }
    assert ControllerOk(s, s.launches[l].controller);
  }
}
