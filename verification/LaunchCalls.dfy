/** New calls, stops, cleanups and the environment keep the invariant. */
module LaunchCalls {
  import opened Wrappers
  import opened LaunchState
  import opened LaunchSteps
  import opened LaunchInvariant
  import opened LaunchFrames

  /* ---- a new launch ---- */

  /** s' has one more launch, at most one more controller, and is otherwise s. */
  predicate Adds(s: State, l: LaunchId, s': State) {
    && l !in s.launches && l in s'.launches
    && s'.launches == s.launches[l := s'.launches[l]]
    && (forall c :: c in s.controllers ==> c in s'.controllers && s'.controllers[c] == s.controllers[c])
    && s' == s.(launches := s'.launches, controllers := s'.controllers)
    && s'.launches[l].pc.ArbWait? && s'.launches[l].claim.None? && !s'.launches[l].slot && !s'.launches[l].started
    && s'.launches[l].waiter.NoWaiter? && s'.launches[l].outcome.NotReturned?
  }

  lemma AddsControllers(s: State, l: LaunchId, s': State, id: ControllerId)
    requires Adds(s, l, s') && id in s.controllers && ControllerOk(s, id)
    ensures ControllerOk(s', id)
  {
    forall m | m in s'.launches && s'.launches[m].controller == id && (s.controllers[id].preSpawnToken || !s.controllers[id].born)
      ensures !s'.launches[m].started
    {
      if m != l { assert m in s.launches && s'.launches[m] == s.launches[m]; }
    }
  }

  lemma SameAt(s: State, l: LaunchId, s': State, id: ControllerId)
    requires Adds(s, l, s') && id in s.controllers
    ensures id in s'.controllers && s'.controllers[id] == s.controllers[id] && s'.registry == s.registry && s'.arbLocks == s.arbLocks
  {
  }

  lemma AddsScan(s: State, l: LaunchId, s': State)
    requires Tables(s) && ScanOk(s) && Adds(s, l, s') && Tables(s')
    ensures ScanOk(s')
  {
    hide Siblings, Controller.Visible;
    forall m, id | m in s'.launches && Examined(s'.launches[m].pc, id) && id in s'.registry
      ensures !Conflicts(s', s'.launches[m], id)
    {
      assert m != l && s'.launches[m] == s.launches[m];
      assert !Conflicts(s, s.launches[m], id);
      SameAt(s, l, s', s.registry[id]);
      SameAt(s, l, s', s.launches[m].controller);
    }
  }

  lemma AddsExclusive(s: State, l: LaunchId, s': State)
    requires Tables(s) && Exclusive(s) && Adds(s, l, s') && Tables(s')
    ensures Exclusive(s')
  {
    hide Siblings, Controller.Visible;
    forall i | i in s'.registry
      ensures i in s.registry && s'.registry[i] == s.registry[i] && s'.controllers[s'.registry[i]] == s.controllers[s.registry[i]]
    {
      SameAt(s, l, s', s.registry[i]);
    }
  }

  lemma AddsLocks(s: State, l: LaunchId, s': State)
    requires Tables(s) && ArbitrationOk(s) && StopsOk(s) && Adds(s, l, s') && Tables(s')
    ensures ArbitrationOk(s') && StopsOk(s')
  {
  }

  lemma AddsOperations(s: State, l: LaunchId, s': State)
    requires OperationsOk(s) && Adds(s, l, s')
    ensures OperationsOk(s')
  {
  }

  lemma AddsRest(s: State, l: LaunchId, s': State)
    requires Inv(s) && Adds(s, l, s') && Tables(s')
    ensures ScanOk(s') && Exclusive(s') && OperationsOk(s') && ArbitrationOk(s') && StopsOk(s')
  {
    hide Tables, LaunchesOk, ControllersOk, StopsOk, OperationsOk, ArbitrationOk, ScanOk, Exclusive, RestartsOk, CountsOk, DurableOk, Adds;
    AddsScan(s, l, s');
    AddsExclusive(s, l, s');
    AddsOperations(s, l, s');
    AddsLocks(s, l, s');
  }

  lemma AddsReady(s: State, l: LaunchId, s': State)
    requires Inv(s) && Adds(s, l, s') && Tables(s')
    ensures RestartsOk(s') && DurableOk(s') && Held(s') == Held(s)
  {
    hide LaunchesOk, ControllersOk, CountsOk, ScanOk, Exclusive, OperationsOk, ArbitrationOk, StopsOk;
    forall m | m in s'.launches && ReadyToStart(s'.launches[m])
      ensures s'.controllers[s'.launches[m].controller].clobbered || NoOpenRun(s', s'.launches[m].controller)
    {
      assert m != l && s'.launches[m] == s.launches[m];
      var id := s.launches[m].controller;
      if !s.controllers[id].clobbered {
        assert NoOpenRun(s, id);
      }
    }
    forall m ensures m in Held(s') <==> m in Held(s) {
      if m in s'.launches.Keys && m != l { assert s'.launches[m] == s.launches[m]; }
    }
  }

  lemma AddsLaunches(s: State, l: LaunchId, s': State)
    requires Tables(s) && LaunchesOk(s) && Adds(s, l, s') && Tables(s')
    requires LaunchOk(l, s'.launches[l], s'.controllers[s'.launches[l].controller], s.maxConcurrent)
    ensures LaunchesOk(s')
  {
    hide LaunchOk;
    forall m | m in s'.launches ensures LaunchOk(m, s'.launches[m], s'.controllers[s'.launches[m].controller], s'.maxConcurrent) {
      if m != l {
        assert s'.launches[m] == s.launches[m];
        assert LaunchOk(m, s.launches[m], s.controllers[s.launches[m].controller], s.maxConcurrent);
      }
    }
  }

  lemma AddsRetired(s: State, l: LaunchId, s': State, c: ControllerId)
    requires Tables(s) && Adds(s, l, s') && Retired(s, c)
    requires (forall id :: id in s.registry ==> s.registry[id] != c) ==> s'.launches[l].controller != c
    ensures Retired(s', c)
  {
    forall m | m in s'.launches && s'.launches[m].controller == c ensures Refused(s', s'.launches[m]) {
      assert m != l && s'.launches[m] == s.launches[m];
    }
  }

  lemma AddsForward(s: State, l: LaunchId, s': State)
    requires Tables(s) && Adds(s, l, s') && Tables(s')
    requires Unstarted(s'.launches[l])
    requires forall c :: c in s'.controllers && c !in s.controllers ==> !s'.controllers[c].clobbered
    requires forall c :: c in s.controllers && (forall id :: id in s.registry ==> s.registry[id] != c) ==> s'.launches[l].controller != c
    ensures Forward(s, s')
  {
    forall m | m in s.launches ensures m in s'.launches && s'.launches[m] == s.launches[m] { }
    forall c | c in s.controllers && Gone(s, c) ensures Gone(s', c) { }
    hide Gone, Retired;
    forall c | c in s.controllers && Retired(s, c) ensures Retired(s', c) { AddsRetired(s, l, s', c); }
  }

  lemma AdmitKeeps(s: State, l: LaunchId, id: ControllerId, c: Controller, s': State)
    requires Inv(s) && Admit(s, l, id, c, s')
    ensures Inv(s') && Forward(s, s')
  {
    hide Forward, LaunchesOk, RestartsOk, DurableOk, ScanOk, Exclusive, OperationsOk, ArbitrationOk, StopsOk, ControllerOk;
    assert Adds(s, l, s');
    assert Tables(s');
    AddsLaunches(s, l, s') by { NewLaunchOk(l, s'.launches[l], c, s.maxConcurrent); }
    AddsForward(s, l, s');
    AddsRest(s, l, s');
    AddsReady(s, l, s');
    forall k | k in s'.controllers ensures ControllerOk(s', k) {
      if k == id { NewControllerOk(s, l, id, c, s'); } else { AddsControllers(s, l, s', k); }
    }
    TokensOfNew(s, id, s');
  }

  lemma NewControllerOk(s: State, l: LaunchId, id: ControllerId, c: Controller, s': State)
    requires Tables(s) && Admit(s, l, id, c, s')
    ensures ControllerOk(s', id)
  {
    forall m | m in s'.launches && s'.launches[m].controller == id ensures m == l {
    }
  }

  lemma TokensOfNew(s: State, id: ControllerId, s': State)
    requires id !in s.controllers && id in s'.controllers && s'.controllers == s.controllers[id := s'.controllers[id]]
    requires !s'.controllers[id].preSpawnToken
    ensures Tokens(s') == Tokens(s)
  {
    forall d ensures d in Tokens(s') <==> d in Tokens(s) {
      if d in s'.controllers.Keys && d != id { assert s'.controllers[d] == s.controllers[d]; }
    }
  }

  lemma NewLaunchOk(l: LaunchId, launch: Launch, c: Controller, max: nat)
    requires c == NewController(l, c.instanceId, c.modelId, c.pipelineId, c.entryId) && c.InstanceOwner().Some?
    requires launch == NewLaunch(launch.controller, c.InstanceOwner().value, false)
    ensures LaunchOk(l, launch, c, max)
  {
  }

  lemma NewRestartOk(l: LaunchId, launch: Launch, c: Controller, max: nat)
    requires c.born && c.InstanceOwner().Some? && c.creator != l
    requires launch == NewLaunch(launch.controller, c.InstanceOwner().value, true)
    ensures LaunchOk(l, launch, c, max) || c.mu == Some(LaunchHolder(l)) || c.process == Some(l)
  {
  }

  lemma RestartKeeps(s: State, l: LaunchId, id: InstanceId, s': State)
    requires Inv(s) && Restart(s, l, id, s')
    ensures Inv(s') && Forward(s, s')
  {
    hide Forward, LaunchesOk, RestartsOk, DurableOk, ScanOk, Exclusive, OperationsOk, ArbitrationOk, StopsOk;
    var k := s.registry[id];
    assert Adds(s, l, s');
    assert Tables(s');
    assert ControllerOk(s, k);
    NewRestartOk(l, s'.launches[l], s.controllers[k], s.maxConcurrent);
    AddsLaunches(s, l, s');
    AddsForward(s, l, s');
    AddsRest(s, l, s');
    AddsReady(s, l, s');
    forall d | d in s'.controllers ensures ControllerOk(s', d) { AddsControllers(s, l, s', d); }
  }

  lemma StopCalledKeeps(s: State, t: StopId, id: InstanceId, s': State)
    requires Inv(s) && StopCalled(s, t, id, s')
    ensures Inv(s') && Forward(s, s')
  {
    hide LaunchesOk, ControllersOk, StopsOk, OperationsOk, ArbitrationOk, ScanOk, Exclusive, RestartsOk, DurableOk, CountsOk, Tables;
    hide Forward, StopCalled, RegistryKept;
    StopCalledStops(s, t, id, s');
    StopCalledForward(s, t, id, s');
    StopCalledOnly(s, t, id, s');
    SameTables(s, s');
    SameCounts(s, s');
  }

  lemma StopCalledOnly(s: State, t: StopId, id: InstanceId, s': State)
    requires StopCalled(s, t, id, s')
    ensures s' == s.(stops := s'.stops) && RegistryKept(s, s')
  {
  }

  lemma SameCounts(s: State, s': State)
    requires CountsOk(s) && s' == s.(stops := s'.stops)
    ensures CountsOk(s')
  {
    assert Tokens(s') == Tokens(s) && Held(s') == Held(s);
  }

  lemma StopCalledStops(s: State, t: StopId, id: InstanceId, s': State)
    requires Tables(s) && StopsOk(s) && StopCalled(s, t, id, s')
    ensures Tables(s') && StopsOk(s')
  {
  }

  lemma StopCalledForward(s: State, t: StopId, id: InstanceId, s': State)
    requires StopCalled(s, t, id, s')
    ensures Forward(s, s')
  {
  }

  /* ---- steps that leave launches, controllers and registry alone ---- */

  /** Parts of the invariant that only look at launches, controllers, the registry and the locks. */
  lemma SameTables(s: State, s': State)
    requires Inv(s) && Tables(s')
    requires s'.launches == s.launches && s'.controllers == s.controllers && s'.maxConcurrent == s.maxConcurrent
    requires RegistryKept(s, s') && s'.arbLocks == s.arbLocks && s'.opSeq == s.opSeq
    ensures LaunchesOk(s') && ControllersOk(s') && OperationsOk(s') && ArbitrationOk(s') && RestartsOk(s')
    ensures ScanOk(s') && Exclusive(s')
    ensures Tokens(s') == Tokens(s) && Held(s') == Held(s)
    ensures s.written <= s'.written ==> DurableOk(s')
  {
    hide LaunchOk, CountsOk, Siblings, Controller.Visible, NoOpenRun;
    forall k | k in s'.controllers ensures ControllerOk(s', k) { SameController(s, s', k); }
    forall k | k in s'.controllers ensures NoOpenRun(s', k) == NoOpenRun(s, k) { SameOpenRuns(s, s', k); }
    forall m, id | m in s'.launches && Examined(s'.launches[m].pc, id) && id in s'.registry
      ensures !Conflicts(s', s'.launches[m], id)
    {
      assert !Conflicts(s, s.launches[m], id);
    }
  }

  lemma SameOpenRuns(s: State, s': State, id: ControllerId)
    requires s'.launches == s.launches
    ensures NoOpenRun(s', id) == NoOpenRun(s, id)
  {
  }

  lemma SameController(s: State, s': State, id: ControllerId)
    requires id in s.controllers && ControllerOk(s, id) && s'.launches == s.launches && s'.controllers == s.controllers
    ensures ControllerOk(s', id)
  {
  }

  lemma SameWorld(s: State, s': State)
    requires Inv(s)
    requires s'.launches == s.launches && s'.controllers == s.controllers && s'.maxConcurrent == s.maxConcurrent && s'.stops == s.stops
    requires RegistryKept(s, s') && s'.arbLocks == s.arbLocks && s'.opSeq == s.opSeq && s.written <= s'.written
    requires s'.free == s.free && s'.preSpawnInFlight == s.preSpawnInFlight
    requires (s'.zeroSig <==> s'.draining && s'.preSpawnInFlight == 0) || (s'.zeroSig == s.zeroSig && s'.draining == s.draining)
    requires (s.draining ==> s'.draining) && (s.cancelled ==> s'.cancelled)
    requires forall c :: c in s.controllers && s.controllers[c].instanceId in s'.durable ==> s.controllers[c].instanceId in s.durable
    ensures Inv(s') && Forward(s, s')
  {
    hide LaunchesOk, ControllersOk, RestartsOk, DurableOk, ScanOk, Exclusive, OperationsOk, ArbitrationOk, StopOk, Tokens, Held;
    assert Tables(s');
    SameTables(s, s');
  }

  lemma DrainKeeps(s: State, s': State)
    requires Inv(s) && BeginDrain(s, s')
    ensures Inv(s') && Forward(s, s')
  {
    hide LaunchesOk, ControllersOk, RestartsOk, DurableOk, ScanOk, Exclusive, OperationsOk, ArbitrationOk, StopsOk, Tables, Tokens, Held;
    assert s'.zeroSig <==> s'.draining && s'.preSpawnInFlight == 0;
    SameWorld(s, s');
  }

  lemma RecordsKeep(s: State, s': State)
    requires Inv(s) && s' == s.(durable := s'.durable, written := s'.written) && s.written <= s'.written
    requires forall c :: c in s.controllers && s.controllers[c].instanceId in s'.durable ==> s.controllers[c].instanceId in s.durable
    ensures Inv(s') && Forward(s, s')
  {
    hide Inv, Forward;
    SameWorld(s, s');
  }

  lemma CancelKeeps(s: State, s': State)
    requires Inv(s) && CancelLifecycle(s, s')
    ensures Inv(s') && Forward(s, s')
  {
    hide Inv, Forward;
    SameWorld(s, s');
  }

  lemma RecordDeleted(s: State, id: InstanceId, s': State)
    requires DeleteRecord(s, id, s')
    ensures s' == s.(durable := s'.durable)
    ensures forall c :: c in s.controllers && s.controllers[c].instanceId in s'.durable ==> s.controllers[c].instanceId in s.durable
  {
  }

  lemma RecordWritten(s: State, id: InstanceId, record: Record, s': State)
    requires ForeignRecord(s, id, record, s')
    ensures s' == s.(durable := s'.durable)
    ensures forall c :: c in s.controllers && s.controllers[c].instanceId in s'.durable ==> s.controllers[c].instanceId in s.durable
  {
  }

  lemma TerminalPersisted(s: State, id: InstanceId, s': State)
    requires PersistTerminalAgain(s, id, s')
    ensures s' == s.(durable := s'.durable, written := s'.written) && s.written <= s'.written
    ensures forall c :: c in s.controllers && s.controllers[c].instanceId in s'.durable ==> s.controllers[c].instanceId in s.durable
  {
  }

  lemma OthersRecordsChange(s: State, s': State)
    requires EnvironmentStep(s, s') && !BeginDrain(s, s') && !CancelLifecycle(s, s')
    ensures s' == s.(durable := s'.durable, written := s'.written) && s.written <= s'.written
    ensures forall c :: c in s.controllers && s.controllers[c].instanceId in s'.durable ==> s.controllers[c].instanceId in s.durable
  {
    hide BeginDrain, CancelLifecycle, DeleteRecord, ForeignRecord, PersistTerminalAgain;
    if id :| DeleteRecord(s, id, s') {
      RecordDeleted(s, id, s');
    } else if id :| PersistTerminalAgain(s, id, s') {
      TerminalPersisted(s, id, s');
    } else {
      var id, record :| ForeignRecord(s, id, record, s');
      RecordWritten(s, id, record, s');
    }
  }

  lemma EnvironmentKeeps(s: State, s': State)
    requires Inv(s) && EnvironmentStep(s, s')
    ensures Inv(s') && Forward(s, s')
  {
    hide Inv, Forward;
    if BeginDrain(s, s') {
      DrainKeeps(s, s');
    } else if CancelLifecycle(s, s') {
      CancelKeeps(s, s');
    } else {
      OthersRecordsChange(s, s');
      RecordsKeep(s, s');
    }
  }

  lemma CleanupUnregisters(s: State, k: CleanerId, s': State)
    requires CleanupStep(s, k, s')
    ensures s' == s.(cleaners := s'.cleaners, registry := s'.registry) && RegistryKept(s, s')
  {
    hide StartCleanup, ListDurable, CollectCandidates, RemoveCandidate;
    if StartCleanup(s, k, s') || ListDurable(s, k, s') || CollectCandidates(s, k, s') {
      OnlyCleans(s, k, s');
    } else {
      var pick :| RemoveCandidate(s, k, pick, s');
      Unregisters(s, k, pick, s');
    }
  }

  lemma OnlyCleans(s: State, k: CleanerId, s': State)
    requires StartCleanup(s, k, s') || ListDurable(s, k, s') || CollectCandidates(s, k, s')
    ensures s' == s.(cleaners := s'.cleaners)
  {
    hide RemovalProof;
  }

  lemma Unregisters(s: State, k: CleanerId, pick: (InstanceId, ControllerId), s': State)
    requires RemoveCandidate(s, k, pick, s')
    ensures s' == s.(cleaners := s'.cleaners, registry := s'.registry) && RegistryKept(s, s')
  {
    hide RemovalProof;
  }

  lemma CleanupKeeps(s: State, k: CleanerId, s': State)
    requires Inv(s) && CleanupStep(s, k, s')
    ensures Inv(s') && Forward(s, s')
  {
    hide Inv, CleanupStep, Forward;
    CleanupUnregisters(s, k, s');
    SameWorld(s, s');
  }
}
