/** When a removed controller can spawn again: the restart that is left can be run to its process from every reachable state. */
module LaunchComeback {
  import opened LaunchState
  import opened LaunchSteps
  import opened LaunchInvariant
  import opened LaunchTheorems
  import opened LaunchCleanup
  import opened LaunchBacked
  import opened LaunchPaths
  import opened LaunchScript
  import opened LaunchSettle

  /* ---- another call that arbitrates for the same model gets out of the way ---- */

  /** Launch k arbitrates and touches nothing but its own program point and the lock. */
  predicate Arbitrated(s: State, k: LaunchId, s': State) {
    k in s.launches && k in s'.launches && s'.controllers == s.controllers && s'.launches == s.launches[k := s'.launches[k]]
    && s'.launches[k] == s.launches[k].(pc := s'.launches[k].pc)
  }

  lemma RejectShifts(s: State, k: LaunchId, a: Answer, s': State)
    requires Reject(s, k, a, s')
    ensures Shifted(s, k, s') && Arbitrated(s, k, s') && s'.launches[k].pc.Done?
  {
  }

  lemma CheckTargetShifts(s: State, k: LaunchId, s': State)
    requires CheckTarget(s, k, s')
    ensures Shifted(s, k, s') && Arbitrated(s, k, s') && s'.launches[k].pc.Scan?
  {
  }

  lemma ExamineShifts(s: State, k: LaunchId, a: Answer, s': State)
    requires Examine(s, k, a, s')
    ensures Shifted(s, k, s') && Arbitrated(s, k, s') && s'.launches[k].pc == Scan(s.launches[k].pc.todo - {a.id})
  {
  }

  lemma PassShifts(s: State, k: LaunchId, a: Answer, s': State)
    requires Pass(s, k, a, s') && s.launches[k].pc.Scan?
    ensures Shifted(s, k, s') && Arbitrated(s, k, s') && s'.launches[k].pc.Fence?
  {
  }

  /** One step of the scan, or its end. */
  lemma ScanMoves(s: State, k: LaunchId) returns (a: Answer, s': State)
    requires Known(s, k) && s.launches[k].pc.Scan?
    ensures LaunchStep(s, k, a, s') && Shifted(s, k, s') && Arbitrated(s, k, s')
    ensures s'.launches[k].pc.Done? || s'.launches[k].pc.Fence? || (s'.launches[k].pc.Scan? && s'.launches[k].pc.todo < s.launches[k].pc.todo)
  {
    hide PublishClaim, PrepareStep, StartStep, RollbackStep, AbortStep, FinishStep, StopOldStep, ProcessStep, Shifted, Arbitrated,
         Conflicts;
    hide AcquireArbitration, CheckTarget;
    var launch := s.launches[k];
    var todo := launch.pc.todo;
    if todo == {} {
      a, s' := Answer.Ok, s.(launches := s.launches[k := launch.(pc := Fence)]);
      assert Pass(s, k, a, s');
      PassShifts(s, k, a, s');
      return;
    }
    var id := Picked(todo);
    a := Visit(id);
    if Conflicts(s, launch, id) {
      s' := s.(launches := s.launches[k := launch.(pc := Done)], arbLocks := s.arbLocks - {s.controllers[launch.controller].modelId});
      assert Reject(s, k, a, s');
      RejectShifts(s, k, a, s');
    } else {
      s' := s.(launches := s.launches[k := launch.(pc := Scan(todo - {id}))]);
      assert Examine(s, k, a, s');
      ExamineShifts(s, k, a, s');
    }
  }

  lemma CheckMoves(s: State, k: LaunchId) returns (a: Answer, s': State)
    requires Known(s, k) && s.launches[k].pc.ArbCheck? && !s.cancelled
    ensures LaunchStep(s, k, a, s') && Shifted(s, k, s') && Arbitrated(s, k, s') && (s'.launches[k].pc.Done? || s'.launches[k].pc.Scan?)
  {
    hide PublishClaim, PrepareStep, StartStep, RollbackStep, AbortStep, FinishStep, StopOldStep, ProcessStep, Shifted, Arbitrated,
         RestartTarget;
    hide AcquireArbitration, Examine, Pass;
    var launch := s.launches[k];
    var c := s.controllers[launch.controller];
    a := Answer.Ok;
    if launch.restart && !RestartTarget(c) {
      s' := s.(launches := s.launches[k := launch.(pc := Done)], arbLocks := s.arbLocks - {c.modelId});
      assert Reject(s, k, a, s');
      RejectShifts(s, k, a, s');
    } else {
      s' := s.(launches := s.launches[k := launch.(pc := Scan(s.registry.Keys))]);
      assert CheckTarget(s, k, s');
      CheckTargetShifts(s, k, s');
    }
  }

  ghost predicate Sound(s: State, l: LaunchId) { Inv(s) && Backed(s) && Waits(s, l) }

  lemma SoundKept(s: State, l: LaunchId, k: LaunchId, a: Answer, s': State)
    requires Sound(s, l) && k != l && LaunchStep(s, k, a, s') && Shifted(s, k, s')
    ensures Sound(s', l) && l in s.launches && l in s'.launches && s'.launches[l] == s.launches[l] && Leads(s, s')
  {
    hide Inv, Backed, Tables, Waits, Alone, Shifted, LaunchStep, Leads;
    assert Next(s, s');
    NextKeepsBacked(s, s');
    WaitsKept(s, l, k, s');
    Stay(s);
    Then(s, s, s');
  }

  lemma {:induction false} ScanEnds(s: State, l: LaunchId, k: LaunchId) returns (s': State)
    requires Sound(s, l) && k != l && Known(s, k) && s.launches[k].pc.Scan?
    ensures Leads(s, s') && Sound(s', l) && l in s.launches && s'.launches[l] == s.launches[l]
    ensures Arbitrated(s, k, s') && !s'.launches[k].pc.ArbCheck? && !s'.launches[k].pc.Scan?
    decreases s.launches[k].pc.todo
  {
    hide Sound, LaunchStep, Leads;
    var a, next := ScanMoves(s, k);
    SoundKept(s, l, k, a, next);
    if next.launches[k].pc.Scan? {
      s' := ScanEnds(next, l, k);
      Onwards(s, next, s');
    } else {
      s' := next;
    }
  }

  lemma OneHolds(s: State, k: LaunchId, l: LaunchId)
    requires Inv(s) && Known(s, k) && Known(s, l) && Arbitrating(s.launches[k].pc) && Arbitrating(s.launches[l].pc)
    requires ModelOf(s, k) == ModelOf(s, l)
    ensures k == l
  {
    hide LaunchesOk, ControllersOk, StopsOk, OperationsOk, ScanOk, Exclusive, RestartsOk, CountsOk, DurableOk;
  }

  lemma ClearedIsAlone(s: State, l: LaunchId, k: LaunchId, s': State)
    requires Sound(s, l) && Sound(s', l) && Tables(s') && l in s'.launches && Known(s, k) && k != l && ModelOf(s, k) == ModelOf(s, l)
    requires Arbitrating(s.launches[k].pc) && Arbitrated(s, k, s') && !s'.launches[k].pc.ArbCheck? && !s'.launches[k].pc.Scan?
    ensures Alone(s', l)
  {
    hide Inv, Backed, Refused;
    forall m | m in s'.launches && m != l && ModelOf(s', m) == ModelOf(s', l) ensures !s'.launches[m].pc.ArbCheck? && !s'.launches[m].pc.Scan? {
      if m != k && Arbitrating(s.launches[m].pc) { OneHolds(s, m, k); }
    }
  }

  /** The lock of the model is not held by a call that has still to scan. */
  lemma Clears(s: State, l: LaunchId, live: set<LaunchId>) returns (s': State)
    requires Sound(s, l)
    ensures Leads(s, s') && Ready(s', l) && l in s.launches && s'.launches[l] == s.launches[l] && Spares(s, live, s')
  {
    hide Inv, Backed, Tables, Leads, Shifted, LaunchStep;
    TablesOf(s);
    TablesMean(s);
    Stay(s);
    if Alone(s, l) { return s; }
    var k :| k in s.launches && k != l && ModelOf(s, k) == ModelOf(s, l) && (s.launches[k].pc.ArbCheck? || s.launches[k].pc.Scan?);
    if Arbitrating(s.launches[l].pc) { OneHolds(s, k, l); }
    s' := s;
    if s.launches[k].pc.ArbCheck? {
      var a;
      a, s' := CheckMoves(s, k);
      SoundKept(s, l, k, a, s');
    }
    if s'.launches[k].pc.Scan? {
      var t := s';
      s' := ScanEnds(t, l, k);
      Onwards(s, t, s');
    }
    TablesOf(s');
    ClearedIsAlone(s, l, k, s');
  }

  /* ---- nothing stands in the way once everybody else is at rest ---- */

  lemma StillIsNotOpen(launch: Launch)
    requires Still(launch)
    ensures !Open(launch)
  {
  }

  /** No registered state in flight speaks of a process of `live`. */
  predicate Hidden(s: State, live: set<LaunchId>)
    requires Tables(s)
  {
    forall id :: id in s.registry ==> var c := s.controllers[s.registry[id]]; c.phase.InFlight() && c.run.Some? ==> c.run.value !in live
  }

  /** A registered controller of another instance is neither in flight nor owned. */
  lemma NobodyConflicts(s: State, l: LaunchId, live: set<LaunchId>, id: InstanceId)
    requires Ready(s, l) && Tables(s) && Settled(s, l, live) && Hidden(s, live) && id in s.registry
    ensures !Conflicts(s, s.launches[l], id)
  {
    hide LaunchesOk, StopsOk, OperationsOk, ArbitrationOk, ScanOk, Exclusive, RestartsOk, CountsOk, DurableOk, LockOk, HoldersOk, AbortedOk,
         Alone, Still,
         Open, Compatible, ControllerOk;
    var k := s.registry[id];
    ReferencesOf(s, k);
    if s.controllers[k].active.Some? { OwnedIsOwning(s, k); }
    assert FlightOk(s, k);
    WaiterHoldsNothing(s, l);
    WaiterIsStill(s, l);
    if s.controllers[k].run.Some? {
      var run := s.controllers[k].run.value;
      if run != l { assert Rested(s, l, live, run); }
      if Still(s.launches[run]) { StillIsNotOpen(s.launches[run]); }
    }
    assert !s.controllers[k].active.Some?;
  }

  lemma OwnedIsOwning(s: State, k: ControllerId)
    requires Inv(s) && k in s.controllers && s.controllers[k].active.Some?
    ensures var l := s.controllers[k].active.value.claim; l in s.launches && s.launches[l].controller == k && Owning(s.launches[l].pc)
  {
    hide LaunchesOk, StopsOk, OperationsOk, ArbitrationOk, ScanOk, Exclusive, RestartsOk, CountsOk, DurableOk;
    assert ControllerOk(s, k);
  }

  lemma WaiterIsStill(s: State, l: LaunchId)
    requires Inv(s) && Waits(s, l)
    ensures Still(s.launches[l])
  {
    hide Inv;
    MovableOf(s, l);
  }

  /** Every token of the semaphore is back, but for the processes left to live. */
  lemma SlotsAreBack(s: State, l: LaunchId, live: set<LaunchId>)
    requires Ready(s, l) && Tables(s) && Settled(s, l, live)
    ensures s.free >= s.maxConcurrent - |live|
  {
    hide ControllersOk, StopsOk, OperationsOk, ArbitrationOk, ScanOk, Exclusive, RestartsOk, DurableOk, Backed, Alone, LaunchOk;
    WaiterNeedsNoSlot(s, l);
    forall k | k in s.launches && k !in live ensures !s.launches[k].slot {
      if k != l {
        SlotOf(s, k);
        assert Rested(s, l, live, k);
      }
    }
    assert Held(s) <= live;
    Smaller(Held(s), live);
  }

  lemma SlotOf(s: State, k: LaunchId)
    requires Inv(s) && k in s.launches
    ensures s.launches[k].slot ==> SlotInUse(s.launches[k])
    ensures HasNoSlot(s.launches[k]) ==> !s.launches[k].slot
  {
    hide ControllersOk, StopsOk, OperationsOk, ArbitrationOk, ScanOk, Exclusive, RestartsOk, CountsOk, DurableOk, ClaimOk, ProcessOk,
         AdmissionOk,
         Attributed, LocksOk, OutcomeOk, PhaseOk, SlotInUse, HasNoSlot;
    assert LaunchOk(k, s.launches[k], s.controllers[s.launches[k].controller], s.maxConcurrent);
  }

  lemma WaiterNeedsNoSlot(s: State, l: LaunchId)
    requires Inv(s) && Waits(s, l)
    ensures !s.launches[l].slot
  {
    hide Inv;
    SlotOf(s, l);
  }

  /** Nobody holds a lock of the controller of l or the arbitration lock of its model. */
  lemma LocksAreFree(s: State, l: LaunchId, live: set<LaunchId>)
    requires Ready(s, l) && Tables(s) && Settled(s, l, live)
    ensures var c := s.controllers[s.launches[l].controller];
            c.mu.None? && c.lifecycleMu.None? && (s.launches[l].pc.ArbWait? ==> c.modelId !in s.arbLocks)
  {
    hide Inv, FlightOk, AbortedOk, Still;
    var id := s.launches[l].controller;
    WaiterHoldsNothing(s, l);
    assert HoldersOk(s, id);
    if s.controllers[id].modelId in s.arbLocks { assert LockOk(s, s.controllers[id].modelId); }
  }

  lemma SettledIsFree(s: State, l: LaunchId, live: set<LaunchId>)
    requires Ready(s, l) && Tables(s) && Settled(s, l, live) && Hidden(s, live) && (s.maxConcurrent == 0 || s.maxConcurrent > |live|)
    ensures Passable(s, l) && Free(s, l) && Room(s) && Ctl(s, l).lifecycleMu.None? && (s.launches[l].restart ==> Ctl(s, l).instanceId in s.durable)
  {
    hide Inv, Tables, Backed, Alone, Settled, Conflicts, Hidden;
    LocksAreFree(s, l, live);
    SlotsAreBack(s, l, live);
    PhasesOf(s, s.launches[l].controller);
    NothingRan(s, l);
    forall id | id in s.registry ensures !Conflicts(s, s.launches[l], id) { NobodyConflicts(s, l, live, id); }
  }

  lemma NothingRan(s: State, l: LaunchId)
    requires Inv(s) && Waits(s, l)
    ensures var launch := s.launches[l]; launch.process.NoProcess? && launch.waiter.NoWaiter? && !launch.done && !launch.rolledBack
  {
    hide Inv;
    MovableOf(s, l);
  }

  lemma PhasesOf(s: State, id: ControllerId)
    requires Inv(s) && id in s.controllers
    ensures !s.controllers[id].phase.Stale?
    ensures s.maxConcurrent > 0 ==> s.free >= 0
  {
    hide LaunchesOk, StopsOk, OperationsOk, ArbitrationOk, ScanOk, Exclusive, RestartsOk, DurableOk;
    assert ControllerOk(s, id);
  }

  /** From every reachable state a waiting call can be run to its process. */
  lemma RunsToProcess(s: State, l: LaunchId) returns (s': State)
    requires Sound(s, l)
    ensures Leads(s, s') && l in s.launches && l in s'.launches && s'.launches[l].controller == s.launches[l].controller
    ensures s'.launches[l].spawns == s.launches[l].spawns + 1
  {
    hide Sound, Ready, Tables, Settled, Leads, Passable, Free, Room, Spawned;
    var a := Clears(s, l, {});
    var b := Settles(a, l, {});
    Onwards(s, a, b);
    SettledIsFree(b, l, {});
    s' := Launches(b, l);
    Onwards(s, b, s');
  }

  /* ---- the exact condition ---- */

  /** The run goes on from the removal at i to a state j in which a call on c has started another process. */
  ghost predicate SpawnsAgain(states: seq<State>, i: nat, c: ControllerId, longer: seq<State>, j: nat, l: LaunchId) {
    && i + 1 < |states| && Run(longer) && states[..i + 2] <= longer && i + 1 < j < |longer|
    && l in longer[j].launches && longer[j].launches[l].controller == c && SpawnsOf(longer[j], l) > SpawnsOf(states[i], l)
  }

  /** A call on an idle controller that could not be refused waits before its claim; one that arbitrates is alone. */
  lemma WaitsIfNotRefused(s: State, id: ControllerId, l: LaunchId)
    requires Inv(s) && Known(s, l) && s.launches[l].controller == id && !Refused(s, s.launches[l])
    requires var c := s.controllers[id];
             && c.born && c.phase.Terminal() && c.active.None? && c.process.None? && c.instanceId in s.durable
             && (c.run.Some? ==> c.run.value in s.launches && s.launches[c.run.value].done)
    requires Arbitrating(s.launches[l].pc)
             || forall k :: k in s.launches && s.launches[k].controller == id && !Refused(s, s.launches[k]) ==> !Arbitrating(s.launches[k].pc)
    ensures Waits(s, l)
  {
    hide Inv, Arbitrating;
    NotYetOwning(s, l);
    forall k | k in s.launches && k != l && s.launches[k].controller == id ensures s.launches[k].pc.ArbWait? || s.launches[k].pc.Done? {
      NotYetOwning(s, k);
      if Arbitrating(s.launches[k].pc) && Arbitrating(s.launches[l].pc) { OneHolds(s, k, l); }
    }
  }

  lemma NotYetOwning(s: State, k: LaunchId)
    requires Inv(s) && Known(s, k) && s.controllers[s.launches[k].controller].active.None? && s.controllers[s.launches[k].controller].born
    ensures s.launches[k].pc.ArbWait? || Arbitrating(s.launches[k].pc) || s.launches[k].pc.Done?
    ensures !s.launches[k].pc.Done? ==> s.launches[k].restart
  {
    hide Inv, ProcessOk;
    MovableOf(s, k);
  }

  /** What is left of a removed controller that can come back waits before its claim. */
  lemma RemovedWaits(states: seq<State>, i: nat, k: CleanerId, pick: (InstanceId, ControllerId)) returns (l: LaunchId)
    requires Run(states) && i + 1 < |states| && Removes(states[i], k, pick, states[i + 1]) && CanComeBack(states[i], pick)
    ensures Sound(states[i + 1], l) && states[i + 1].launches[l].controller == pick.1 && states[i + 1].launches == states[i].launches
  {
    hide Run, Inv, Backed, Waits;
    var s, t := states[i], states[i + 1];
    RunIsBacked(states, i + 1);
    RunIsBacked(states, i);
    RemovalTakesOnlyIdleControllers(states, i, k, pick, t);
    TablesOf(t);
    TablesMean(t);
    AtItsOwnId(s, pick.0);
    l :| l in s.launches && s.launches[l].controller == pick.1 && !Refused(s, s.launches[l]);
    if m :| m in s.launches && s.launches[m].controller == pick.1 && !Refused(s, s.launches[m]) && Arbitrating(s.launches[m].pc) { l := m; }
    WaitsIfNotRefused(t, pick.1, l);
  }

  lemma AtItsOwnId(s: State, id: InstanceId)
    requires Inv(s) && id in s.registry
    ensures s.registry[id] in s.controllers && s.controllers[s.registry[id]].instanceId == id
  {
    hide LaunchesOk, ControllersOk, StopsOk, OperationsOk, ArbitrationOk, ScanOk, Exclusive, RestartsOk, CountsOk, DurableOk;
  }

  /** A run up to i goes on to whatever can follow its state. */
  lemma Extends(states: seq<State>, i: nat, u: State) returns (longer: seq<State>)
    requires Run(states) && i < |states| && Leads(states[i], u)
    ensures Run(longer) && states[..i + 1] <= longer && longer[|longer| - 1] == u && (states[i] != u ==> |longer| > i + 1)
  {
    hide Next;
    var p :| Path(p) && p[0] == states[i] && p[|p| - 1] == u;
    longer := states[..i] + p;
    forall n | 0 <= n < |longer| - 1 ensures Next(longer[n], longer[n + 1]) {
      if n < i { assert longer[n] == states[n] && longer[n + 1] == states[n + 1]; } else { assert longer[n] == p[n - i] && longer[n + 1] == p[n - i + 1]; }
    }
    assert longer[0] == states[0];
    assert states[..i + 1] == longer[..i + 1];
  }

  /** A removed controller can spawn again exactly when its record was stored at the removal and some call on it could
  still pass arbitration: from every such state some continuation of the run starts another process for it, and from no
  other state does any. */
  lemma RemovedControllerCanSpawnAgain(states: seq<State>, i: nat, k: CleanerId, pick: (InstanceId, ControllerId))
    requires Run(states) && i + 1 < |states| && Removes(states[i], k, pick, states[i + 1])
    ensures CanComeBack(states[i], pick) <==> exists longer, j, l :: SpawnsAgain(states, i, pick.1, longer, j, l)
  {
    hide Run, Leads, Sound, CanComeBack, Removes;
    if CanComeBack(states[i], pick) {
      var l := RemovedWaits(states, i, k, pick);
      var u := RunsToProcess(states[i + 1], l);
      var longer := Extends(states, i + 1, u);
      assert SpawnsAgain(states, i, pick.1, longer, |longer| - 1, l);
    }
    if longer, j, l :| SpawnsAgain(states, i, pick.1, longer, j, l) {
      assert longer[i] == states[..i + 2][i] && longer[i + 1] == states[..i + 2][i + 1];
      if !CanComeBack(states[i], pick) { RemovedControllersNeverSpawn(longer, i, k, pick, j, l); }
    }
  }
}
