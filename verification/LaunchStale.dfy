/** Two processes of one model can be alive at once: a rollback completes its run before wait() has seen the exit, a restart
follows, and the late wait() then writes the state of a controller whose new process is running. */
module LaunchStale {
  import opened Wrappers
  import opened LaunchState
  import opened LaunchSteps
  import opened LaunchPaths
  import opened LaunchScript
  import opened LaunchInvariant
  import opened LaunchRuns
  import opened LaunchTheorems
  import opened LaunchSeen
  import opened LaunchCollide
  import Comeback = LaunchComeback
  import Race = LaunchRace

  /* ---- a restart that is rolled back ---- */

  /** The restart stands at pc after its process was started, and still owns its controller. */
  predicate Falling(s: State, l: LaunchId, pc: Pc) {
    && Known(s, l) && s.launches[l].restart && s.launches[l].pc == pc && Owned(s, l) && Unlocked(s, l)
    && Ctl(s, l).run == Some(l) && Ctl(s, l).instanceId in s.durable
  }

  /** The exit is confirmed, and wait() has still to see it. */
  predicate Confirmed(s: State, l: LaunchId)
    requires Known(s, l)
  { s.launches[l].process.Reaped? && Ctl(s, l).process.None? && Ctl(s, l).phase.Failed? }

  /** The run is complete, everything is given back, and wait() has still to see the exit. */
  predicate RolledBack(s: State, l: LaunchId) {
    && Known(s, l) && s.launches[l].pc.Done? && Unlocked(s, l) && Idle(s, l) && Confirmed(s, l)
    && Ctl(s, l).run == Some(l) && Ctl(s, l).instanceId in s.durable
    && s.launches[l].waiter.Waiting? && s.launches[l].rolledBack && s.launches[l].done
  }

  lemma Refuses(s: State, l: LaunchId) returns (s': State)
    requires Spawned(s, l) && s.launches[l].restart
    ensures Went(s, l, s') && s'.launches[l].spawns == s.launches[l].spawns
    ensures Falling(s', l, RollbackKill) && s'.launches[l].process.Alive? && Ctl(s', l).process == Some(l)
  {
    hide ArbitrationStep, PrepareStep, RollbackStep, AbortStep, FinishStep, ProcessStep, PublishClaim, StopOldStep;
    hide CommitSpawn, CommitAfterDrain, ClaimRejected, PersistStartingState, SpawnProcess, SpawnFails, PersistFailure, PersistRunningState,
         Leads;
    var launch := s.launches[l];
    var c := Ctl(s, l);
    s' := s.(launches := s.launches[l := launch.(pc := RollbackKill)]);
    assert PersistRunningFails(s, l, Quit, s');
    Goes(s, l, Quit, s');
  }

  lemma Dies(s: State, l: LaunchId) returns (s': State)
    requires Falling(s, l, RollbackKill) && s.launches[l].process.Alive? && Ctl(s, l).process == Some(l)
    ensures Went(s, l, s') && s'.launches[l].spawns == s.launches[l].spawns
    ensures Falling(s', l, RollbackKill) && s'.launches[l].process.Dead? && Ctl(s', l).process == Some(l)
  {
    hide ArbitrationStep, PrepareStep, StartStep, RollbackStep, AbortStep, FinishStep, PublishClaim, StopOldStep;
    hide ReapProcess, ObserveExit, PersistExit, NoteExitFailure, ReleaseExited, CompleteExited, Leads;
    var launch := s.launches[l];
    var c := Ctl(s, l);
    s' := s.(launches := s.launches[l := launch.(process := Dead)]);
    assert ProcessDies(s, l, s');
    Goes(s, l, Answer.Ok, s');
  }

  lemma Exits(s: State, l: LaunchId) returns (s': State)
    requires Falling(s, l, RollbackKill) && s.launches[l].process.Dead? && Ctl(s, l).process == Some(l)
    ensures Went(s, l, s') && s'.launches[l].spawns == s.launches[l].spawns
    ensures Falling(s', l, RollbackKill) && s'.launches[l].process.Reaped? && Ctl(s', l).process.None?
  {
    hide ArbitrationStep, PrepareStep, StartStep, RollbackStep, AbortStep, FinishStep, PublishClaim, StopOldStep;
    hide ProcessDies, ObserveExit, PersistExit, NoteExitFailure, ReleaseExited, CompleteExited, Leads;
    var launch := s.launches[l];
    var c := Ctl(s, l);
    s' := s.(launches := s.launches[l := launch.(process := Reaped)],
             controllers := s.controllers[launch.controller := c.(process := None)]);
    assert ReapProcess(s, l, s');
    Goes(s, l, Answer.Ok, s');
  }

  lemma Confirms(s: State, l: LaunchId) returns (s': State)
    requires Falling(s, l, RollbackKill) && s.launches[l].process.Reaped? && Ctl(s, l).process.None?
    ensures Went(s, l, s') && s'.launches[l].spawns == s.launches[l].spawns
    ensures Falling(s', l, PersistRolledBack) && Confirmed(s', l)
  {
    hide ArbitrationStep, PrepareStep, StartStep, AbortStep, FinishStep, ProcessStep, PublishClaim, StopOldStep;
    hide KillAccepted, RollbackUnconfirmed, PersistRollback, ReleaseRun, CompleteRun, ForgetRun, Leads;
    var launch := s.launches[l];
    var c := Ctl(s, l);
    s' := s.(launches := s.launches[l := launch.(pc := PersistRolledBack)],
             controllers := s.controllers[launch.controller := c.(phase := Failed)]);
    assert RollbackConfirmed(s, l, s');
    Goes(s, l, Answer.Ok, s');
  }

  lemma Stores(s: State, l: LaunchId) returns (s': State)
    requires Falling(s, l, PersistRolledBack) && Confirmed(s, l)
    ensures Went(s, l, s') && s'.launches[l].spawns == s.launches[l].spawns
    ensures Falling(s', l, RunRelease(false)) && Confirmed(s', l) && s'.launches[l].waiter.Waiting? && s'.launches[l].rolledBack
    ensures Ctl(s', l).mu.None?
  {
    hide ArbitrationStep, PrepareStep, StartStep, AbortStep, FinishStep, ProcessStep, PublishClaim, StopOldStep;
    hide KillAccepted, RollbackConfirmed, RollbackUnconfirmed, ReleaseRun, CompleteRun, ForgetRun, Leads;
    var launch := s.launches[l];
    var c := Ctl(s, l);
    s' := s.(launches := s.launches[l := launch.(pc := RunRelease(false), waiter := Waiting, rolledBack := true)],
             controllers := s.controllers[launch.controller := c.(mu := None)],
             durable := s.durable[c.instanceId := RecordOf(c)], written := s.written + {(c.instanceId, RecordOf(c))});
    assert PersistRollback(s, l, Answer.Ok, s');
    Goes(s, l, Answer.Ok, s');
  }

  lemma ReleasesSlot(s: State, l: LaunchId) returns (s': State)
    requires Falling(s, l, RunRelease(false)) && Confirmed(s, l) && s.launches[l].waiter.Waiting? && s.launches[l].rolledBack
    requires Ctl(s, l).mu.None?
    ensures Went(s, l, s') && s'.launches[l].spawns == s.launches[l].spawns
    ensures Falling(s', l, RunComplete(false)) && Confirmed(s', l) && s'.launches[l].waiter.Waiting? && s'.launches[l].rolledBack
    ensures Ctl(s', l).mu.None?
  {
    hide ArbitrationStep, PrepareStep, StartStep, AbortStep, FinishStep, ProcessStep, PublishClaim, StopOldStep;
    hide KillAccepted, RollbackConfirmed, RollbackUnconfirmed, PersistRollback, CompleteRun, ForgetRun, Leads;
    var launch := s.launches[l];
    var c := Ctl(s, l);
    s' := s.(launches := s.launches[l := launch.(pc := RunComplete(false), slot := false)], free := Released(s, launch));
    assert ReleaseRun(s, l, s');
    Goes(s, l, Answer.Ok, s');
  }

  lemma Completes(s: State, l: LaunchId) returns (s': State)
    requires Falling(s, l, RunComplete(false)) && Confirmed(s, l) && s.launches[l].waiter.Waiting? && s.launches[l].rolledBack
    requires Ctl(s, l).mu.None?
    ensures Went(s, l, s') && s'.launches[l].spawns == s.launches[l].spawns
    ensures Falling(s', l, ReleaseOp) && Confirmed(s', l) && s'.launches[l].waiter.Waiting? && s'.launches[l].rolledBack
    ensures Ctl(s', l).mu.None? && s'.launches[l].done
  {
    hide ArbitrationStep, PrepareStep, StartStep, AbortStep, FinishStep, ProcessStep, PublishClaim, StopOldStep;
    hide KillAccepted, RollbackConfirmed, RollbackUnconfirmed, PersistRollback, ReleaseRun, ForgetRun, Leads;
    var launch := s.launches[l];
    var c := Ctl(s, l);
    s' := s.(launches := s.launches[l := launch.(pc := ReleaseOp, done := true, outcome := Error(true))]);
    assert CompleteRun(s, l, s');
    Goes(s, l, Answer.Ok, s');
  }

  lemma Releases(s: State, l: LaunchId) returns (s': State)
    requires Falling(s, l, ReleaseOp) && Confirmed(s, l) && s.launches[l].waiter.Waiting? && s.launches[l].rolledBack && Ctl(s, l).mu.None?
    requires s.launches[l].done
    ensures Went(s, l, s') && s'.launches[l].spawns == s.launches[l].spawns
    ensures RolledBack(s', l)
  {
    hide ArbitrationStep, PrepareStep, StartStep, RollbackStep, AbortStep, ProcessStep, PublishClaim, StopOldStep;
    hide LeaveLifecycle, MarkUnspawned, StoreUnspawned, ForgetController, Leads;
    var launch := s.launches[l];
    var c := Ctl(s, l);
    s' := s.(launches := s.launches[l := launch.(pc := Done)],
             controllers := s.controllers[launch.controller := c.(active := None, lifecycleMu := None)]);
    assert ReleaseOperation(s, l, s');
    Goes(s, l, Answer.Ok, s');
  }

  /** The running record cannot be stored, and the process is found gone before the kill. */
  lemma RollsBack(s: State, l: LaunchId) returns (s': State)
    requires Spawned(s, l) && s.launches[l].restart
    ensures Went(s, l, s') && RolledBack(s', l)
  {
    hide Leads, Only, Spawned, Owned, Unlocked, Idle;
    var a := Refuses(s, l);
    var b := Dies(a, l);
    GoesOn(s, l, a, b);
    var c := Exits(b, l);
    GoesOn(s, l, b, c);
    var d := Confirms(c, l);
    GoesOn(s, l, c, d);
    s' := GivesUp(d, l);
    GoesOn(s, l, d, s');
  }

  lemma GivesUp(s: State, l: LaunchId) returns (s': State)
    requires Falling(s, l, PersistRolledBack) && Confirmed(s, l)
    ensures Went(s, l, s') && RolledBack(s', l)
  {
    hide Leads, Only, Owned, Unlocked, Idle, RolledBack;
    var e := Stores(s, l);
    var f := ReleasesSlot(e, l);
    GoesOn(s, l, e, f);
    var g := Completes(f, l);
    GoesOn(s, l, f, g);
    s' := Releases(g, l);
    GoesOn(s, l, g, s');
  }

  /* ---- the run ---- */

  const MODEL: ModelId := 1

  /** The supervisor has just been created, over whatever the store holds. */
  datatype World = World(max: nat, durable: map<InstanceId, Record>, one: InstanceId, other: InstanceId)
  {
    function Start(): State { Initial(max, durable) }

    predicate Roomy() { max != 1 && one !in durable && other !in durable && one != other }

    /** The first admission has been called. */
    function Begun(): State {
      Start().(launches := map[1 := NewLaunch(1, Manual, false)], controllers := map[1 := NewController(1, one, MODEL, "", "")])
    }
  }

  /** s can follow the start of the world. */
  ghost predicate Reached(w: World, s: State) { w.Roomy() && Leads(w.Start(), s) && Inv(s) }

  lemma Reaches(w: World, s: State, t: State)
    requires Reached(w, s) && Leads(s, t)
    ensures Reached(w, t)
  {
    hide Leads, Run, Inv;
    Onwards(w.Start(), s, t);
    StartInv(w, t);
  }

  lemma StartInv(w: World, t: State)
    requires Leads(w.Start(), t)
    ensures Inv(t)
  {
    hide Leads, Run, Inv;
    Race.InitialRuns(w.max, w.durable);
    var states := Comeback.Extends([w.Start()], 0, t);
    RunInv(states, |states| - 1);
  }

  /** All launches but those of `live` are over. */
  predicate Over(s: State, live: set<LaunchId>) { forall l :: l in s.launches && l !in live ==> s.launches[l].done }

  lemma RoomLeft(s: State, live: set<LaunchId>)
    requires Inv(s) && Over(s, live) && s.maxConcurrent != 1 && |live| <= 1
    ensures Room(s)
  {
    hide LaunchesOk, ControllersOk, StopsOk, OperationsOk, ArbitrationOk, ScanOk, Exclusive, RestartsOk, DurableOk;
    forall l | l in s.launches && l !in live ensures !s.launches[l].slot { Comeback.SlotOf(s, l); }
    assert Held(s) <= live;
    Smaller(Held(s), live);
  }

  /** One manual controller, whatever calls there have been on it. */
  predicate Lone(s: State, w: World, calls: set<LaunchId>, clobbered: bool) {
    && s.launches.Keys == calls && (forall l :: l in calls ==> s.launches[l].controller == 1)
    && s.controllers.Keys == {1} && s.controllers[1].instanceId == w.one && s.controllers[1].modelId == MODEL
    && s.controllers[1].pipelineId == "" && s.controllers[1].clobbered == clobbered
    && s.maxConcurrent == w.max && !s.draining && !s.cancelled && s.registry.Keys <= {w.one} && w.other !in s.durable
  }

  /** The controller is registered, at rest, and its runs are over. */
  predicate Restartable(s: State, w: World, calls: set<LaunchId>, last: LaunchId) {
    && Lone(s, w, calls, false) && last in calls && s.registry == map[w.one := 1] && w.one in s.durable && Unlocked(s, last) && Idle(s, last)
    && RestartTarget(s.controllers[1]) && s.controllers[1].phase.Terminal() && s.controllers[1].process.None?
    && s.controllers[1].run == Some(last) && Over(s, {})
  }

  lemma StaysLone(s: State, w: World, l: LaunchId, s': State, calls: set<LaunchId>)
    requires w.Roomy() && Lone(s, w, calls, false) && Only(s, l, s')
    ensures Lone(s', w, calls, false) && (s.registry == map[w.one := 1] ==> s'.registry == map[w.one := 1])
    ensures forall m :: m in calls && m != l ==> s'.launches[m] == s.launches[m]
  {
  }

  lemma FirstCalled(w: World)
    requires w.Roomy()
    ensures Reached(w, w.Begun()) && Lone(w.Begun(), w, {1}, false)
  {
    hide Leads, Inv;
    Stay(w.Start());
    assert Admit(w.Start(), 1, 1, NewController(1, w.one, MODEL, "", ""), w.Begun());
    Then(w.Start(), w.Start(), w.Begun());
    StartInv(w, w.Begun());
  }

  lemma FirstIsFree(w: World)
    requires w.Roomy()
    ensures var s := w.Begun(); Passable(s, 1) && Free(s, 1) && Room(s) && Ctl(s, 1).lifecycleMu.None? && !s.launches[1].restart
  {
  }

  /** The admission runs and its process ends. */
  lemma FirstEnded(w: World) returns (s: State)
    requires w.Roomy()
    ensures Reached(w, s) && Restartable(s, w, {1}, 1)
  {
    hide Leads, Only, Spawned, RunsAt, Idle, Restartable, Ending, Reached, Passable, Free, Room;
    FirstCalled(w);
    FirstIsFree(w);
    var a := Launches(w.Begun(), 1);
    assert a.registry == map[w.one := 1];
    StaysLone(w.Begun(), w, 1, a, {1});
    Reaches(w, w.Begun(), a);
    var b := Succeeds(a, 1);
    StaysLone(a, w, 1, b, {1});
    Reaches(w, a, b);
    s := Ends(b, 1);
    StaysLone(b, w, 1, s, {1});
    Reaches(w, b, s);
    EndedIsRestartable(s, w);
  }

  lemma EndedIsRestartable(s: State, w: World)
    requires Lone(s, w, {1}, false) && s.registry == map[w.one := 1] && Ending(s, 1, Finished) && s.launches[1].done
    ensures Restartable(s, w, {1}, 1)
  {
  }

  function Called(s: State, l: LaunchId): State { s.(launches := s.launches[l := NewLaunch(1, Manual, true)]) }

  /** A restart of it gets its process. */
  lemma Restarts(s: State, w: World, calls: set<LaunchId>, last: LaunchId, l: LaunchId) returns (s': State)
    requires Reached(w, s) && Restartable(s, w, calls, last) && l !in calls
    ensures Reached(w, s') && Lone(s', w, calls + {l}, false) && s'.registry == map[w.one := 1] && Spawned(s', l) && s'.launches[l].restart
    ensures forall m :: m in calls ==> s'.launches[m] == s.launches[m]
  {
    hide Leads, Spawned, Only, Inv;
    var t := Called(s, l);
    assert Restart(s, l, w.one, t);
    Stay(s);
    Then(s, s, t);
    RoomLeft(s, {});
    CalledIsFree(s, w, calls, last, l);
    s' := Launches(t, l);
    StaysLone(t, w, l, s', calls + {l});
    SameKind(t, l, s');
    Onwards(s, t, s');
    Reaches(w, s, s');
  }

  lemma CalledIsFree(s: State, w: World, calls: set<LaunchId>, last: LaunchId, l: LaunchId)
    requires Restartable(s, w, calls, last) && l !in calls && Room(s)
    ensures var t := Called(s, l);
            Lone(t, w, calls + {l}, false) && Passable(t, l) && Free(t, l) && Room(t) && Ctl(t, l).lifecycleMu.None? && Ctl(t, l).instanceId in t.durable
  {
  }

  /** The second restart is rolled back, the third succeeds; the second one's wait() has still to run. */
  lemma Overtaken(w: World) returns (s: State)
    requires w.Roomy()
    ensures Reached(w, s) && Lone(s, w, {1, 2, 3}, false) && s.registry == map[w.one := 1] && RunsAt(s, 3, Done) && Idle(s, 3)
    ensures s.launches[2].waiter.Waiting? && s.launches[2].process.Reaped? && s.launches[1].done && s.launches[2].done
  {
    hide Leads, Only, Spawned, RunsAt, Idle, Reached;
    var a := FirstEnded(w);
    var b := Restarts(a, w, {1}, 1, 2);
    var c := RollsBack(b, 2);
    StaysLone(b, w, 2, c, {1, 2});
    Reaches(w, b, c);
    RolledBackIsRestartable(c, w);
    var d := Restarts(c, w, {1, 2}, 2, 3);
    s := Succeeds(d, 3);
    assert {1, 2} + {3} == {1, 2, 3};
    StaysLone(d, w, 3, s, {1, 2, 3});
    Reaches(w, d, s);
  }

  lemma RolledBackIsRestartable(s: State, w: World)
    requires Lone(s, w, {1, 2}, false) && s.registry == map[w.one := 1] && RolledBack(s, 2) && s.launches[1].done
    ensures Restartable(s, w, {1, 2}, 2)
  {
  }

  /** The state after the late wait(): the Manager it asks has a running process and no exit class, which it takes for a failure. */
  function Late(s: State): State
    requires 1 in s.controllers && 2 in s.launches
  {
    var d := s.controllers[1].(phase := Failed, clobbered := true);
    s.(launches := s.launches[2 := s.launches[2].(waiter := PersistTerminal(RecordOf(d), 0))], controllers := s.controllers[1 := d])
  }

  /** An admission of another instance of the same model is called. */
  function Second(s: State, w: World): State {
    s.(launches := s.launches[4 := NewLaunch(2, Manual, false)],
       controllers := s.controllers[2 := NewController(4, w.other, MODEL, "", "")])
  }

  lemma LateWaits(s: State, w: World)
    requires Lone(s, w, {1, 2, 3}, false) && RunsAt(s, 3, Done) && Idle(s, 3) && s.launches[2].waiter.Waiting?
    requires s.launches[2].process.Reaped?
    ensures Next(s, Late(s))
  {
    assert ObserveExit(s, 2, Answer.Fail, Late(s));
    assert LaunchStep(s, 2, Answer.Fail, Late(s));
  }

  /** The controller is registered, its process runs, and its state says that it does not. */
  predicate Misread(s: State, w: World) {
    && Lone(s, w, {1, 2, 3}, true) && s.registry == map[w.one := 1] && !s.controllers[1].Visible() && s.launches[3].process.Alive?
    && MODEL !in s.arbLocks && Over(s, {3})
  }

  lemma LateIsMisread(s: State, w: World)
    requires Lone(s, w, {1, 2, 3}, false) && s.registry == map[w.one := 1] && RunsAt(s, 3, Done) && Idle(s, 3)
    requires s.launches[1].done && s.launches[2].done
    ensures Misread(Late(s), w)
  {
  }

  lemma SecondIsCalled(u: State, w: World)
    requires w.Roomy() && Misread(u, w)
    ensures Next(u, Second(u, w))
  {
    assert Admit(u, 4, 2, NewController(4, w.other, MODEL, "", ""), Second(u, w));
  }

  lemma SecondIsFree(u: State, w: World)
    requires w.Roomy() && Misread(u, w) && Room(u)
    ensures var t := Second(u, w); Passable(t, 4) && Free(t, 4) && Room(t) && Ctl(t, 4).lifecycleMu.None?
  {
    var t := Second(u, w);
    forall id | id in t.registry ensures !Conflicts(t, t.launches[4], id) { assert id == w.one && !t.controllers[1].Visible(); }
  }

  /** Two live processes of one model whose controllers are both registered and both manual. */
  predicate Conflicting(s: State, l: LaunchId, m: LaunchId) {
    && Known(s, l) && Known(s, m) && s.launches[l].controller != s.launches[m].controller
    && s.launches[l].process.Alive? && s.launches[m].process.Alive? && Ctl(s, l).modelId == Ctl(s, m).modelId
    && Ctl(s, l).InstanceOwner() == Some(Manual) && Ctl(s, m).InstanceOwner() == Some(Manual)
    && Ctl(s, l).instanceId in s.registry && s.registry[Ctl(s, l).instanceId] == s.launches[l].controller
    && Ctl(s, m).instanceId in s.registry && s.registry[Ctl(s, m).instanceId] == s.launches[m].controller
  }

  lemma BothRun(u: State, w: World, t: State)
    requires w.Roomy() && Misread(u, w) && Only(Second(u, w), 4, t) && Spawned(t, 4) && t.registry == u.registry[w.other := 2]
    ensures Conflicting(t, 3, 4)
  {
    assert t.launches[3] == u.launches[3] && t.controllers[1] == u.controllers[1];
  }

  lemma SecondRuns(u: State, w: World) returns (t: State)
    requires Reached(w, u) && Misread(u, w)
    ensures Reached(w, t) && Conflicting(t, 3, 4)
  {
    hide Leads, Misread, Passable, Free, Room, Spawned, Only, Conflicting, Inv;
    SecondIsCalled(u, w);
    MisreadRoom(u, w);
    SecondIsFree(u, w);
    Stay(u);
    Then(u, u, Second(u, w));
    t := Launches(Second(u, w), 4);
    Onwards(u, Second(u, w), t);
    BothRun(u, w, t);
    Reaches(w, u, t);
  }

  lemma MisreadRoom(u: State, w: World)
    requires Inv(u) && w.Roomy() && Misread(u, w)
    ensures Room(u)
  {
    hide Inv, Room;
    RoomLeft(u, {3});
  }

  /** Whatever the limit allows two processes for, and whatever the store holds, a run reaches a conflict. */
  lemma ConflictHappens(w: World) returns (t: State)
    requires w.Roomy()
    ensures Reached(w, t) && Conflicting(t, 3, 4)
  {
    hide Next, Leads, Lone, RunsAt, Idle, Late, Misread, Conflicting, Inv;
    var a := Overtaken(w);
    Opened(a, w);
    LateWaits(a, w);
    Stay(a);
    Then(a, a, Late(a));
    Reaches(w, a, Late(a));
    LateIsMisread(a, w);
    t := SecondRuns(Late(a), w);
  }

  lemma Opened(s: State, w: World)
    requires Lone(s, w, {1, 2, 3}, false)
    ensures 1 in s.controllers && 2 in s.launches
  {
  }

  /** The run starts from a supervisor with this limit and this store, and two conflicting processes are alive at i. */
  ghost predicate ConflictAt(max: nat, durable: map<InstanceId, Record>, states: seq<State>, i: nat, l: LaunchId, m: LaunchId) {
    Run(states) && states[0] == Initial(max, durable) && i < |states| && Conflicting(states[i], l, m)
  }

  /** For every limit and every initial store some run has two live processes of one model, of two registered manual
  controllers, if and only if the limit is not one. */
  lemma ProcessesCanConflict(max: nat, durable: map<InstanceId, Record>)
    ensures (exists states, i, l, m :: ConflictAt(max, durable, states, i, l, m)) <==> max != 1
  {
    hide Run, Leads, Conflicting;
    if max != 1 {
      var one := Above(durable.Keys);
      var other := Above(durable.Keys + {one});
      var t := ConflictHappens(World(max, durable, one, other));
      Race.InitialRuns(max, durable);
      var states := Comeback.Extends([Initial(max, durable)], 0, t);
      assert states[0] == [Initial(max, durable)][0];
      assert ConflictAt(max, durable, states, |states| - 1, 3, 4);
    }
    if states, i, l, m :| ConflictAt(max, durable, states, i, l, m) {
      ConflictMeans(states[i], l, m);
      TwoNeedTwoSlots(states, i, l, m);
      LimitStays(states, 0, i);
    }
  }

  /** A conflict is a collision in both directions. */
  lemma ConflictMeans(s: State, l: LaunchId, m: LaunchId)
    requires Conflicting(s, l, m)
    ensures Colliding(s, l, m) && Colliding(s, m, l) && l != m
  {
  }
}
