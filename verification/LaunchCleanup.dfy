/** Registry cleanup: what a removal takes, and when a removed controller stays dead. */
module LaunchCleanup {
  import opened LaunchState
  import opened LaunchSteps
  import opened LaunchInvariant
  import opened LaunchRuns
  import opened LaunchTheorems

  /** The candidate leaves the registry in this step. */
  predicate Removes(s: State, k: CleanerId, pick: (InstanceId, ControllerId), s': State) {
    RemoveCandidate(s, k, pick, s') && pick.0 in s.registry && pick.0 !in s'.registry
  }

  /** Only an idle controller is removed, and only the entry that still names it. */
  lemma RemovalTakesOnlyIdleControllers(states: seq<State>, i: nat, k: CleanerId, pick: (InstanceId, ControllerId), s': State)
    requires Run(states) && i < |states| && RemoveCandidate(states[i], k, pick, s')
    ensures pick.0 in states[i].registry && pick.0 !in s'.registry ==>
              && states[i].registry[pick.0] == pick.1
              && var c := states[i].controllers[pick.1];
              && c.phase.Terminal() && c.active.None? && !c.preSpawnToken && c.born
              && (c.run.Some? ==> c.run.value in states[i].launches && states[i].launches[c.run.value].done)
              && forall l :: l in states[i].launches && states[i].launches[l].controller == pick.1 ==>
                   !states[i].launches[l].process.Alive? && !states[i].launches[l].process.Dead? && !Owning(states[i].launches[l].pc)
    ensures forall id :: id in s'.registry <==> id in states[i].registry && (id != pick.0 || pick.0 in s'.registry)
    ensures forall id :: id in s'.registry ==> s'.registry[id] == states[i].registry[id]
    ensures pick.0 in states[i].registry && states[i].registry[pick.0] != pick.1 ==> pick.0 in s'.registry
  {
    hide Run, LaunchOk;
    RunInv(states, i);
    if Removes(states[i], k, pick, s') {
      RegisteredIsBorn(states[i], pick.0);
      forall l | l in states[i].launches && states[i].launches[l].controller == pick.1
        ensures !states[i].launches[l].process.Alive? && !states[i].launches[l].process.Dead? && !Owning(states[i].launches[l].pc)
      {
        IdleLaunch(states, i, l);
      }
    }
  }

  lemma RegisteredIsBorn(s: State, id: InstanceId)
    requires Tables(s) && id in s.registry
    ensures s.registry[id] in s.controllers && s.controllers[s.registry[id]].born
  {
  }

  lemma IdleLaunch(states: seq<State>, i: nat, l: LaunchId)
    requires Run(states) && i < |states| && l in states[i].launches
    ensures Known(states[i], l)
    ensures var c := states[i].controllers[states[i].launches[l].controller];
            && (c.active.None? ==> !Owning(states[i].launches[l].pc))
            && (c.process.None? ==> !states[i].launches[l].process.Alive? && !states[i].launches[l].process.Dead?)
            && (!states[i].launches[l].restart && c.born ==> !states[i].launches[l].pc.ArbWait? && !Arbitrating(states[i].launches[l].pc))
  {
    Facts(states, i, l);
  }

  /** The record exists and some call on the controller can still pass arbitration. */
  ghost predicate CanComeBack(s: State, pick: (InstanceId, ControllerId)) {
    pick.0 in s.durable && exists l :: l in s.launches && s.launches[l].controller == pick.1 && !Refused(s, s.launches[l])
  }

  lemma RemovedIsOver(states: seq<State>, i: nat, k: CleanerId, pick: (InstanceId, ControllerId))
    requires Run(states) && i + 1 < |states| && Removes(states[i], k, pick, states[i + 1])
    ensures pick.0 !in states[i].durable ==> Gone(states[i + 1], pick.1)
    ensures pick.0 in states[i].durable && !CanComeBack(states[i], pick) ==> Retired(states[i + 1], pick.1)
  {
    hide Run, LaunchOk, LaunchesOk, ControllersOk, ScanOk, StopsOk, OperationsOk, ArbitrationOk, RestartsOk, CountsOk, DurableOk, Exclusive;
    RunInv(states, i);
    RemovalTakesOnlyIdleControllers(states, i, k, pick, states[i + 1]);
    forall l | l in states[i].launches && states[i].launches[l].controller == pick.1 ensures Passed(states[i].launches[l]) {
      IdleLaunch(states, i, l);
    }
    var s, s' := states[i], states[i + 1];
    assert s'.controllers == s.controllers && s'.launches == s.launches && s'.durable == s.durable;
    assert s.controllers[pick.1].instanceId == pick.0;
    assert forall id :: id in s'.registry ==> s.controllers[s'.registry[id]].instanceId == id;
  }

  /** One step starts nothing for a controller that is over. */
  lemma NothingSpawns(s: State, s': State, c: ControllerId, l: LaunchId)
    requires Forward(s, s') && (Gone(s, c) || Retired(s, c)) && l in s'.launches && s'.launches[l].controller == c
    ensures SpawnsOf(s', l) == SpawnsOf(s, l)
  {
  }

  lemma {:induction false} OverForever(states: seq<State>, i: nat, j: nat, c: ControllerId)
    requires Run(states) && i <= j < |states|
    ensures Gone(states[i], c) ==> Gone(states[j], c)
    ensures Retired(states[i], c) ==> Retired(states[j], c)
    decreases j
  {
    hide Run, Next;
    if i < j {
      OverForever(states, i, j - 1, c);
      StepForward(states, j - 1);
    }
  }

  /** A removed controller never spawns again, if its record was gone when it was removed or every call on it had ended
  or could only be refused. */
  lemma {:induction false} RemovedControllersNeverSpawn(states: seq<State>, i: nat, k: CleanerId, pick: (InstanceId, ControllerId), j: nat, l: LaunchId)
    requires Run(states) && i < j < |states| && Removes(states[i], k, pick, states[i + 1])
    requires !CanComeBack(states[i], pick)
    requires l in states[j].launches && states[j].launches[l].controller == pick.1
    ensures SpawnsOf(states[j], l) == SpawnsOf(states[i], l)
    ensures pick.0 !in states[i].durable ==> pick.0 !in states[j].durable
    decreases j
  {
    hide Run, Next, Forward, Gone, Retired;
    RemovedIsOver(states, i, k, pick);
    assert states[i + 1].launches == states[i].launches;
    OverForever(states, i + 1, j, pick.1);
    if pick.0 !in states[i].durable { RecordStaysAway(states, i, k, pick, j); }
    if j > i + 1 {
      OverForever(states, i + 1, j - 1, pick.1);
      StepForward(states, j - 1);
      NothingSpawns(states[j - 1], states[j], pick.1, l);
      if l in states[j - 1].launches {
        SameController(states[j - 1], states[j], l);
        RemovedControllersNeverSpawn(states, i, k, pick, j - 1, l);
      } else {
        NewerThan(states, i, j - 1, l);
      }
    }
  }

  lemma SameController(s: State, s': State, l: LaunchId)
    requires Forward(s, s') && l in s.launches
    ensures l in s'.launches && s'.launches[l].controller == s.launches[l].controller
  {
  }

  lemma RecordStaysAway(states: seq<State>, i: nat, k: CleanerId, pick: (InstanceId, ControllerId), j: nat)
    requires Run(states) && i < j < |states| && Removes(states[i], k, pick, states[i + 1]) && Gone(states[j], pick.1)
    ensures pick.0 !in states[j].durable
  {
    hide Run;
    RunInv(states, i);
    assert states[i].controllers[pick.1].instanceId == pick.0 && states[i + 1].controllers == states[i].controllers;
    InstanceStays(states, i + 1, j, pick.1);
  }

  lemma {:induction false} NewerThan(states: seq<State>, i: nat, j: nat, l: LaunchId)
    requires Run(states) && i <= j < |states| && l !in states[j].launches
    ensures l !in states[i].launches
    decreases j
  {
    hide Run, Next;
    if i < j {
      StepForward(states, j - 1);
      NewerThan(states, i, j - 1, l);
    }
  }

  lemma {:induction false} InstanceStays(states: seq<State>, i: nat, j: nat, c: ControllerId)
    requires Run(states) && i <= j < |states| && c in states[i].controllers
    ensures c in states[j].controllers && states[j].controllers[c].instanceId == states[i].controllers[c].instanceId
    decreases j
  {
    hide Run, Next;
    if i < j {
      StepForward(states, j - 1);
      InstanceStays(states, i, j - 1, c);
    }
  }

  /** A wait() that was not the current run wrote the state only after a rollback of this controller had completed a run early. */
  lemma {:induction false} StaleWaitsFollowRollbacks(states: seq<State>, i: nat, c: ControllerId)
    requires Run(states) && i < |states| && c in states[i].controllers && states[i].controllers[c].clobbered
    ensures exists l :: l in states[i].launches && states[i].launches[l].controller == c && states[i].launches[l].rolledBack
  {
    hide Run, Next, Forward;
    BlamedAlways(states, i, c);
  }

  lemma {:induction false} BlamedAlways(states: seq<State>, i: nat, c: ControllerId)
    requires Run(states) && i < |states|
    ensures Blamed(states[i], c)
  {
    hide Run, Next;
    if i == 0 {
      NoControllersYet(states);
    } else {
      BlamedAlways(states, i - 1, c);
      StepForward(states, i - 1);
    }
  }

  lemma NoControllersYet(states: seq<State>)
    requires Run(states)
    ensures states[0].controllers == map[]
  {
  }
}
