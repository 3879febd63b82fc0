/** A removed controller can spawn again when its record was stored after the cleanup listed the records and a restart was
already under way: the run that shows it. */
module LaunchRace {
  import opened Wrappers
  import opened LaunchState
  import opened LaunchSteps
  import opened LaunchInvariant
  import opened LaunchCleanup
  import opened LaunchTheorems
  import opened LaunchPaths
  import opened LaunchScript
  import Comeback = LaunchComeback

  const ID: InstanceId := 7
  const MODEL: ModelId := 1
  const CLEANER: CleanerId := 1

  /* ---- the cleanup lists the records, then the admission is called ---- */

  /** One admission has been called for instance ID, after the cleanup has found no record. */
  const CALLED: State :=
    Initial(0, map[]).(cleaners := map[CLEANER := ScanRegistry({})], launches := map[1 := NewLaunch(1, Manual, false)],
                       controllers := map[1 := NewController(1, ID, MODEL, "", "")])

  lemma NoKeys<K, V>(m: map<K, V>)
    requires m == map[]
    ensures m.Keys == {}
  {
  }

  lemma Listed()
    ensures Leads(Initial(0, map[]), CALLED)
  {
    hide Leads;
    var s := Initial(0, map[]);
    NoKeys(s.durable);
    Stay(s);
    var t := s.(cleaners := map[CLEANER := ListRecords]);
    assert StartCleanup(s, CLEANER, t) && CleanupStep(s, CLEANER, t);
    Then(s, s, t);
    var u := t.(cleaners := map[CLEANER := ScanRegistry({})]);
    assert u.cleaners == t.cleaners[CLEANER := ScanRegistry(t.durable.Keys)];
    assert ListDurable(t, CLEANER, u) && CleanupStep(t, CLEANER, u);
    Then(s, t, u);
    assert CALLED.launches == u.launches[1 := NewLaunch(1, Manual, false)] && CALLED.controllers == u.controllers[1 := NewController(1, ID, MODEL, "", "")];
    assert Admit(u, 1, 1, NewController(1, ID, MODEL, "", ""), CALLED);
    Then(s, u, CALLED);
  }

  /** The world of this run: one controller, registered, and its cleanup. */
  predicate One(s: State, cleaner: Cleaner) {
    && s.launches.Keys == {1} && s.controllers.Keys == {1} && s.launches[1].controller == 1 && s.controllers[1].instanceId == ID
    && !s.launches[1].restart && s.controllers[1].pipelineId == ""
    && s.maxConcurrent == 0 && !s.draining && !s.cancelled && s.registry == map[ID := 1] && s.cleaners == map[CLEANER := cleaner]
  }

  lemma StaysOne(s: State, s': State, cleaner: Cleaner)
    requires One(s, cleaner) && Only(s, 1, s')
    ensures One(s', cleaner)
  {
  }

  /** The admission gets its claim. */
  lemma Admitted() returns (s: State)
    ensures Leads(Initial(0, map[]), s) && One(s, ScanRegistry({})) && Claimed(s, 1) && s.launches[1].pc.Slot? && Ctl(s, 1).lifecycleMu.None?
  {
    hide Leads;
    Listed();
    s := Claims(CALLED, 1);
    Onwards(Initial(0, map[]), CALLED, s);
    assert s.launches.Keys == {1} && s.controllers.Keys == {1};
  }

  /** The cleanup takes its candidates once the claim is published and before the record is created. */
  lemma Collected(s: State) returns (t: State)
    requires One(s, ScanRegistry({})) && Claimed(s, 1) && s.launches[1].pc.Slot? && Ctl(s, 1).lifecycleMu.None?
    ensures Leads(s, t) && One(t, Remove({(ID, 1)})) && Claimed(t, 1) && t.launches[1].pc.Slot? && Ctl(t, 1).lifecycleMu.None?
  {
    hide Leads;
    var candidates := set id | id in s.registry && id !in s.cleaners[CLEANER].durable :: (id, s.registry[id]);
    assert (ID, 1) in candidates by { assert ID in s.registry; }
    assert candidates == {(ID, 1)};
    t := s.(cleaners := s.cleaners[CLEANER := Remove(candidates)]);
    assert CollectCandidates(s, CLEANER, t) && CleanupStep(s, CLEANER, t);
    Stay(s);
    Then(s, s, t);
  }

  /** The admission runs, and its process ends. */
  lemma RanAndEnded(s: State) returns (t: State)
    requires One(s, Remove({(ID, 1)})) && Claimed(s, 1) && s.launches[1].pc.Slot? && Ctl(s, 1).lifecycleMu.None?
    ensures Leads(s, t) && One(t, Remove({(ID, 1)})) && Ending(t, 1, Finished) && t.launches[1].done
  {
    hide Leads, Claimed, Only, Spawned, RunsAt, Ending;
    var a := AdmissionStarts(s, 1);
    StaysOne(s, a, Remove({(ID, 1)}));
    var b := Succeeds(a, 1);
    StaysOne(a, b, Remove({(ID, 1)}));
    Onwards(s, a, b);
    t := Ends(b, 1);
    StaysOne(b, t, Remove({(ID, 1)}));
    Onwards(s, b, t);
  }

  /* ---- a restart looks its controller up, and the cleanup removes it ---- */

  function LookedUp(s: State): State { s.(launches := s.launches[2 := NewLaunch(1, Manual, true)]) }

  function Removed(s: State): State { LookedUp(s).(cleaners := map[CLEANER := Remove({})], registry := map[]) }

  lemma RestartLooksUp(s: State)
    requires One(s, Remove({(ID, 1)}))
    ensures Next(s, LookedUp(s))
  {
    assert Restart(s, 2, ID, LookedUp(s));
  }

  lemma RemovalFollows(s: State)
    requires One(s, Remove({(ID, 1)})) && Ending(s, 1, Finished) && s.launches[1].done
    ensures Next(LookedUp(s), Removed(s)) && Removes(LookedUp(s), CLEANER, (ID, 1), Removed(s)) && CanComeBack(LookedUp(s), (ID, 1))
  {
    var before, after := LookedUp(s), Removed(s);
    assert after.registry == before.registry - {ID};
    assert before.cleaners[CLEANER].candidates - {(ID, 1)} == {};
    assert after.cleaners == before.cleaners[CLEANER := Remove({})];
    assert RemoveCandidate(before, CLEANER, (ID, 1), after) && CleanupStep(before, CLEANER, after);
    assert !Refused(before, before.launches[2]);
  }

  /* ---- the whole run ---- */

  lemma InitialRuns(max: nat, durable: map<InstanceId, Record>)
    ensures Run([Initial(max, durable)])
  {
  }

  lemma OneMore(states: seq<State>, t: State)
    requires Run(states) && Next(states[|states| - 1], t)
    ensures Run(states + [t])
  {
    hide Next;
    var longer := states + [t];
    forall n | 0 <= n < |longer| - 1 ensures Next(longer[n], longer[n + 1]) {
      if n < |states| - 1 { assert longer[n] == states[n] && longer[n + 1] == states[n + 1]; }
    }
  }

  /** A run that ends in such a removal. */
  lemma RemovalHappens() returns (states: seq<State>, i: nat)
    ensures Run(states) && i + 1 < |states| && Removes(states[i], CLEANER, (ID, 1), states[i + 1]) && CanComeBack(states[i], (ID, 1))
  {
    hide Run, Next, Leads, Removes, CanComeBack, Removed, LookedUp, One, Claimed, Ending;
    var a := Admitted();
    var b := Collected(a);
    Onwards(Initial(0, map[]), a, b);
    var c := RanAndEnded(b);
    Onwards(Initial(0, map[]), b, c);
    RestartLooksUp(c);
    Then(Initial(0, map[]), c, LookedUp(c));
    RemovalFollows(c);
    InitialRuns(0, map[]);
    var start := [Initial(0, map[])];
    var before := Comeback.Extends(start, 0, LookedUp(c));
    i := |before| - 1;
    states := before + [Removed(c)];
    OneMore(before, Removed(c));
  }

  /** The promise that a removed controller never spawns again fails in a run where the record was stored before the
  removal and a restart was under way. */
  lemma RemovedControllerSpawnsAgain() returns (states: seq<State>, i: nat, j: nat, k: CleanerId, pick: (InstanceId, ControllerId), l: LaunchId)
    ensures Run(states) && i < j < |states| && Removes(states[i], k, pick, states[i + 1])
    ensures l in states[j].launches && states[j].launches[l].controller == pick.1
    ensures SpawnsOf(states[j], l) > SpawnsOf(states[i], l)
  {
    hide Run, Next, Removes, CanComeBack;
    k, pick := CLEANER, (ID, 1);
    var removal;
    removal, i := RemovalHappens();
    Comeback.RemovedControllerCanSpawnAgain(removal, i, k, pick);
    states, j, l :| Comeback.SpawnsAgain(removal, i, pick.1, states, j, l);
    assert states[..i + 2][i] == states[i] && states[..i + 2][i + 1] == states[i + 1];
  }
}
