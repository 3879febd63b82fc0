/** Interference: what a step of one goroutine leaves intact for all the others. */
module LaunchFrames {
  import opened Wrappers
  import opened LaunchState
  import opened LaunchSteps
  import opened LaunchInvariant

  /** A change of a controller from c to d that launch l, which takes no part in it, tolerates. */
  predicate Undisturbed(l: LaunchId, launch: Launch, c: Controller, d: Controller) {
    && d.instanceId == c.instanceId && d.modelId == c.modelId && d.pipelineId == c.pipelineId && d.entryId == c.entryId && d.creator == c.creator
    && (c.born ==> d.born)
    && (c.creator == l ==> d.born == c.born && d.preSpawnToken == c.preSpawnToken && (!c.born ==> d.active == c.active))
    && (c.active.Some? && c.active.value.claim == l ==> d.active == c.active && d.run == c.run)
    && (c.creator == l && (!c.born || HoldsToken(launch)) ==> d.run == c.run && d.clobbered == c.clobbered)
    && (c.mu == Some(LaunchHolder(l)) ==> d.mu == c.mu && d.phase == c.phase && d.identity == c.identity && d.run == c.run)
    && (c.lifecycleMu == Some(LaunchHolder(l)) ==> d.lifecycleMu == c.lifecycleMu)
    && (c.process == Some(l) ==> d.process == c.process)
    && (Open(launch) && !d.clobbered ==> !c.clobbered && d.run == c.run && (d.phase == c.phase || d.phase.Stopping?))
  }

  lemma Tolerates(l: LaunchId, launch: Launch, c: Controller, d: Controller, max: nat)
    requires LaunchOk(l, launch, c, max) && Undisturbed(l, launch, c, d)
    ensures LaunchOk(l, launch, d, max)
  {
  }

  predicate StopUndisturbed(t: StopId, c: Controller, d: Controller) {
    && (c.born ==> d.born)
    && (c.mu == Some(StopHolder(t)) ==> d.mu == c.mu)
    && (c.lifecycleMu == Some(StopHolder(t)) ==> d.lifecycleMu == c.lifecycleMu)
  }

  /** s' differs from s in launch l, its controller and the supervisor's own fields only. */
  predicate OnlyLaunch(s: State, s': State, l: LaunchId) {
    && l in s.launches && l in s'.launches && s.launches[l].controller in s.controllers && s'.launches[l].controller in s'.controllers
    && s'.maxConcurrent == s.maxConcurrent
    && s'.stops == s.stops
    && s'.launches[l].controller == s.launches[l].controller
    && s'.launches.Keys == s.launches.Keys
    && (forall m :: m in s.launches && m != l ==> s'.launches[m] == s.launches[m])
    && s'.controllers.Keys == s.controllers.Keys
    && (forall c :: c in s.controllers && c != s.launches[l].controller ==> s'.controllers[c] == s.controllers[c])
  }

  predicate RegistryKept(s: State, s': State) {
    forall id :: id in s'.registry ==> id in s.registry && s'.registry[id] == s.registry[id]
  }

  /** Registered controllers exist, have been published, and sit at their own instance id. */
  predicate Registered(s: State) {
    forall id :: id in s.registry ==>
      s.registry[id] in s.controllers && s.controllers[s.registry[id]].instanceId == id && s.controllers[s.registry[id]].born
  }

  /** The controller of l before and after. */
  function Before(s: State, l: LaunchId): Controller
    requires Known(s, l)
  { s.controllers[s.launches[l].controller] }

  function After(s: State, s': State, l: LaunchId): Controller
    requires OnlyLaunch(s, s', l)
  { s'.controllers[s.launches[l].controller] }

  /** No other goroutine is disturbed by the step of launch l. */
  predicate Harmless(s: State, s': State, l: LaunchId)
    requires OnlyLaunch(s, s', l)
  {
    && (forall m :: m in s.launches && m != l && s.launches[m].controller == s.launches[l].controller
          ==> Undisturbed(m, s.launches[m], Before(s, l), After(s, s', l)))
    && (forall t :: t in s.stops && s.stops[t].controller == s.launches[l].controller
          ==> StopUndisturbed(t, Before(s, l), After(s, s', l)))
  }

  lemma TablesFrame(s: State, s': State, l: LaunchId)
    requires Tables(s) && OnlyLaunch(s, s', l)
    requires After(s, s', l).instanceId == Before(s, l).instanceId && (Before(s, l).born ==> After(s, s', l).born)
    requires RegistryKept(s, s') || Registered(s')
    ensures Tables(s')
  {
    forall m | m in s'.launches ensures s'.launches[m].controller in s'.controllers {
      assert s'.launches[m].controller == s.launches[m].controller;
    }
    forall c | c in s'.controllers ensures c in s.controllers && s'.controllers[c].instanceId == s.controllers[c].instanceId {
    }
  }

  lemma LaunchesFrame(s: State, s': State, l: LaunchId)
    requires Tables(s) && Tables(s') && LaunchesOk(s)
    requires OnlyLaunch(s, s', l) && Harmless(s, s', l)
    requires LaunchOk(l, s'.launches[l], After(s, s', l), s.maxConcurrent)
    ensures LaunchesOk(s')
  {
    forall m | m in s'.launches ensures LaunchOk(m, s'.launches[m], s'.controllers[s'.launches[m].controller], s'.maxConcurrent) {
      if m != l {
        var id := s.launches[m].controller;
        assert s'.launches[m] == s.launches[m];
        assert LaunchOk(m, s.launches[m], s.controllers[id], s.maxConcurrent);
        if id == s.launches[l].controller {
          Tolerates(m, s.launches[m], Before(s, l), After(s, s', l), s.maxConcurrent);
        } else {
          assert s'.controllers[id] == s.controllers[id];
        }
      }
    }
  }

  lemma ControllerKept(s: State, s': State, l: LaunchId, c: ControllerId)
    requires OnlyLaunch(s, s', l) && c in s.controllers && c != s.launches[l].controller && ControllerOk(s, c)
    ensures c in s'.controllers && ControllerOk(s', c)
  {
    assert c in s.controllers.Keys && s'.controllers[c] == s.controllers[c];
    forall m | m in s'.launches.Keys && s'.launches[m].controller == c
      ensures m in s.launches && s'.launches[m] == s.launches[m]
    {
    }
    forall m | m in s.launches.Keys && s.launches[m].controller == c
      ensures m in s'.launches && s'.launches[m] == s.launches[m]
    {
    }
  }

  lemma ControllersFrame(s: State, s': State, l: LaunchId)
    requires Tables(s) && ControllersOk(s)
    requires OnlyLaunch(s, s', l)
    requires ControllerOk(s', s.launches[l].controller)
    ensures ControllersOk(s')
  {
    forall c | c in s'.controllers ensures ControllerOk(s', c) {
      if c != s.launches[l].controller {
        ControllerKept(s, s', l, c);
      }
    }
  }

  lemma StopsFrame(s: State, s': State, l: LaunchId)
    requires Tables(s) && Tables(s') && StopsOk(s)
    requires OnlyLaunch(s, s', l) && Harmless(s, s', l)
    ensures StopsOk(s')
  {
    forall t | t in s'.stops ensures StopOk(t, s'.stops[t], s'.controllers[s'.stops[t].controller]) {
      assert StopOk(t, s.stops[t], s.controllers[s.stops[t].controller]);
    }
  }

  /* ---- the arbitration part: a step that neither publishes nor makes anything visible ---- */

  predicate Quiet(s: State, s': State, l: LaunchId)
    requires OnlyLaunch(s, s', l)
  {
    && RegistryKept(s, s') && s'.arbLocks == s.arbLocks && s'.opSeq >= s.opSeq
    && s'.launches[l].owner == s.launches[l].owner && s'.launches[l].restart == s.launches[l].restart
    && (s'.launches[l].claim.Some? ==> s.launches[l].claim.Some? && s'.launches[l].claim.value.opId == s.launches[l].claim.value.opId)
    && !Arbitrating(s'.launches[l].pc) && !Arbitrating(s.launches[l].pc)
    && After(s, s', l).instanceId == Before(s, l).instanceId
    && After(s, s', l).modelId == Before(s, l).modelId
    && After(s, s', l).pipelineId == Before(s, l).pipelineId
    && After(s, s', l).entryId == Before(s, l).entryId
    && (After(s, s', l).Visible() ==> Before(s, l).Visible())
    && (After(s, s', l).active.Some? ==> Before(s, l).active.Some?)
  }

  lemma QuietOperations(s: State, s': State, l: LaunchId)
    requires Tables(s) && OperationsOk(s)
    requires Tables(s') && OnlyLaunch(s, s', l) && Quiet(s, s', l)
    ensures OperationsOk(s')
  {
    hide Tables, Controller.Visible, RegistryKept;
    forall m | m in s'.launches && m != l ensures m in s.launches && s'.launches[m] == s.launches[m] { assert m in s.launches.Keys; }
    assert s'.launches[l].claim.Some? ==> SameOperation(s'.launches[l], s.launches[l]);
  }

  lemma QuietArbitration(s: State, s': State, l: LaunchId)
    requires Tables(s) && ArbitrationOk(s)
    requires Tables(s') && OnlyLaunch(s, s', l) && Quiet(s, s', l)
    ensures ArbitrationOk(s')
  {
    hide Controller.Visible, RegistryKept;
    forall m | m in s'.launches && m != l ensures m in s.launches && s'.launches[m] == s.launches[m] { assert m in s.launches.Keys; }
  }

  lemma QuietScan(s: State, s': State, l: LaunchId)
    requires Tables(s) && ScanOk(s)
    requires Tables(s') && OnlyLaunch(s, s', l) && Quiet(s, s', l)
    ensures ScanOk(s')
  {
    forall m, id | m in s'.launches && Examined(s'.launches[m].pc, id) && id in s'.registry
      ensures !Conflicts(s', s'.launches[m], id)
    {
      assert m != l && s'.launches[m] == s.launches[m];
      assert !Conflicts(s, s.launches[m], id);
    }
  }

  lemma QuietExclusive(s: State, s': State, l: LaunchId)
    requires Tables(s) && Exclusive(s)
    requires Tables(s') && OnlyLaunch(s, s', l) && Quiet(s, s', l)
    ensures Exclusive(s')
  {
  }

  /* ---- counting ---- */

  lemma HeldFrame(s: State, s': State, l: LaunchId)
    requires OnlyLaunch(s, s', l)
    ensures s'.launches[l].slot == s.launches[l].slot ==> Held(s') == Held(s)
    ensures s'.launches[l].slot && !s.launches[l].slot ==> |Held(s')| == |Held(s)| + 1
    ensures !s'.launches[l].slot && s.launches[l].slot ==> |Held(s')| == |Held(s)| - 1
  {
    forall m ensures m != l ==> (m in Held(s') <==> m in Held(s)) {
      if m in s.launches.Keys && m != l { assert s'.launches[m] == s.launches[m]; }
    }
    assert l in Held(s) <==> s.launches[l].slot;
    assert l in Held(s') <==> s'.launches[l].slot;
    assert Held(s) - {l} == Held(s') - {l};
    Differ(Held(s), Held(s'), l);
  }

  lemma TokensFrame(s: State, s': State, c: ControllerId)
    requires c in s.controllers && c in s'.controllers
    requires s'.controllers.Keys == s.controllers.Keys
    requires forall d :: d in s.controllers && d != c ==> s'.controllers[d] == s.controllers[d]
    ensures s'.controllers[c].preSpawnToken == s.controllers[c].preSpawnToken ==> Tokens(s') == Tokens(s)
    ensures s'.controllers[c].preSpawnToken && !s.controllers[c].preSpawnToken ==> |Tokens(s')| == |Tokens(s)| + 1
    ensures !s'.controllers[c].preSpawnToken && s.controllers[c].preSpawnToken ==> |Tokens(s')| == |Tokens(s)| - 1
  {
    forall d ensures d != c ==> (d in Tokens(s') <==> d in Tokens(s)) {
      if d in s.controllers.Keys && d != c { assert s'.controllers[d] == s.controllers[d]; }
    }
    assert c in Tokens(s) <==> s.controllers[c].preSpawnToken;
    assert c in Tokens(s') <==> s'.controllers[c].preSpawnToken;
    assert Tokens(s) - {c} == Tokens(s') - {c};
    Differ(Tokens(s), Tokens(s'), c);
  }

  lemma Differ<T>(a: set<T>, b: set<T>, x: T)
    requires a - {x} == b - {x}
    ensures (x in a <==> x in b) ==> a == b
    ensures x in b && x !in a ==> |b| == |a| + 1
    ensures x in a && x !in b ==> |b| == |a| - 1
  {
    assert x in b ==> b == (b - {x}) + {x};
    assert x !in b ==> b == b - {x};
    assert x in a ==> a == (a - {x}) + {x};
    assert x !in a ==> a == a - {x};
  }

  /* ---- restarts and success records ---- */

  predicate BothOwn(a: Launch, b: Launch) { Owning(a.pc) && Owning(b.pc) && a.controller == b.controller }

  /** A controller has one owning launch at a time. */
  predicate UniqueOwners(s: State) {
    forall l, m :: l in s.launches && m in s.launches && BothOwn(s.launches[l], s.launches[m]) ==> l == m
  }

  lemma OwnersAreUnique(s: State)
    requires Tables(s) && LaunchesOk(s)
    ensures UniqueOwners(s)
  {
    forall l, m | l in s.launches && m in s.launches && BothOwn(s.launches[l], s.launches[m]) ensures l == m
    {
      var c := s.controllers[s.launches[l].controller];
      assert ClaimOk(l, s.launches[l], c) by { assert LaunchOk(l, s.launches[l], c, s.maxConcurrent); }
      assert ClaimOk(m, s.launches[m], c) by { assert LaunchOk(m, s.launches[m], c, s.maxConcurrent); }
    }
  }

  lemma RestartFrame(s: State, s': State, l: LaunchId)
    requires Tables(s) && UniqueOwners(s) && RestartsOk(s)
    requires Tables(s') && OnlyLaunch(s, s', l)
    requires Owning(s.launches[l].pc) || ((Open(s'.launches[l]) ==> Open(s.launches[l])) && After(s, s', l).run == Before(s, l).run)
    requires Before(s, l).clobbered ==> After(s, s', l).clobbered
    requires ReadyToStart(s'.launches[l]) ==> After(s, s', l).clobbered || NoOpenRun(s', s.launches[l].controller)
    requires s'.launches[l].pc.AwaitRun? ==> After(s, s', l).run == Some(s'.launches[l].pc.previous)
    ensures RestartsOk(s')
  {
    forall m | m in s'.launches && ReadyToStart(s'.launches[m])
      ensures s'.controllers[s'.launches[m].controller].clobbered || NoOpenRun(s', s'.launches[m].controller)
    {
      if m != l {
        ReadyStaysReady(s, s', l, m);
      }
    }
    forall m | m in s'.launches && s'.launches[m].pc.AwaitRun?
      ensures s'.controllers[s'.launches[m].controller].run == Some(s'.launches[m].pc.previous)
    {
      if m != l {
        assert s'.launches[m] == s.launches[m] && BothOwn(s.launches[m], s.launches[m]);
      }
    }
  }

  lemma ReadyStaysReady(s: State, s': State, l: LaunchId, m: LaunchId)
    requires Tables(s) && UniqueOwners(s) && RestartsOk(s)
    requires Tables(s') && OnlyLaunch(s, s', l)
    requires Open(s'.launches[l]) && !Open(s.launches[l]) ==> Owning(s.launches[l].pc)
    requires Before(s, l).clobbered ==> After(s, s', l).clobbered
    requires m in s.launches && m != l && ReadyToStart(s.launches[m])
    ensures s'.controllers[s.launches[m].controller].clobbered || NoOpenRun(s', s.launches[m].controller)
  {
    var id := s.launches[m].controller;
    hide Tables;
    if !s'.controllers[id].clobbered {
      assert !s.controllers[id].clobbered && NoOpenRun(s, id);
      assert Owning(s.launches[m].pc);
      forall k | k in s'.launches && s'.launches[k].controller == id ensures !Open(s'.launches[k]) {
        if k != l { assert s'.launches[k] == s.launches[k]; }
      }
    }
  }

  lemma DurableFrame(s: State, s': State, l: LaunchId)
    requires Tables(s) && DurableOk(s) && Tables(s') && OnlyLaunch(s, s', l)
    requires After(s, s', l).instanceId == Before(s, l).instanceId && After(s, s', l).modelId == Before(s, l).modelId
    requires s.written <= s'.written
    requires s'.launches[l].outcome.Success? ==>
               (After(s, s', l).instanceId, Record(After(s, s', l).modelId, Running, Some(l))) in s'.written
    ensures DurableOk(s')
  {
    forall m | m in s'.launches && s'.launches[m].outcome.Success?
      ensures var c := s'.controllers[s'.launches[m].controller]; (c.instanceId, Record(c.modelId, Running, Some(m))) in s'.written
    {
      if m != l { assert s'.launches[m] == s.launches[m]; }
    }
  }
}
