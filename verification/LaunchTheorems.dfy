/** What the launch supervisor guarantees in every run. */
module LaunchTheorems {
  import opened Wrappers
  import opened LaunchState
  import opened LaunchSteps
  import opened LaunchInvariant
  import opened LaunchRuns

  lemma Facts(states: seq<State>, i: nat, l: LaunchId)
    requires Run(states) && i < |states| && l in states[i].launches
    ensures Known(states[i], l)
    ensures LaunchOk(l, states[i].launches[l], states[i].controllers[states[i].launches[l].controller], states[i].maxConcurrent)
  {
    hide Run, LaunchOk;
    RunInv(states, i);
  }

  lemma StepForward(states: seq<State>, i: nat)
    requires Run(states) && i + 1 < |states|
    ensures Forward(states[i], states[i + 1])
  {
    hide Inv, Forward;
    RunInv(states, i);
    NextKeeps(states[i], states[i + 1]);
  }

  /* ---- compatibility: one model, one owner, except for the entries of one pipeline ---- */

  /** Two distinct registered controllers of one model that are both in flight, or hold an operation, are two entries of one pipeline. */
  lemma AdmissionsAreCompatible(states: seq<State>, i: nat, a: InstanceId, b: InstanceId)
    requires Run(states) && i < |states| && a in states[i].registry && b in states[i].registry && a != b
    ensures states[i].registry[a] in states[i].controllers && states[i].registry[b] in states[i].controllers
    ensures var s := states[i]; var c, d := s.controllers[s.registry[a]], s.controllers[s.registry[b]];
            c.modelId == d.modelId && c.Visible() && d.Visible() ==>
              && c.pipelineId != "" && c.pipelineId == d.pipelineId
              && c.entryId != "" && d.entryId != "" && c.entryId != d.entryId
  {
    hide Run, LaunchesOk, ControllersOk, ScanOk, StopsOk, OperationsOk, ArbitrationOk, RestartsOk, CountsOk, DurableOk, Controller.Visible;
    RunInv(states, i);
  }

  /** A restart owns its controller from publication to release, over the whole gap between the old process and the new one. */
  lemma RestartReservationIsExclusive(states: seq<State>, i: nat, l: LaunchId, m: LaunchId)
    requires Run(states) && i < |states| && l in states[i].launches && Owning(states[i].launches[l].pc)
    ensures Known(states[i], l)
    ensures states[i].controllers[states[i].launches[l].controller].Visible()
    ensures m in states[i].launches && Owning(states[i].launches[m].pc) && states[i].launches[m].controller == states[i].launches[l].controller ==> m == l
  {
    Facts(states, i, l);
    if m in states[i].launches { Facts(states, i, m); }
  }

  /** A live process is decided by startCore or watched by wait(), and its controller is in flight unless a stale wait() wrote the state. */
  lemma LiveProcessIsOwned(states: seq<State>, i: nat, l: LaunchId)
    requires Run(states) && i < |states| && l in states[i].launches && states[i].launches[l].process.Alive?
    ensures Known(states[i], l)
    ensures var launch := states[i].launches[l]; var c := states[i].controllers[launch.controller];
            && c.process == Some(l)
            && (Deciding(launch.pc) || Open(launch))
            && (states[i].maxConcurrent > 0 ==> launch.slot)
            && !launch.done
            && (c.clobbered || (c.phase.InFlight() && c.run == Some(l)))
  {
    Facts(states, i, l);
  }

  /** Two live processes of one model whose controllers are conflict-visible belong to two entries of one pipeline. */
  lemma LiveProcessesAreCompatible(states: seq<State>, i: nat, l: LaunchId, m: LaunchId)
    requires Run(states) && i < |states| && l in states[i].launches && m in states[i].launches && l != m
    requires states[i].launches[l].process.Alive? && states[i].launches[m].process.Alive?
    requires Known(states[i], l) && Known(states[i], m)
    requires var s := states[i]; var c, d := s.controllers[s.launches[l].controller], s.controllers[s.launches[m].controller];
             && c.modelId == d.modelId && c.Visible() && d.Visible()
             && c.instanceId in s.registry && s.registry[c.instanceId] == s.launches[l].controller
             && d.instanceId in s.registry && s.registry[d.instanceId] == s.launches[m].controller
    ensures var s := states[i]; var c, d := s.controllers[s.launches[l].controller], s.controllers[s.launches[m].controller];
            s.launches[l].controller != s.launches[m].controller && c.pipelineId == d.pipelineId != "" && c.entryId != d.entryId
  {
    hide Run;
    LiveProcessIsOwned(states, i, l);
    LiveProcessIsOwned(states, i, m);
    var s := states[i];
    AdmissionsAreCompatible(states, i, s.controllers[s.launches[l].controller].instanceId, s.controllers[s.launches[m].controller].instanceId);
  }

  /* ---- shutdown drain ---- */

  function Undrained(s: State): set<LaunchId> { set l | l in s.launches && HoldsToken(s.launches[l]) }

  /** preSpawnInFlight counts the admissions between publication and commit or abort, and zeroSig is closed exactly when none is left. */
  lemma TokensAreCounted(states: seq<State>, i: nat)
    requires Run(states) && i < |states|
    ensures states[i].preSpawnInFlight == |Undrained(states[i])|
    ensures states[i].zeroSig <==> states[i].draining && Undrained(states[i]) == {}
  {
    hide Run, LaunchesOk, ScanOk, StopsOk, OperationsOk, ArbitrationOk, RestartsOk, DurableOk, Exclusive, HoldsToken, ControllerOk;
    RunInv(states, i);
    var s := states[i];
    forall l | l in Undrained(s) ensures s.launches[l].controller in Tokens(s) && s.controllers[s.launches[l].controller].creator == l {
      TokenHolder(states, i, l);
    }
    forall c | c in Tokens(s) ensures s.controllers[c].creator in Undrained(s) && s.launches[s.controllers[c].creator].controller == c {
      CreatorHoldsToken(states, i, c);
    }
    Injects(Undrained(s), Tokens(s), map l | l in Undrained(s) :: s.launches[l].controller);
    Injects(Tokens(s), Undrained(s), map c | c in Tokens(s) :: s.controllers[c].creator);
  }

  lemma TokenHolder(states: seq<State>, i: nat, l: LaunchId)
    requires Run(states) && i < |states| && l in states[i].launches && HoldsToken(states[i].launches[l])
    ensures Known(states[i], l)
    ensures var c := states[i].controllers[states[i].launches[l].controller]; c.preSpawnToken && c.creator == l
  {
    Facts(states, i, l);
  }

  lemma CreatorHoldsToken(states: seq<State>, i: nat, c: ControllerId)
    requires Run(states) && i < |states| && c in states[i].controllers && states[i].controllers[c].preSpawnToken
    ensures var l := states[i].controllers[c].creator;
            l in states[i].launches && states[i].launches[l].controller == c && HoldsToken(states[i].launches[l])
  {
    assert ControllerOk(states[i], c) by {
      hide Run, ControllerOk;
      RunInv(states, i);
    }
    Facts(states, i, states[i].controllers[c].creator);
  }

  lemma {:induction false} Injects<A, B>(a: set<A>, b: set<B>, f: map<A, B>)
    requires a <= f.Keys
    requires forall x :: x in a ==> f[x] in b
    requires forall x, y :: x in a && y in a && f[x] == f[y] ==> x == y
    ensures |a| <= |b|
  {
    if a != {} {
      var x :| x in a;
      Injects(a - {x}, b - {f[x]}, f);
    }
  }

  /** The token of an admission is consumed at most once, and exactly once by the time the call has ended with a claim. */
  lemma TokensAreConsumedOnce(states: seq<State>, i: nat, l: LaunchId)
    requires Run(states) && i < |states| && l in states[i].launches
    ensures var launch := states[i].launches[l];
            && 0 <= launch.tokens <= 1
            && (launch.restart ==> launch.tokens == 0)
            && (launch.pc.Done? && !launch.restart ==> (launch.tokens == 1 <==> launch.claim.Some?))
            && (launch.tokens == 1 ==> !HoldsToken(launch))
            && (launch.committed && !launch.restart ==> launch.tokens == 1)
  {
    Facts(states, i, l);
  }

  /** From drain-start on no launch and no restart passes commit C. */
  lemma {:induction false} DrainFreezesCommits(states: seq<State>, i: nat, j: nat, l: LaunchId)
    requires Run(states) && i <= j < |states| && states[i].draining
    requires l in states[j].launches && states[j].launches[l].committed
    ensures states[j].draining
    ensures l in states[i].launches && states[i].launches[l].committed
    decreases j
  {
    hide Run, Next;
    if i < j {
      DrainStays(states, i, j - 1);
      StepForward(states, j - 1);
      DrainFreezesCommits(states, i, j - 1, l);
    }
  }

  lemma {:induction false} DrainStays(states: seq<State>, i: nat, j: nat)
    requires Run(states) && i <= j < |states| && states[i].draining
    ensures states[j].draining && states[j].preSpawnInFlight <= states[i].preSpawnInFlight
    decreases j
  {
    hide Run, Next;
    if i < j {
      DrainStays(states, i, j - 1);
      StepForward(states, j - 1);
    }
  }

  /** Once closed, zeroSig stays closed. */
  lemma ZeroSignalStays(states: seq<State>, i: nat, j: nat)
    requires Run(states) && i <= j < |states| && states[i].zeroSig
    ensures states[j].zeroSig && Undrained(states[j]) == {}
  {
    hide Run;
    TokensAreCounted(states, i);
    TokensAreCounted(states, j);
    DrainStays(states, i, j);
  }

  function SpawnsOf(s: State, l: LaunchId): int { if l in s.launches then s.launches[l].spawns else 0 }

  /** A manager.Start after drain-start belongs to a commit that preceded it. */
  lemma LateSpawnsWereCommitted(states: seq<State>, d: nat, i: nat, l: LaunchId)
    requires Run(states) && d <= i && i + 1 < |states| && states[d].draining
    requires SpawnsOf(states[i + 1], l) > SpawnsOf(states[i], l)
    ensures l in states[d].launches && states[d].launches[l].committed
  {
    hide Run, Next, LaunchOk;
    StepForward(states, i);
    Facts(states, i, l);
    assert states[i].launches[l].committed by { CommittedAtSpawn(states, i, l); }
    DrainFreezesCommits(states, d, i, l);
  }

  lemma CommittedAtSpawn(states: seq<State>, i: nat, l: LaunchId)
    requires Run(states) && i < |states| && l in states[i].launches && states[i].launches[l].pc.Spawn?
    ensures states[i].launches[l].committed
  {
    Facts(states, i, l);
  }

  /* ---- fail-closed start ---- */

  /** What startCore returned says what is true of the process, the slot, the run and the state. */
  lemma StartIsFailClosed(states: seq<State>, i: nat, l: LaunchId)
    requires Run(states) && i < |states| && l in states[i].launches
    ensures Known(states[i], l)
    ensures var launch := states[i].launches[l];
            launch.outcome.Error? || launch.outcome.Aborted? ==> !launch.process.Alive? && !launch.slot
    ensures var launch := states[i].launches[l]; launch.outcome.Aborted? ==> launch.spawns == 0
    ensures var launch := states[i].launches[l]; var c := states[i].controllers[launch.controller];
            launch.outcome.Residual? && launch.waiter.Waiting? ==>
              && (states[i].maxConcurrent > 0 ==> launch.slot)
              && launch.started && !launch.done
              && (!c.clobbered ==> c.run == Some(l) && (c.phase.Starting? || c.phase.Stopping?))
    ensures var launch := states[i].launches[l];
            (launch.outcome.Residual? || launch.outcome.Success?) && !launch.waiter.Waiting? ==> launch.process.Reaped?
  {
    Facts(states, i, l);
  }

  /** A reported success was durable: some state of the run had the PID and the start time of this process stored as running. */
  lemma {:induction false} SuccessWasDurable(states: seq<State>, i: nat, l: LaunchId) returns (k: nat)
    requires Run(states) && i < |states| && l in states[i].launches && states[i].launches[l].outcome.Success?
    ensures k <= i && Announced(states[k], l) && states[k].launches[l].outcome.Success?
  {
    hide Run, Next, Announced;
    if i == 0 {
      InitialIsEmpty(states);
      assert false;
    } else {
      StepForward(states, i - 1);
      if l in states[i - 1].launches && states[i - 1].launches[l].outcome.Success? {
        k := SuccessWasDurable(states, i - 1, l);
      } else {
        k := i;
      }
    }
  }

  lemma InitialIsEmpty(states: seq<State>)
    requires Run(states)
    ensures states[0].launches == map[]
  {
  }

  /* ---- slots ---- */

  function Living(s: State): set<LaunchId> { set l | l in s.launches && s.launches[l].process.Alive? }

  /** Free tokens and held reservations add up; live processes never exceed the limit; a closed run has returned its slot. */
  lemma SlotsAreConserved(states: seq<State>, i: nat)
    requires Run(states) && i < |states|
    ensures states[i].free >= 0 && states[i].free + |Held(states[i])| == states[i].maxConcurrent
    ensures states[i].maxConcurrent > 0 ==> |Living(states[i])| <= states[i].maxConcurrent
    ensures forall l :: l in states[i].launches && states[i].launches[l].done ==> !states[i].launches[l].slot
    ensures forall l :: l in Held(states[i]) ==> SlotInUse(states[i].launches[l])
  {
    hide Run, LaunchOk, LaunchesOk, ControllersOk, ScanOk, StopsOk, OperationsOk, ArbitrationOk, RestartsOk, DurableOk, Exclusive;
    RunInv(states, i);
    forall l | l in states[i].launches
      ensures states[i].launches[l].done ==> !states[i].launches[l].slot
      ensures states[i].launches[l].slot ==> SlotInUse(states[i].launches[l])
      ensures states[i].maxConcurrent > 0 && states[i].launches[l].process.Alive? ==> states[i].launches[l].slot
    {
      SlotFacts(states, i, l);
    }
    if states[i].maxConcurrent > 0 {
      Smaller(Living(states[i]), Held(states[i]));
    }
  }

  lemma SlotFacts(states: seq<State>, i: nat, l: LaunchId)
    requires Run(states) && i < |states| && l in states[i].launches
    ensures states[i].launches[l].done ==> !states[i].launches[l].slot
    ensures states[i].launches[l].slot ==> SlotInUse(states[i].launches[l])
    ensures states[i].maxConcurrent > 0 && states[i].launches[l].process.Alive? ==> states[i].launches[l].slot
  {
    Facts(states, i, l);
  }

  lemma Smaller<T>(a: set<T>, b: set<T>)
    requires a <= b
    ensures |a| <= |b|
  {
    assert b == a + (b - a);
  }

  /* ---- spawn authority ---- */

  /** Every process was started under one spent claim that arbitration minted for its controller, and no claim starts two. */
  lemma SpawnsAreAuthorized(states: seq<State>, i: nat, l: LaunchId)
    requires Run(states) && i < |states| && l in states[i].launches
    ensures Known(states[i], l)
    ensures var launch := states[i].launches[l]; var c := states[i].controllers[launch.controller];
            && 0 <= launch.spawns <= 1
            && (launch.spawns > 0 ==> launch.committed && launch.claim.Some? && launch.claim.value.consumed
                                      && launch.claim.value.instanceId == c.instanceId && launch.claim.value.modelId == c.modelId
                                      && launch.claim.value.owner == launch.owner && launch.claim.value.opId <= states[i].opSeq)
    ensures forall m :: m in states[i].launches && SameOperation(states[i].launches[l], states[i].launches[m]) ==> m == l
  {
    hide Run, LaunchesOk, ControllersOk, ScanOk, StopsOk, ArbitrationOk, RestartsOk, DurableOk, Exclusive, CountsOk;
    RunInv(states, i);
    Facts(states, i, l);
  }

  /** The claim of a launch that reaches commit C still stands. */
  lemma ClaimsStandAtCommit(states: seq<State>, i: nat, l: LaunchId)
    requires Run(states) && i < |states| && l in states[i].launches && states[i].launches[l].pc.Commit?
    ensures Known(states[i], l) && ClaimAccepted(l, states[i].launches[l], states[i].controllers[states[i].launches[l].controller])
  {
    hide Run;
    Facts(states, i, l);
    var launch := states[i].launches[l];
    assert Owning(launch.pc) && !Consumed(launch);
  }

  /** consumeSpawnClaimLocked never rejects in a run. */
  lemma ClaimsAreNeverRejected(states: seq<State>, i: nat, l: LaunchId, s': State)
    requires Run(states) && i < |states|
    ensures !ClaimRejected(states[i], l, s')
  {
    hide ClaimRejected, Inv;
    RunInv(states, i);
    ClaimIsNeverRejected(states[i], l, s');
  }
}
