/** The exact condition under which a live process can be joined by one it is incompatible with. */
module LaunchCollide {
  import opened Wrappers
  import opened LaunchState
  import opened LaunchSteps
  import opened LaunchInvariant
  import opened LaunchBacked
  import opened LaunchSeen
  import opened LaunchPaths
  import opened LaunchScript
  import opened LaunchSettle
  import opened LaunchComeback

  /* ---- another admission of the model is called ---- */

  lemma {:induction false} Above(xs: set<int>) returns (bound: int)
    ensures forall x :: x in xs ==> x < bound
    decreases xs
  {
    if xs == {} { return 0; }
    var x := Picked(xs);
    var rest := Above(xs - {x});
    bound := if rest <= x then x + 1 else rest;
    forall y | y in xs ensures y < bound { if y != x { assert y in xs - {x}; } }
  }

  lemma Unused(s: State) returns (n: LaunchId, id: ControllerId, one: InstanceId)
    ensures n !in s.launches && id !in s.controllers && FreshInstance(s, one)
  {
    n := Above(s.launches.Keys);
    id := Above(s.controllers.Keys);
    var taken := set c | c in s.controllers :: s.controllers[c].instanceId;
    one := Above(s.durable.Keys + s.registry.Keys + taken);
    forall c | c in s.controllers ensures s.controllers[c].instanceId != one { assert s.controllers[c].instanceId in taken; }
  }

  /** A manual admission of a new instance has been called. */
  function Joined(s: State, n: LaunchId, id: ControllerId, one: InstanceId, model: ModelId): State {
    s.(launches := s.launches[n := NewLaunch(id, Manual, false)], controllers := s.controllers[id := NewController(n, one, model, "", "")])
  }

  lemma Joins(s: State, n: LaunchId, id: ControllerId, one: InstanceId, model: ModelId)
    requires n !in s.launches && id !in s.controllers && FreshInstance(s, one)
    ensures Next(s, Joined(s, n, id, one, model))
  {
    assert Admit(s, n, id, NewController(n, one, model, "", ""), Joined(s, n, id, one, model));
  }

  lemma JoinedWaits(s: State, n: LaunchId, id: ControllerId, one: InstanceId, model: ModelId)
    requires Tables(s) && id !in s.controllers && !s.draining && !s.cancelled
    ensures Waits(Joined(s, n, id, one, model), n)
  {
  }

  /* ---- at rest the registry no longer shows an unseen process ---- */

  lemma RestedIsTight(s: State, n: LaunchId, l: LaunchId, m: LaunchId)
    requires Ready(s, n) && Tables(s) && Settled(s, n, {l}) && m in s.launches && m != l
    ensures !Loose(s.launches[m])
  {
    hide Inv, Backed, Alone;
    if m == n { WaiterIsStill(s, n); } else { assert Rested(s, n, {l}, m); }
  }

  lemma ShownIsSeen(s: State, n: LaunchId, l: LaunchId, id: InstanceId)
    requires Ready(s, n) && Tables(s) && Settled(s, n, {l}) && Lives(s, l) && id in s.registry
    requires var c := s.controllers[s.registry[id]]; c.phase.InFlight() && c.run == Some(l)
    ensures Seen(s, l)
  {
    hide Ready, Settled, Loose;
    ReadyInv(s, n);
    GroundedIn(s, s.registry[id]);
    assert Enrolled(s, s.registry[id]);
    forall m | m in s.launches && m != l ensures !Loose(s.launches[m]) { RestedIsTight(s, n, l, m); }
  }

  lemma ReadyInv(s: State, n: LaunchId)
    requires Ready(s, n)
    ensures Inv(s)
  {
    hide Inv, Backed, Tables, Waits, Alone;
  }

  lemma UnseenIsHidden(s: State, n: LaunchId, l: LaunchId)
    requires Ready(s, n) && Tables(s) && Settled(s, n, {l}) && Lives(s, l) && !Seen(s, l)
    ensures Hidden(s, {l})
  {
    hide Ready, Settled, Seen;
    forall id | id in s.registry && s.controllers[s.registry[id]].phase.InFlight()
      ensures s.controllers[s.registry[id]].run != Some(l)
    {
      if s.controllers[s.registry[id]].run == Some(l) { ShownIsSeen(s, n, l, id); }
    }
  }

  /* ---- the admission runs ---- */

  lemma JoinedCollides(s: State, n: LaunchId, l: LaunchId, u: State)
    requires Only(s, n, u) && Spawned(u, n) && Lives(s, l) && s.launches[l].controller != s.launches[n].controller
    requires Ctl(s, l).modelId == Ctl(s, n).modelId && Ctl(s, n).pipelineId == ""
    requires u.registry == s.registry[Ctl(s, n).instanceId := s.launches[n].controller]
    ensures Colliding(u, l, n)
  {
    assert u.launches[l] == s.launches[l] && u.controllers[s.launches[l].controller] == s.controllers[s.launches[l].controller];
  }

  /** The run goes on to a state in which l is still alive and m collides with it. */
  ghost predicate Collides(states: seq<State>, i: nat, l: LaunchId, longer: seq<State>, j: nat, m: LaunchId) {
    i < |states| && Run(longer) && states[..i + 1] <= longer && i <= j < |longer| && Colliding(longer[j], l, m)
  }

  /** The state b follows i in a run of its own. */
  ghost predicate Follows(states: seq<State>, i: nat, longer: seq<State>, b: State) {
    i < |states| && Run(longer) && states[..i + 1] <= longer && |longer| > i && longer[|longer| - 1] == b
  }

  lemma FollowsOn(states: seq<State>, i: nat, longer: seq<State>, b: State, u: State) returns (longest: seq<State>)
    requires Follows(states, i, longer, b) && Leads(b, u)
    ensures Follows(states, i, longest, u) && longer <= longest
  {
    hide Run, Leads;
    longest := Extends(longer, |longer| - 1, u);
    assert longer[..|longer| - 1 + 1] == longer;
  }

  /** While an unseen process lives, everybody else can come to rest with a new admission of its model waiting. */
  lemma Rests(states: seq<State>, i: nat, l: LaunchId) returns (longer: seq<State>, b: State, n: LaunchId)
    requires Run(states) && i < |states| && Lives(states[i], l) && !Seen(states[i], l) && !states[i].draining && !states[i].cancelled
    ensures Follows(states, i, longer, b) && Ready(b, n) && Tables(b) && Settled(b, n, {l}) && Lives(b, l) && !Seen(b, l)
    ensures Known(b, n) && b.launches[l].controller != b.launches[n].controller && !b.launches[n].restart
    ensures Ctl(b, l).modelId == Ctl(b, n).modelId && Ctl(b, n).pipelineId == ""
  {
    hide Run, Next, Leads, Seen, Ready, Settled, Waits, Inv, Backed, Tables, Whole;
    var s := states[i];
    WholeMeans(states, i);
    var id, one;
    n, id, one := Unused(s);
    var t := Joined(s, n, id, one, Ctl(s, l).modelId);
    Joins(s, n, id, one, Ctl(s, l).modelId);
    JoinedWaits(s, n, id, one, Ctl(s, l).modelId);
    Stay(s);
    Then(s, s, t);
    var first := Extends(states, i, t);
    WholeMeans(first, |first| - 1);
    var a := Clears(t, n, {l});
    b := Settles(a, n, {l});
    Onwards(t, a, b);
    longer := FollowsOn(states, i, first, t, b);
    WholeMeans(longer, |longer| - 1);
    assert longer[i] == states[..i + 1][i];
    SteadyAlong(longer, i, |longer| - 1, l);
    SteadyAlong(longer, |first| - 1, |longer| - 1, n);
    SeenForLife(longer, i, |longer| - 1, l);
  }

  lemma WholeMeans(states: seq<State>, i: nat)
    requires Run(states) && i < |states|
    ensures Inv(states[i]) && Tables(states[i]) && Backed(states[i])
  {
    hide Run, Inv, Backed, Careful, Tables;
    RunIsWhole(states, i);
    TablesOf(states[i]);
  }

  /** A live process that the registry does not show can be joined by one it is incompatible with. */
  lemma UnseenCanCollide(states: seq<State>, i: nat, l: LaunchId) returns (longer: seq<State>, j: nat, m: LaunchId)
    requires Run(states) && i < |states| && Lives(states[i], l) && !Seen(states[i], l) && !states[i].draining && !states[i].cancelled
    requires states[i].maxConcurrent != 1
    ensures Collides(states, i, l, longer, j, m)
  {
    hide Run, Next, Leads, Seen, Ready, Settled, Inv, Backed, Tables, Passable, Free, Room, Spawned, Only, Hidden, Colliding;
    var before, b;
    before, b, m := Rests(states, i, l);
    UnseenIsHidden(b, m, l);
    assert before[i] == states[..i + 1][i];
    LimitStays(before, i, |before| - 1);
    SettledIsFree(b, m, {l});
    var u := Launches(b, m);
    JoinedCollides(b, m, l, u);
    longer := FollowsOn(states, i, before, b, u);
    j := |longer| - 1;
  }

  /** The exact condition. From a state that is neither draining nor cancelled some continuation in which l is still alive
  has a process that collides with it if and only if the limit is not one, and the registered state does not speak for l
  alone or the collision is there already. */
  lemma CollisionIsDecided(states: seq<State>, i: nat, l: LaunchId)
    requires Run(states) && i < |states| && Lives(states[i], l) && !states[i].draining && !states[i].cancelled
    ensures states[i].maxConcurrent != 1 && (!Seen(states[i], l) || exists m :: Colliding(states[i], l, m))
            <==> exists longer, j, m :: Collides(states, i, l, longer, j, m)
  {
    hide Run, Seen, Colliding;
    if states[i].maxConcurrent != 1 && !Seen(states[i], l) {
      var longer, j, m := UnseenCanCollide(states, i, l);
    } else if states[i].maxConcurrent != 1 {
      if m :| Colliding(states[i], l, m) {
        assert states[..i + 1] <= states;
        assert Collides(states, i, l, states, i, m);
      }
    }
    if longer, j, m :| Collides(states, i, l, longer, j, m) {
      assert longer[i] == states[..i + 1][i];
      CollisionsMean(longer[j], l, m);
      TwoNeedTwoSlots(longer, j, l, m);
      LimitStays(longer, i, j);
      if Seen(states[i], l) { NoCollisionAhead(longer, i, j, l, m); }
    }
  }

  lemma CollisionsMean(s: State, l: LaunchId, m: LaunchId)
    requires Colliding(s, l, m)
    ensures Lives(s, l) && Lives(s, m) && l != m
  {
  }
}
