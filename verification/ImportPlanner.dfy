/** The import planner: one pass per entity type, filling maps and plan lists. */
module ImportPlanner {
  import opened Wrappers
  import opened Catalog
  import opened ImportRules

  datatype Intent = Create | Restore | NoWrite

  /** The outcome of classifying a bundle. */
  class Plan {
    var created: Counts
    var updated: Counts
    var untouched: Counts
    var total: Counts
    var classifications: seq<Classification>
    var blocked: seq<Classification>
    var createRuntimes: seq<Runtime>
    var createModels: seq<Model>
    var createPipelines: seq<Pipeline>
    var updateRuntimes: seq<Runtime>
    var updateModels: seq<Model>
    var updatePipelines: seq<Pipeline>

    constructor ()
      ensures Empty()
    {
      var none := Counts(0, 0, 0);
      created := none;
      updated := none;
      untouched := none;
      total := none;
      classifications := [];
      blocked := [];
      createRuntimes := [];
      createModels := [];
      createPipelines := [];
      updateRuntimes := [];
      updateModels := [];
      updatePipelines := [];
    }

    /** Per type, the counters say how many classifications have each status, and the totals add up. */
    ghost predicate Counted()
      reads this
    {
      CountsAgree(created, updated, untouched, total, classifications)
    }

    predicate Empty()
      reads this
    {
      && created == updated == untouched == total == Counts(0, 0, 0)
      && classifications == [] && blocked == []
      && createRuntimes == [] && createModels == [] && createPipelines == []
      && updateRuntimes == [] && updateModels == [] && updatePipelines == []
    }

    predicate HasBlocked()
      reads this
    { |blocked| > 0 }

    predicate WillMutate()
      reads this
    { created.Total() + updated.Total() > 0 }

    method Classify(c: Classification)
      requires Counted()
      modifies this`created, this`updated, this`untouched, this`total, this`classifications, this`blocked
      ensures classifications == old(classifications) + [c]
      ensures blocked == old(blocked) + (if c.status.Blocked? then [c] else [])
      ensures Counted()
    {
      CountAppended(classifications, c, New);
      CountAppended(classifications, c, Update);
      CountAppended(classifications, c, Unchanged);
      CountAppended(classifications, c, Blocked);
      hide CountsOf;
      total := total.Plus(c.kind, 1);
      classifications := classifications + [c];
      match c.status {
        case New => created := created.Plus(c.kind, 1);
        case Update => updated := updated.Plus(c.kind, 1);
        case Unchanged => untouched := untouched.Plus(c.kind, 1);
        case Blocked => blocked := blocked + [c];
      }
    }

    /** The first planned, not yet blocked, entity of this kind and id becomes blocked. */
    method MarkBlocked(kind: Kind, id: string, reason: Reason, relatedId: string) returns (found: bool, ghost at: nat)
      requires Counted()
      modifies this`created, this`updated, this`untouched, this`classifications, this`blocked
      ensures Counted()
      ensures !found ==> forall k :: 0 <= k < |old(classifications)| ==> !Planned(old(classifications)[k], kind, id)
      ensures found ==> IsFirstPlanned(old(classifications), kind, id, at) && MarkedAt(at, reason, relatedId)
      ensures !found ==> classifications == old(classifications) && blocked == old(blocked)
    {
      hide CountsAgree;
      for i := 0 to |classifications|
        invariant classifications == old(classifications) && blocked == old(blocked) && Counted()
        invariant forall k :: 0 <= k < i ==> !Planned(classifications[k], kind, id)
      {
        var c := classifications[i];
        if c.kind != kind || c.id != id || c.status.Blocked? { continue; }
        var marked := c.(status := Blocked, reason := reason, relatedId := relatedId);
        RestatusAgrees(created, updated, untouched, total, classifications, i, marked);
        match c.status {
          case New => created := created.Plus(c.kind, -1);
          case Update => updated := updated.Plus(c.kind, -1);
          case Unchanged => untouched := untouched.Plus(c.kind, -1);
          case Blocked =>
        }
        classifications := classifications[i := marked];
        blocked := blocked + [marked];
        return true, i;
      }
      return false, 0;
    }

    /** Only classification k changed: it is blocked for this reason, and reported. */
    twostate predicate MarkedAt(k: nat, reason: Reason, relatedId: string)
      reads this
    {
      && k < |old(classifications)|
      && var c := old(classifications)[k].(status := Blocked, reason := reason, relatedId := relatedId);
      classifications == old(classifications)[k := c] && blocked == old(blocked) + [c]
    }

    /** A block found by the repository's own check: re-statused when the bundle planned the entity, reported in any case. */
    method AddEscapedBlock(kind: Kind, id: string, name: string, reason: Reason, relatedId: string)
      requires Counted()
      modifies this`created, this`updated, this`untouched, this`classifications, this`blocked
      ensures Counted()
      ensures |blocked| == |old(blocked)| + 1 && blocked[..|old(blocked)|] == old(blocked)
      ensures var b := blocked[|blocked| - 1]; b.kind == kind && b.id == id && b.status.Blocked? && b.reason == reason && b.relatedId == relatedId
      ensures (forall k :: 0 <= k < |old(classifications)| ==> !Planned(old(classifications)[k], kind, id)) ==>
                classifications == old(classifications) && blocked[|blocked| - 1].name == name
      ensures forall k :: IsFirstPlanned(old(classifications), kind, id, k) ==> MarkedAt(k, reason, relatedId)
    {
      hide CountsAgree;
      ghost var at;
      var found: bool;
      found, at := MarkBlocked(kind, id, reason, relatedId);
      assert found ==> forall k :: IsFirstPlanned(old(classifications), kind, id, k) ==> k == at;
      if found { return; }
      blocked := blocked + [Classification(kind, id, name, Blocked, reason, relatedId)];
    }
  }

  predicate Planned(c: Classification, kind: Kind, id: string) {
    c.kind == kind && c.id == id && !c.status.Blocked?
  }

  predicate IsFirstPlanned(cs: seq<Classification>, kind: Kind, id: string, k: int) {
    0 <= k < |cs| && Planned(cs[k], kind, id) && forall j :: 0 <= j < k ==> !Planned(cs[j], kind, id)
  }

  /* ---- maps filled in list order ---- */

  method LastById<T>(entries: seq<T>, ids: seq<string>) returns (m: map<string, T>)
    requires |ids| == |entries|
    ensures forall id :: id in m <==> LastIndex(ids, id) >= 0
    ensures forall id :: id in m ==> m[id] == entries[LastIndex(ids, id)]
  {
    m := map[];
    for i := 0 to |entries|
      invariant forall id :: id in m <==> LastIndex(ids[..i], id) >= 0
      invariant forall id :: id in m ==> m[id] == entries[LastIndex(ids[..i], id)]
    {
      assert ids[..i + 1][..i] == ids[..i];
      m := m[ids[i] := entries[i]];
    }
    assert ids[..|entries|] == ids;
  }

  /** A set may be visited in any order. */
  method SmallestOf(ids: set<string>) returns (x: string)
    requires ids != {}
    ensures IsSmallest(x, ids)
  {
    var rest := ids;
    x :| x in rest;
    LeqTotal(x, x);
    rest := rest - {x};
    while rest != {}
      invariant rest <= ids && x in ids && IsSmallest(x, ids - rest)
      decreases |rest|
    {
      var y :| y in rest;
      ghost var seen := ids - rest;
      LeqTotal(y, x);
      LeqTotal(y, y);
      if Leq(y, x) {
        forall z | z in seen ensures Leq(y, z) { LeqTransitive(y, x, z); }
        x := y;
      }
      rest := rest - {y};
      assert ids - rest == seen + {y};
    }
    assert ids - rest == ids;
  }

  /** The reported counterpart of a contested name; a map yields its keys in any order. */
  method SmallestOther(holders: set<string>, id: string) returns (r: string)
    ensures r == Smallest(holders - {id})
  {
    if holders - {id} == {} { return ""; }
    r := SmallestOf(holders - {id});
    SmallestIs(r, holders - {id});
  }

  /* ---- the name contest ---- */

  ghost predicate LocalRuntimes(job: Import, m: map<string, Runtime>) {
    && (forall id :: id in m <==> job.RuntimeAt(id) >= 0)
    && (forall id :: id in m ==> m[id] == job.state.runtimes[job.RuntimeAt(id)])
  }

  method Intents(job: Import, localRuntimes: map<string, Runtime>) returns (intent: seq<Intent>)
    requires LocalRuntimes(job, localRuntimes)
    ensures |intent| == |job.bundle.runtimes|
    ensures forall i :: 0 <= i < |intent| ==> intent[i] == IntentOf(job, i)
  {
    var seen: set<string> := {};
    intent := [];
    for i := 0 to |job.bundle.runtimes|
      invariant |intent| == i
      invariant forall j :: 0 <= j < i ==> intent[j] == IntentOf(job, j)
      invariant forall id :: id in seen ==> exists j :: 0 <= j < i && job.bundle.runtimes[j].id == id
      invariant forall j :: 0 <= j < i && job.RuntimeAt(job.bundle.runtimes[j].id) < 0 ==> job.bundle.runtimes[j].id in seen
    {
      var rt := job.bundle.runtimes[i];
      if rt.id !in localRuntimes && rt.id in seen {
        intent := intent + [NoWrite];
      } else if rt.id !in localRuntimes {
        seen := seen + {rt.id};
        intent := intent + [Create];
      } else if RuntimeEqual(rt, localRuntimes[rt.id]) {
        intent := intent + [NoWrite];
      } else {
        intent := intent + [Restore];
      }
    }
  }

  function IntentOf(job: Import, i: nat): Intent
    requires i < |job.bundle.runtimes|
  {
    if !job.RuntimeWrites(i) then NoWrite else if job.RuntimeAt(job.bundle.runtimes[i].id) >= 0 then Restore else Create
  }

  predicate Claimed(holders: map<string, set<string>>, key: string, id: string) { key in holders && id in holders[key] }

  /** The claims on folded names that are in the map so far. */
  ghost predicate Claims(job: Import, holders: map<string, set<string>>, a: nat, b: nat)
    requires a <= |job.state.runtimes| && b <= |job.bundle.runtimes|
  {
    forall key, id :: Claimed(holders, key, id) <==> job.HoldsUpTo(a, b, key, id)
  }

  ghost predicate Extends(before: map<string, set<string>>, after: map<string, set<string>>, key: string, id: string) {
    forall k, x :: Claimed(after, k, x) <==> Claimed(before, k, x) || (k == key && x == id)
  }

  method AddHolder(holders: map<string, set<string>>, key: string, id: string) returns (more: map<string, set<string>>)
    ensures Extends(holders, more, key, id)
  {
    more := if key in holders then holders[key := holders[key] + {id}] else holders[key := {id}];
  }

  lemma HoldsNext(job: Import, a: nat, b: nat, key: string, id: string)
    requires a <= |job.state.runtimes| && b <= |job.bundle.runtimes|
    ensures a < |job.state.runtimes| ==>
              (job.HoldsUpTo(a + 1, b, key, id) <==>
                 job.HoldsUpTo(a, b, key, id) || (key == job.lower(job.state.runtimes[a].name) && id == job.state.runtimes[a].id))
    ensures b < |job.bundle.runtimes| ==>
              (job.HoldsUpTo(a, b + 1, key, id) <==>
                 job.HoldsUpTo(a, b, key, id)
                 || (job.RuntimeWrites(b) && key == job.lower(job.bundle.runtimes[b].name) && id == job.bundle.runtimes[b].id))
  {
  }

  lemma LocalClaim(job: Import, before: map<string, set<string>>, after: map<string, set<string>>, a: nat)
    requires a < |job.state.runtimes| && Claims(job, before, a, 0)
    requires Extends(before, after, job.lower(job.state.runtimes[a].name), job.state.runtimes[a].id)
    ensures Claims(job, after, a + 1, 0)
  {
    forall key, id ensures Claimed(after, key, id) <==> job.HoldsUpTo(a + 1, 0, key, id) { HoldsNext(job, a, 0, key, id); }
  }

  lemma IncomingClaim(job: Import, before: map<string, set<string>>, after: map<string, set<string>>, b: nat)
    requires b < |job.bundle.runtimes| && Claims(job, before, |job.state.runtimes|, b)
    requires if job.RuntimeWrites(b) then Extends(before, after, job.lower(job.bundle.runtimes[b].name), job.bundle.runtimes[b].id) else after == before
    ensures Claims(job, after, |job.state.runtimes|, b + 1)
  {
    var a := |job.state.runtimes|;
    forall key, id ensures Claimed(after, key, id) <==> job.HoldsUpTo(a, b + 1, key, id) { HoldsNext(job, a, b, key, id); }
  }

  method NameHolders(job: Import, intent: seq<Intent>) returns (holders: map<string, set<string>>)
    requires |intent| == |job.bundle.runtimes| && forall i :: 0 <= i < |intent| ==> intent[i] == IntentOf(job, i)
    ensures Claims(job, holders, |job.state.runtimes|, |job.bundle.runtimes|)
  {
    holders := map[];
    for i := 0 to |job.state.runtimes|
      invariant Claims(job, holders, i, 0)
    {
      var more := AddHolder(holders, job.lower(job.state.runtimes[i].name), job.state.runtimes[i].id);
      LocalClaim(job, holders, more, i);
      holders := more;
    }
    for i := 0 to |job.bundle.runtimes|
      invariant Claims(job, holders, |job.state.runtimes|, i)
    {
      var more := holders;
      if intent[i] != NoWrite {
        more := AddHolder(holders, job.lower(job.bundle.runtimes[i].name), job.bundle.runtimes[i].id);
      }
      IncomingClaim(job, holders, more, i);
      holders := more;
    }
  }

  /* ---- runtimes ---- */

  /** The statuses recorded for the first n entries: a later entry of an id replaces an earlier one. */
  ghost predicate Recorded(statuses: map<string, Status>, ids: seq<string>, verdicts: seq<Classification>)
    requires |ids| == |verdicts|
  {
    && (forall id :: id in statuses <==> LastIndex(ids, id) >= 0)
    && (forall id :: id in statuses ==> statuses[id] == verdicts[LastIndex(ids, id)].status)
  }

  lemma RecordedNext(statuses: map<string, Status>, ids: seq<string>, verdicts: seq<Classification>, id: string, c: Classification)
    requires |ids| == |verdicts| && Recorded(statuses, ids, verdicts)
    ensures Recorded(statuses[id := c.status], ids + [id], verdicts + [c])
  {
    assert (ids + [id])[..|ids|] == ids;
  }

  /** The plan has classified the first k entities of the bundle, as the rules say. */
  ghost predicate Classified(plan: Plan, job: Import, k: nat)
    requires k <= job.Size()
    reads plan
  {
    && plan.Counted()
    && plan.classifications == job.Verdicts()[..k]
    && plan.blocked == Select(job.Verdicts(), job.Verdicts(), k, Blocked)
  }

  ghost predicate RuntimesPlanned(plan: Plan, job: Import, n: nat)
    requires n <= |job.bundle.runtimes|
    reads plan`createRuntimes, plan`updateRuntimes
  {
    && plan.createRuntimes == Select(job.bundle.runtimes, job.RuntimeVerdicts(), n, New)
    && plan.updateRuntimes == Select(job.RestoredRuntimes(), job.RuntimeVerdicts(), n, Update)
  }

  ghost predicate ModelsPlanned(plan: Plan, job: Import, n: nat)
    requires n <= |job.bundle.models|
    reads plan`createModels, plan`updateModels
  {
    && plan.createModels == Select(job.bundle.models, job.ModelVerdicts(), n, New)
    && plan.updateModels == Select(job.RestoredModels(), job.ModelVerdicts(), n, Update)
  }

  ghost predicate PipelinesPlanned(plan: Plan, job: Import, n: nat)
    requires n <= |job.bundle.pipelines|
    reads plan`createPipelines, plan`updatePipelines
  {
    && plan.createPipelines == Select(job.bundle.pipelines, job.PipelineVerdicts(), n, New)
    && plan.updatePipelines == Select(job.RestoredPipelines(), job.PipelineVerdicts(), n, Update)
  }

  lemma ContestIsHolders(job: Import, holders: map<string, set<string>>, i: nat)
    requires i < |job.bundle.runtimes| && Claims(job, holders, |job.state.runtimes|, |job.bundle.runtimes|)
    ensures var rt := job.bundle.runtimes[i]; var key := job.lower(rt.name);
            && (key in holders ==> holders[key] == job.Holders(key))
            && (job.RuntimeWrites(i) ==> key in holders && rt.id in holders[key]
                                         && (|holders[key]| >= 2 <==> holders[key] - {rt.id} != {}))
  {
    var rt := job.bundle.runtimes[i];
    var key := job.lower(rt.name);
    forall id ensures Claimed(holders, key, id) <==> id in job.Holders(key) {
      assert job.HoldsUpTo(|job.state.runtimes|, |job.bundle.runtimes|, key, id) <==> job.Holds(key, id);
    }
    if job.RuntimeWrites(i) {
      assert job.HoldsUpTo(|job.state.runtimes|, |job.bundle.runtimes|, key, rt.id);
      assert Claimed(holders, key, rt.id);
      var others := holders[key] - {rt.id};
      assert holders[key] == others + {rt.id};
    }
  }

  /** The statuses of the first n runtimes of the bundle. */
  ghost predicate RuntimeStatuses(job: Import, statuses: map<string, Status>, n: nat)
    requires n <= |job.bundle.runtimes|
  {
    Recorded(statuses, RuntimeIds(job.bundle.runtimes)[..n], job.RuntimeVerdicts()[..n])
  }

  lemma RuntimeStatusesNext(job: Import, statuses: map<string, Status>, i: nat)
    requires i < |job.bundle.runtimes| && RuntimeStatuses(job, statuses, i)
    ensures RuntimeStatuses(job, statuses[job.bundle.runtimes[i].id := job.RuntimeVerdict(i).status], i + 1)
  {
    var id := job.bundle.runtimes[i].id;
    var ids, verdicts := RuntimeIds(job.bundle.runtimes), job.RuntimeVerdicts();
    RecordedNext(statuses, ids[..i], verdicts[..i], id, verdicts[i]);
    assert ids[..i + 1] == ids[..i] + [id] && verdicts[..i + 1] == verdicts[..i] + [verdicts[i]];
  }

  /** One more classification. */
  lemma ClassifiedNext(job: Import, k: nat, c: Classification)
    requires k < job.Size() && c == job.Verdicts()[k]
    ensures job.Verdicts()[..k + 1] == job.Verdicts()[..k] + [c]
    ensures Select(job.Verdicts(), job.Verdicts(), k + 1, Blocked) ==
              Select(job.Verdicts(), job.Verdicts(), k, Blocked) + (if c.status.Blocked? then [c] else [])
  {
    hide Import.Verdicts;
    SelectedNext(job.Verdicts(), k, Blocked);
  }

  lemma SelectedNext(verdicts: seq<Classification>, k: nat, status: Status)
    requires k < |verdicts|
    ensures verdicts[..k + 1] == verdicts[..k] + [verdicts[k]]
    ensures Select(verdicts, verdicts, k + 1, status) == Select(verdicts, verdicts, k, status) + (if verdicts[k].status == status then [verdicts[k]] else [])
  {
  }

  /** The verdict on one runtime of the bundle. */
  method ClassifyRuntime(job: Import, i: nat, intent: seq<Intent>, holders: map<string, set<string>>) returns (c: Classification)
    requires i < |job.bundle.runtimes| && |intent| == |job.bundle.runtimes| && intent[i] == IntentOf(job, i)
    requires Claims(job, holders, |job.state.runtimes|, |job.bundle.runtimes|)
    ensures c == job.RuntimeVerdict(i)
  {
    var rt := job.bundle.runtimes[i];
    var key := job.lower(rt.name);
    ContestIsHolders(job, holders, i);
    c := Classification(RuntimeKind, rt.id, rt.name, Unchanged, NoReason, "");
    if key in holders && |holders[key]| >= 2 && intent[i] != NoWrite {
      var other := SmallestOther(holders[key], rt.id);
      c := c.(status := Blocked, reason := NameTaken, relatedId := other);
    } else {
      match intent[i] {
        case Create => c := c.(status := New);
        case Restore => c := c.(status := Update, relatedId := rt.id);
        case NoWrite => c := c.(relatedId := rt.id);
      }
    }
  }

  lemma RuntimeChosen(job: Import, i: nat)
    requires i < |job.bundle.runtimes|
    ensures var c := job.RuntimeVerdict(i); var rt := job.bundle.runtimes[i]; var verdicts := job.RuntimeVerdicts(); var k := job.RuntimeAt(rt.id);
            && Select(job.bundle.runtimes, verdicts, i + 1, New) == Select(job.bundle.runtimes, verdicts, i, New) + (if c.status.New? then [rt] else [])
            && (c.status.Update? ==> k >= 0)
            && Select(job.RestoredRuntimes(), verdicts, i + 1, Update) ==
                 Select(job.RestoredRuntimes(), verdicts, i, Update) + (if c.status.Update? then [RestoredRuntime(job.state.runtimes[k], rt)] else [])
  {
  }

  /** Adds runtime i of the bundle to the plan. */
  method PlanRuntime(job: Import, plan: Plan, i: nat, c: Classification, localRuntimes: map<string, Runtime>)
    requires i < |job.bundle.runtimes| && Classified(plan, job, i) && RuntimesPlanned(plan, job, i)
    requires c == job.RuntimeVerdict(i) && LocalRuntimes(job, localRuntimes)
    modifies plan`created, plan`updated, plan`untouched, plan`total, plan`classifications, plan`blocked, plan`createRuntimes, plan`updateRuntimes
    ensures Classified(plan, job, i + 1) && RuntimesPlanned(plan, job, i + 1)
  {
    hide CountsAgree, Select, Import.RuntimeVerdict, Import.RestoredRuntimes, Import.RuntimeVerdicts, Import.Verdicts, LastIndex;
    var rt := job.bundle.runtimes[i];
    RuntimeChosen(job, i);
    job.VerdictAt(i);
    ClassifiedNext(job, i, c);
    if c.status.New? {
      plan.createRuntimes := plan.createRuntimes + [rt];
    } else if c.status.Update? {
      plan.updateRuntimes := plan.updateRuntimes + [RestoredRuntime(localRuntimes[rt.id], rt)];
    }
    plan.Classify(c);
  }

  lemma RuntimeCreatedNext(job: Import, i: nat, id: string)
    requires i < |job.bundle.runtimes|
    ensures job.RuntimeCreated(i + 1, id) <==>
              job.RuntimeCreated(i, id) || (job.RuntimeVerdict(i).status.New? && job.bundle.runtimes[i].id == id)
  {
  }

  lemma VerdictNames(job: Import, i: nat)
    requires i < |job.bundle.runtimes|
    ensures job.RuntimeVerdict(i).id == job.bundle.runtimes[i].id
  {
  }

  lemma NoRuntimesYet(job: Import, n: nat)
    requires n == 0
    ensures RuntimeStatuses(job, map[], n)
    ensures forall id :: !job.RuntimeCreated(n, id)
  {
  }

  lemma StartsEmpty(job: Import, plan: Plan, n: nat)
    requires plan.Empty() && n == 0
    ensures Classified(plan, job, n) && RuntimesPlanned(plan, job, n) && ModelsPlanned(plan, job, n) && PipelinesPlanned(plan, job, n)
  {
    NothingCounted();
    hide CountsAgree;
  }

  method PlanRuntimes(job: Import, plan: Plan, localRuntimes: map<string, Runtime>) returns (created: set<string>, statuses: map<string, Status>)
    requires plan.Empty() && LocalRuntimes(job, localRuntimes)
    modifies plan`created, plan`updated, plan`untouched, plan`total, plan`classifications, plan`blocked, plan`createRuntimes, plan`updateRuntimes
    ensures Classified(plan, job, |job.bundle.runtimes|) && RuntimesPlanned(plan, job, |job.bundle.runtimes|)
    ensures forall id :: id in created <==> job.RuntimeCreated(|job.bundle.runtimes|, id)
    ensures RuntimeStatuses(job, statuses, |job.bundle.runtimes|)
  {
    hide *;
    var intent := Intents(job, localRuntimes);
    var holders := NameHolders(job, intent);
    created, statuses := {}, map[];
    var i := 0;
    StartsEmpty(job, plan, i);
    NoRuntimesYet(job, i);
    while i < |job.bundle.runtimes|
      invariant 0 <= i <= |job.bundle.runtimes|
      invariant Classified(plan, job, i) && RuntimesPlanned(plan, job, i)
      invariant forall id :: id in created <==> job.RuntimeCreated(i, id)
      invariant RuntimeStatuses(job, statuses, i)
    {
      var c := ClassifyRuntime(job, i, intent, holders);
      VerdictNames(job, i);
      RuntimeStatusesNext(job, statuses, i);
      forall id ensures job.RuntimeCreated(i + 1, id) <==> job.RuntimeCreated(i, id) || (c.status.New? && job.bundle.runtimes[i].id == id) {
        RuntimeCreatedNext(job, i, id);
      }
      if c.status.New? { created := created + {c.id}; }
      statuses := statuses[c.id := c.status];
      PlanRuntime(job, plan, i, c, localRuntimes);
      i := i + 1;
    }
  }

  /* ---- models ---- */

  ghost predicate LocalModels(job: Import, m: map<string, Model>) {
    && (forall id :: id in m <==> job.ModelAt(id) >= 0)
    && (forall id :: id in m ==> m[id] == job.state.models[job.ModelAt(id)])
  }

  ghost predicate RuntimesDecided(job: Import, local: map<string, Runtime>, created: set<string>, statuses: map<string, Status>) {
    && LocalRuntimes(job, local)
    && (forall id :: id in created <==> job.RuntimeCreated(|job.bundle.runtimes|, id))
    && RuntimeStatuses(job, statuses, |job.bundle.runtimes|)
  }

  lemma BlockedRuntimeIs(job: Import, statuses: map<string, Status>, id: string)
    requires RuntimeStatuses(job, statuses, |job.bundle.runtimes|)
    ensures (id in statuses && statuses[id].Blocked?) <==> job.RuntimeBlocked(id)
  {
    var n := |job.bundle.runtimes|;
    assert RuntimeIds(job.bundle.runtimes)[..n] == RuntimeIds(job.bundle.runtimes) && job.RuntimeVerdicts()[..n] == job.RuntimeVerdicts();
  }

  ghost predicate ModelStatuses(job: Import, statuses: map<string, Status>, n: nat)
    requires n <= |job.bundle.models|
  {
    Recorded(statuses, ModelIds(job.bundle.models)[..n], job.ModelVerdicts()[..n])
  }

  lemma ModelStatusesNext(job: Import, statuses: map<string, Status>, i: nat)
    requires i < |job.bundle.models| && ModelStatuses(job, statuses, i)
    ensures ModelStatuses(job, statuses[job.bundle.models[i].id := job.ModelVerdict(i).status], i + 1)
  {
    var id := job.bundle.models[i].id;
    var ids, verdicts := ModelIds(job.bundle.models), job.ModelVerdicts();
    RecordedNext(statuses, ids[..i], verdicts[..i], id, verdicts[i]);
    assert ids[..i + 1] == ids[..i] + [id] && verdicts[..i + 1] == verdicts[..i] + [verdicts[i]];
  }

  /** The models created so far answer both the duplicate check and the dependency check. */
  lemma {:induction false} CreatedIsClaimed(job: Import, n: nat, id: string)
    requires n <= |job.bundle.models| && job.ModelAt(id) < 0
    ensures job.ModelCreated(n, id) <==> job.ModelClaimed(n, id)
  {
    if n > 0 {
      CreatedIsClaimed(job, n - 1, id);
      var m := job.bundle.models[n - 1];
      assert job.ModelClaimed(n, id) <==> job.ModelClaimed(n - 1, id) || (m.id == id && job.RuntimeResolves(m.runtimeId));
      assert job.ModelCreated(n, id) <==> job.ModelCreated(n - 1, id) || (m.id == id && job.ModelVerdict(n - 1).status.New?);
    }
  }

  method ClassifyModel(job: Import, i: nat, localModels: map<string, Model>, createdModels: set<string>,
                       localRuntimes: map<string, Runtime>, created: set<string>, statuses: map<string, Status>) returns (c: Classification)
    requires i < |job.bundle.models| && LocalModels(job, localModels)
    requires RuntimesDecided(job, localRuntimes, created, statuses)
    requires forall id :: id in createdModels <==> job.ModelCreated(i, id)
    ensures c == job.ModelVerdict(i)
  {
    var m := job.bundle.models[i];
    c := Classification(ModelKind, m.id, m.name, Unchanged, NoReason, "");
    var resolves := m.runtimeId in localRuntimes || m.runtimeId in created;
    var reason := if m.runtimeId in statuses && statuses[m.runtimeId].Blocked? then DependencyBlocked else RuntimeRefUnresolved;
    BlockedRuntimeIs(job, statuses, m.runtimeId);
    if m.id !in localModels && m.id in createdModels {
      CreatedIsClaimed(job, i, m.id);
      c := c.(relatedId := m.id);
    } else if m.id in localModels {
      c := c.(relatedId := m.id);
      if !ModelEqual(m, localModels[m.id]) {
        c := if !resolves then c.(status := Blocked, reason := reason, relatedId := m.runtimeId) else c.(status := Update);
      }
    } else {
      CreatedIsClaimed(job, i, m.id);
      c := if resolves then c.(status := New) else c.(status := Blocked, reason := reason, relatedId := m.runtimeId);
    }
  }

  lemma ModelChosen(job: Import, i: nat)
    requires i < |job.bundle.models|
    ensures var c := job.ModelVerdict(i); var m := job.bundle.models[i]; var verdicts := job.ModelVerdicts(); var k := job.ModelAt(m.id);
            && Select(job.bundle.models, verdicts, i + 1, New) == Select(job.bundle.models, verdicts, i, New) + (if c.status.New? then [m] else [])
            && (c.status.Update? ==> k >= 0)
            && Select(job.RestoredModels(), verdicts, i + 1, Update) ==
                 Select(job.RestoredModels(), verdicts, i, Update) + (if c.status.Update? then [RestoredModel(job.state.models[k], m)] else [])
  {
  }

  method PlanModel(job: Import, plan: Plan, i: nat, c: Classification, localModels: map<string, Model>)
    requires i < |job.bundle.models| && Classified(plan, job, |job.bundle.runtimes| + i) && ModelsPlanned(plan, job, i)
    requires c == job.ModelVerdict(i) && LocalModels(job, localModels)
    modifies plan`created, plan`updated, plan`untouched, plan`total, plan`classifications, plan`blocked, plan`createModels, plan`updateModels
    ensures Classified(plan, job, |job.bundle.runtimes| + i + 1) && ModelsPlanned(plan, job, i + 1)
  {
    hide CountsAgree, Select, Import.ModelVerdict, Import.RestoredModels, Import.ModelVerdicts, Import.Verdicts, LastIndex;
    var m := job.bundle.models[i];
    ModelChosen(job, i);
    job.VerdictAt(|job.bundle.runtimes| + i);
    ClassifiedNext(job, |job.bundle.runtimes| + i, c);
    if c.status.New? {
      plan.createModels := plan.createModels + [m];
    } else if c.status.Update? {
      plan.updateModels := plan.updateModels + [RestoredModel(localModels[m.id], m)];
    }
    plan.Classify(c);
  }

  lemma ModelCreatedNext(job: Import, i: nat, id: string)
    requires i < |job.bundle.models|
    ensures job.ModelCreated(i + 1, id) <==>
              job.ModelCreated(i, id) || (job.ModelVerdict(i).status.New? && job.bundle.models[i].id == id)
    ensures job.ModelVerdict(i).id == job.bundle.models[i].id
  {
  }

  lemma NoModelsYet(job: Import, n: nat)
    requires n == 0
    ensures ModelStatuses(job, map[], n)
    ensures forall id :: !job.ModelCreated(n, id)
  {
  }

  method PlanModels(job: Import, plan: Plan, localModels: map<string, Model>, localRuntimes: map<string, Runtime>,
                    created: set<string>, statuses: map<string, Status>) returns (createdModels: set<string>, modelStatuses: map<string, Status>)
    requires Classified(plan, job, |job.bundle.runtimes|) && ModelsPlanned(plan, job, 0) && LocalModels(job, localModels)
    requires RuntimesDecided(job, localRuntimes, created, statuses)
    modifies plan`created, plan`updated, plan`untouched, plan`total, plan`classifications, plan`blocked, plan`createModels, plan`updateModels
    ensures Classified(plan, job, |job.bundle.runtimes| + |job.bundle.models|) && ModelsPlanned(plan, job, |job.bundle.models|)
    ensures forall id :: id in createdModels <==> job.ModelCreated(|job.bundle.models|, id)
    ensures ModelStatuses(job, modelStatuses, |job.bundle.models|)
  {
    hide *;
    createdModels, modelStatuses := {}, map[];
    var i := 0;
    NoModelsYet(job, i);
    while i < |job.bundle.models|
      invariant 0 <= i <= |job.bundle.models|
      invariant Classified(plan, job, |job.bundle.runtimes| + i) && ModelsPlanned(plan, job, i)
      invariant forall id :: id in createdModels <==> job.ModelCreated(i, id)
      invariant ModelStatuses(job, modelStatuses, i)
    {
      var c := ClassifyModel(job, i, localModels, createdModels, localRuntimes, created, statuses);
      ModelStatusesNext(job, modelStatuses, i);
      forall id ensures job.ModelCreated(i + 1, id) <==> job.ModelCreated(i, id) || (c.status.New? && c.id == id) { ModelCreatedNext(job, i, id); }
      ModelCreatedNext(job, i, c.id);
      if c.status.New? { createdModels := createdModels + {c.id}; }
      modelStatuses := modelStatuses[c.id := c.status];
      PlanModel(job, plan, i, c, localModels);
      i := i + 1;
    }
  }

  /* ---- pipelines ---- */

  ghost predicate LocalPipelines(job: Import, m: map<string, Pipeline>) {
    && (forall id :: id in m <==> job.PipelineAt(id) >= 0)
    && (forall id :: id in m ==> m[id] == job.state.pipelines[job.PipelineAt(id)])
  }

  ghost predicate ModelsDecided(job: Import, local: map<string, Model>, created: set<string>, statuses: map<string, Status>) {
    && LocalModels(job, local)
    && (forall id :: id in created <==> job.ModelCreated(|job.bundle.models|, id))
    && ModelStatuses(job, statuses, |job.bundle.models|)
  }

  lemma BlockedModelIs(job: Import, statuses: map<string, Status>, id: string)
    requires ModelStatuses(job, statuses, |job.bundle.models|)
    ensures (id in statuses && statuses[id].Blocked?) <==> job.ModelBlocked(id)
  {
    var n := |job.bundle.models|;
    assert ModelIds(job.bundle.models)[..n] == ModelIds(job.bundle.models) && job.ModelVerdicts()[..n] == job.ModelVerdicts();
  }

  /** The first entry whose model does not resolve. */
  method FindDangling(job: Import, entries: seq<PipelineModel>, localModels: map<string, Model>, created: set<string>) returns (d: Option<string>)
    requires LocalModels(job, localModels) && forall id :: id in created <==> job.ModelCreated(|job.bundle.models|, id)
    ensures d == job.FirstDangling(entries)
  {
    for i := 0 to |entries|
      invariant job.FirstDangling(entries) == job.FirstDangling(entries[i..])
    {
      var e := entries[i];
      assert entries[i..][0] == e && entries[i..][1..] == entries[i + 1..];
      if e.modelId !in localModels && e.modelId !in created { return Some(e.modelId); }
    }
    return None;
  }

  method ClassifyPipeline(job: Import, i: nat, localPipelines: map<string, Pipeline>, localModels: map<string, Model>,
                          created: set<string>, statuses: map<string, Status>) returns (c: Classification)
    requires i < |job.bundle.pipelines| && LocalPipelines(job, localPipelines)
    requires ModelsDecided(job, localModels, created, statuses)
    ensures c == job.PipelineVerdict(i)
  {
    var p := job.bundle.pipelines[i];
    var local := p.id in localPipelines;
    c := Classification(PipelineKind, p.id, p.name, Unchanged, NoReason, if local then p.id else "");
    if local && PipelineEqual(p, localPipelines[p.id]) { return; }
    if |p.models| == 0 { return c.(status := Blocked, reason := EntriesEmpty); }
    var dangling := FindDangling(job, p.models, localModels, created);
    if dangling.Some? {
      BlockedModelIs(job, statuses, dangling.value);
      var reason := if dangling.value in statuses && statuses[dangling.value].Blocked? then DependencyBlocked else ModelRefUnresolved;
      return c.(status := Blocked, reason := reason, relatedId := dangling.value);
    }
    return if local then c.(status := Update) else c.(status := New);
  }

  lemma PipelineChosen(job: Import, i: nat)
    requires i < |job.bundle.pipelines|
    ensures var c := job.PipelineVerdict(i); var p := job.bundle.pipelines[i]; var verdicts := job.PipelineVerdicts(); var k := job.PipelineAt(p.id);
            && Select(job.bundle.pipelines, verdicts, i + 1, New) == Select(job.bundle.pipelines, verdicts, i, New) + (if c.status.New? then [p] else [])
            && (c.status.Update? ==> k >= 0)
            && Select(job.RestoredPipelines(), verdicts, i + 1, Update) ==
                 Select(job.RestoredPipelines(), verdicts, i, Update) + (if c.status.Update? then [RestoredPipeline(job.state.pipelines[k], p)] else [])
  {
  }

  method PlanPipeline(job: Import, plan: Plan, i: nat, c: Classification, localPipelines: map<string, Pipeline>)
    requires i < |job.bundle.pipelines|
    requires Classified(plan, job, |job.bundle.runtimes| + |job.bundle.models| + i) && PipelinesPlanned(plan, job, i)
    requires c == job.PipelineVerdict(i) && LocalPipelines(job, localPipelines)
    modifies plan`created, plan`updated, plan`untouched, plan`total, plan`classifications, plan`blocked, plan`createPipelines, plan`updatePipelines
    ensures Classified(plan, job, |job.bundle.runtimes| + |job.bundle.models| + i + 1) && PipelinesPlanned(plan, job, i + 1)
  {
    hide CountsAgree, Select, Import.PipelineVerdict, Import.RestoredPipelines, Import.PipelineVerdicts, Import.Verdicts, LastIndex;
    var p := job.bundle.pipelines[i];
    PipelineChosen(job, i);
    job.VerdictAt(|job.bundle.runtimes| + |job.bundle.models| + i);
    ClassifiedNext(job, |job.bundle.runtimes| + |job.bundle.models| + i, c);
    if c.status.New? {
      plan.createPipelines := plan.createPipelines + [p];
    } else if c.status.Update? {
      plan.updatePipelines := plan.updatePipelines + [RestoredPipeline(localPipelines[p.id], p)];
    }
    plan.Classify(c);
  }

  method PlanPipelines(job: Import, plan: Plan, localPipelines: map<string, Pipeline>, localModels: map<string, Model>,
                       created: set<string>, statuses: map<string, Status>)
    requires Classified(plan, job, |job.bundle.runtimes| + |job.bundle.models|) && PipelinesPlanned(plan, job, 0) && LocalPipelines(job, localPipelines)
    requires ModelsDecided(job, localModels, created, statuses)
    modifies plan`created, plan`updated, plan`untouched, plan`total, plan`classifications, plan`blocked, plan`createPipelines, plan`updatePipelines
    ensures Classified(plan, job, job.Size()) && PipelinesPlanned(plan, job, |job.bundle.pipelines|)
  {
    hide *;
    var i := 0;
    while i < |job.bundle.pipelines|
      invariant 0 <= i <= |job.bundle.pipelines|
      invariant Classified(plan, job, |job.bundle.runtimes| + |job.bundle.models| + i) && PipelinesPlanned(plan, job, i)
    {
      var c := ClassifyPipeline(job, i, localPipelines, localModels, created, statuses);
      PlanPipeline(job, plan, i, c, localPipelines);
      i := i + 1;
    }
  }

  /* ---- the planner ---- */

  /** The plan holds the verdicts of the rules, their counts, and exactly the records to write. */
  ghost predicate PlanOf(plan: Plan, job: Import)
    reads plan
  {
    && plan.Counted()
    && plan.classifications == job.Verdicts()
    && plan.blocked == Select(job.Verdicts(), job.Verdicts(), job.Size(), Blocked)
    && RuntimesPlanned(plan, job, |job.bundle.runtimes|)
    && ModelsPlanned(plan, job, |job.bundle.models|)
    && PipelinesPlanned(plan, job, |job.bundle.pipelines|)
  }

  lemma PlanComplete(plan: Plan, job: Import)
    requires Classified(plan, job, job.Size()) && RuntimesPlanned(plan, job, |job.bundle.runtimes|)
    requires ModelsPlanned(plan, job, |job.bundle.models|) && PipelinesPlanned(plan, job, |job.bundle.pipelines|)
    ensures PlanOf(plan, job)
  {
    hide CountsAgree;
    assert job.Verdicts()[..job.Size()] == job.Verdicts();
  }

  /** The repository's records by id. */
  method LocalRecords(job: Import) returns (runtimes: map<string, Runtime>, models: map<string, Model>, pipelines: map<string, Pipeline>)
    ensures LocalRuntimes(job, runtimes) && LocalModels(job, models) && LocalPipelines(job, pipelines)
  {
    hide LastIndex;
    runtimes := LastById(job.state.runtimes, RuntimeIds(job.state.runtimes));
    models := LastById(job.state.models, ModelIds(job.state.models));
    pipelines := LastById(job.state.pipelines, PipelineIds(job.state.pipelines));
  }

  method PlanGraphImport(job: Import) returns (plan: Plan)
    ensures fresh(plan) && PlanOf(plan, job)
  {
    hide PlanOf, Plan.Empty, Plan.Counted, Classified, RuntimesPlanned, ModelsPlanned, PipelinesPlanned, RuntimeStatuses, ModelStatuses, LastIndex;
    hide LocalRuntimes, LocalModels, LocalPipelines;
    plan := new Plan();
    var localRuntimes, localModels, localPipelines := LocalRecords(job);
    ghost var none := 0;
    StartsEmpty(job, plan, none);
    var created, statuses := PlanRuntimes(job, plan, localRuntimes);
    var createdModels, modelStatuses := PlanModels(job, plan, localModels, localRuntimes, created, statuses);
    PlanPipelines(job, plan, localPipelines, localModels, createdModels, modelStatuses);
    PlanComplete(plan, job);
  }
}
