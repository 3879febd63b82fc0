/** The JSON repository: the atomic apply of an import, and its pre-write name check. */
module Repository {
  import opened Catalog
  import opened ImportRules
  import opened ImportPlanner
  import opened ImportApply
  import opened ImportLaws

  /* ---- names shared by different runtimes ---- */

  datatype NameConflict = NameConflict(key: string, id: string, name: string, relatedId: string)

  /** The ids that carry the folded name among the first n runtimes. */
  ghost predicate Carries(lower: string -> string, rs: seq<Runtime>, n: nat, key: string, id: string)
    requires n <= |rs|
  {
    exists i :: 0 <= i < n && lower(rs[i].name) == key && rs[i].id == id
  }

  ghost predicate Grouped(lower: string -> string, rs: seq<Runtime>, n: nat, groups: map<string, set<string>>)
    requires n <= |rs|
  {
    forall key, id :: Claimed(groups, key, id) <==> Carries(lower, rs, n, key, id)
  }

  lemma CarriesNext(lower: string -> string, rs: seq<Runtime>, n: nat, key: string, id: string)
    requires n < |rs|
    ensures Carries(lower, rs, n + 1, key, id) <==> Carries(lower, rs, n, key, id) || (key == lower(rs[n].name) && id == rs[n].id)
  {
  }

  method GroupByName(lower: string -> string, rs: seq<Runtime>) returns (groups: map<string, set<string>>)
    ensures Grouped(lower, rs, |rs|, groups)
  {
    groups := map[];
    for n := 0 to |rs|
      invariant Grouped(lower, rs, n, groups)
    {
      var more := AddHolder(groups, lower(rs[n].name), rs[n].id);
      forall key, id ensures Claimed(more, key, id) <==> Carries(lower, rs, n + 1, key, id) { CarriesNext(lower, rs, n, key, id); }
      groups := more;
    }
  }

  method FirstName(lower: string -> string, rs: seq<Runtime>, key: string, id: string) returns (name: string)
    requires Carries(lower, rs, |rs|, key, id)
    ensures exists i :: 0 <= i < |rs| && rs[i].id == id && rs[i].name == name && lower(name) == key
                        && forall j :: 0 <= j < i ==> !(rs[j].id == id && lower(rs[j].name) == key)
  {
    for i := 0 to |rs|
      invariant forall j :: 0 <= j < i ==> !(rs[j].id == id && lower(rs[j].name) == key)
    {
      if rs[i].id == id && lower(rs[i].name) == key { return rs[i].name; }
    }
    assert false;
    name := "";
  }

  predicate Before(a: NameConflict, b: NameConflict) {
    (Leq(a.key, b.key) && a.key != b.key) || (a.key == b.key && Leq(a.id, b.id) && a.id != b.id)
  }

  predicate Ordered(cs: seq<NameConflict>) { forall i, j :: 0 <= i < j < |cs| ==> Before(cs[i], cs[j]) }

  /** One collided runtime: its name is carried by another id, and the smallest other id is its counterpart. */
  ghost predicate IsConflict(lower: string -> string, rs: seq<Runtime>, groups: map<string, set<string>>, c: NameConflict) {
    && c.key in groups && c.id in groups[c.key] && groups[c.key] - {c.id} != {}
    && c.relatedId == Smallest(groups[c.key] - {c.id})
    && exists i :: 0 <= i < |rs| && rs[i].id == c.id && rs[i].name == c.name && lower(c.name) == c.key
  }

  lemma TwoHolders(ids: set<string>)
    ensures |ids| >= 2 <==> exists x :: x in ids && ids - {x} != {}
    ensures |ids| >= 2 ==> forall x :: x in ids ==> ids - {x} != {}
  {
    forall x | x in ids ensures ids - {x} != {} <==> |ids| >= 2 { assert ids == (ids - {x}) + {x}; }
    if |ids| >= 2 {
      var x :| x in ids;
      assert ids - {x} != {};
    }
  }

  predicate Reports(out: seq<NameConflict>, key: string, id: string) {
    exists i :: 0 <= i < |out| && out[i].key == key && out[i].id == id
  }

  lemma OrderedConcat(a: seq<NameConflict>, b: seq<NameConflict>)
    requires Ordered(a) && Ordered(b) && forall i, j :: 0 <= i < |a| && 0 <= j < |b| ==> Before(a[i], b[j])
    ensures Ordered(a + b)
  {
    hide Before;
  }

  lemma ReportsConcat(a: seq<NameConflict>, b: seq<NameConflict>, key: string, id: string)
    ensures Reports(a + b, key, id) <==> Reports(a, key, id) || Reports(b, key, id)
  {
    if i :| 0 <= i < |a + b| && (a + b)[i].key == key && (a + b)[i].id == id {
      if i < |a| { assert a[i].id == id; } else { assert b[i - |a|].id == id; }
    }
    if i :| 0 <= i < |a| && a[i].key == key && a[i].id == id { assert (a + b)[i].id == id; }
    if i :| 0 <= i < |b| && b[i].key == key && b[i].id == id { assert (a + b)[|a| + i].id == id; }
  }

  /** One conflict of a name. */
  method OneConflict(lower: string -> string, rs: seq<Runtime>, groups: map<string, set<string>>, key: string, id: string) returns (c: NameConflict)
    requires Grouped(lower, rs, |rs|, groups) && key in groups && id in groups[key] && |groups[key]| >= 2
    ensures c.key == key && c.id == id && IsConflict(lower, rs, groups, c)
  {
    TwoHolders(groups[key]);
    assert Claimed(groups, key, id);
    var name := FirstName(lower, rs, key, id);
    var other := SmallestOther(groups[key], id);
    c := NameConflict(key, id, name, other);
  }

  /** The conflicts of one name, in id order. */
  method NameGroup(lower: string -> string, rs: seq<Runtime>, groups: map<string, set<string>>, key: string) returns (out: seq<NameConflict>)
    requires Grouped(lower, rs, |rs|, groups) && key in groups && |groups[key]| >= 2
    ensures Ordered(out)
    ensures forall i :: 0 <= i < |out| ==> out[i].key == key && IsConflict(lower, rs, groups, out[i])
    ensures forall id :: id in groups[key] ==> Reports(out, key, id)
  {
    hide IsConflict, Reports, Grouped, Leq, Ordered;
    out := [];
    var rest := groups[key];
    assert Ordered(out) by { NothingOrdered(); }
    while rest != {}
      invariant rest <= groups[key] && Ordered(out)
      invariant forall i :: 0 <= i < |out| ==> out[i].key == key && IsConflict(lower, rs, groups, out[i])
      invariant forall i, id :: 0 <= i < |out| && id in rest ==> Leq(out[i].id, id) && out[i].id != id
      invariant forall id :: id in groups[key] - rest ==> Reports(out, key, id)
      decreases |rest|
    {
      var id := SmallestOf(rest);
      var c := OneConflict(lower, rs, groups, key, id);
      OneIsOrdered(c);
      OrderedConcat(out, [c]);
      forall x | x in groups[key] - (rest - {id}) ensures Reports(out + [c], key, x) {
        ReportsConcat(out, [c], key, x);
        if x == id { OneReports(c); }
      }
      out := out + [c];
      rest := rest - {id};
    }
  }

  lemma NothingOrdered()
    ensures Ordered([])
  {
  }

  lemma OneIsOrdered(c: NameConflict)
    ensures Ordered([c])
  {
  }

  lemma OneReports(c: NameConflict)
    ensures Reports([c], c.key, c.id)
  {
    assert [c][0] == c;
  }

  /** Every runtime that shares a folded name with a different id, ordered by name and id whatever the order of the graph. */
  method RuntimeNameConflicts(lower: string -> string, rs: seq<Runtime>) returns (out: seq<NameConflict>, ghost groups: map<string, set<string>>)
    ensures Grouped(lower, rs, |rs|, groups)
    ensures Ordered(out)
    ensures forall i :: 0 <= i < |out| ==> IsConflict(lower, rs, groups, out[i])
    ensures forall key, id :: Claimed(groups, key, id) && groups[key] - {id} != {} ==> Reports(out, key, id)
  {
    var byName := GroupByName(lower, rs);
    groups := byName;
    out := [];
    var rest := SharedNames(byName);
    ghost var done := {};
    hide IsConflict, Reports, Grouped, Leq, Ordered;
    NothingOrdered();
    while rest != {}
      invariant done + rest == SharedNames(groups) && Ordered(out)
      invariant forall i :: 0 <= i < |out| ==> out[i].key in done && IsConflict(lower, rs, groups, out[i])
      invariant forall a, b :: a in done && b in rest ==> Leq(a, b) && a != b
      invariant forall key, id :: key in done && id in groups[key] ==> Reports(out, key, id)
      decreases |rest|
    {
      var key := SmallestOf(rest);
      var more := NameGroup(lower, rs, byName, key);
      OrderedConcat(out, more);
      forall k, id | k in done + {key} && id in groups[k] ensures Reports(out + more, k, id) { ReportsConcat(out, more, k, id); }
      out := out + more;
      rest, done := rest - {key}, done + {key};
    }
    SharedNamesAre(groups);
  }

  /** The names with more than one id. */
  function SharedNames(groups: map<string, set<string>>): (keys: set<string>)
    ensures forall key :: key in keys ==> key in groups
  {
    set key | key in groups && |groups[key]| >= 2
  }

  lemma SharedNamesAre(groups: map<string, set<string>>)
    ensures forall key, id :: Claimed(groups, key, id) && groups[key] - {id} != {} ==> key in SharedNames(groups)
  {
    forall key, id | Claimed(groups, key, id) && groups[key] - {id} != {} ensures |groups[key]| >= 2 { TwoHolders(groups[key]); }
  }

  /* ---- composing the resulting lists ---- */

  /** Replaces each updated record at its own index and appends the created ones; fails on an update of an unknown id. */
  method Compose<T>(current: seq<T>, ids: seq<string>, updates: seq<T>, updateIds: seq<string>, creates: seq<T>) returns (next: seq<T>, known: bool)
    requires |ids| == |current| && |updateIds| == |updates|
    ensures known <==> forall u :: 0 <= u < |updateIds| ==> LastIndex(ids, updateIds[u]) >= 0
    ensures known ==> next == Composed(current, ids, updates, updateIds, creates)
  {
    var positions := seq(|ids|, i requires 0 <= i < |ids| => i);
    var index := LastById(positions, ids);
    next := current;
    for u := 0 to |updates|
      invariant |next| == |current|
      invariant forall v :: 0 <= v < u ==> LastIndex(ids, updateIds[v]) >= 0
      invariant forall i :: 0 <= i < |current| ==> next[i] == Replaced(current, ids, updates, updateIds, u, i)
    {
      var id := updateIds[u];
      if id !in index { return next, false; }
      next := next[index[id] := updates[u]];
      forall i | 0 <= i < |current| ensures next[i] == Replaced(current, ids, updates, updateIds, u + 1, i) {
        ReplacedNext(current, ids, updates, updateIds, u, i);
      }
    }
    assert updateIds[..|updates|] == updateIds;
    next := next + creates;
    known := true;
    assert next == Composed(current, ids, updates, updateIds, creates);
  }

  /** Record i once the first u updates are in place. */
  function Replaced<T>(current: seq<T>, ids: seq<string>, updates: seq<T>, updateIds: seq<string>, u: nat, i: nat): T
    requires |ids| == |current| && |updateIds| == |updates| && u <= |updates| && i < |current|
  {
    var k := LastIndex(updateIds[..u], ids[i]);
    if k >= 0 && Owns(ids, i) then updates[k] else current[i]
  }

  lemma ReplacedNext<T>(current: seq<T>, ids: seq<string>, updates: seq<T>, updateIds: seq<string>, u: nat, i: nat)
    requires |ids| == |current| && |updateIds| == |updates| && u < |updates| && i < |current| && LastIndex(ids, updateIds[u]) >= 0
    ensures Replaced(current, ids, updates, updateIds, u + 1, i) ==
              if i == LastIndex(ids, updateIds[u]) then updates[u] else Replaced(current, ids, updates, updateIds, u, i)
  {
    assert updateIds[..u + 1] == updateIds[..u] + [updateIds[u]];
    LastIndexAppended(updateIds[..u], [updateIds[u]], ids[i]);
    if LastIndex(ids, updateIds[u]) == i { LastIndexIs(ids, ids[i], i); }
  }

  method StampRuntimes(rs: seq<Runtime>, now: int, create: bool) returns (out: seq<Runtime>)
    ensures out == StampedRuntimes(rs, now, create)
  {
    out := [];
    for i := 0 to |rs|
      invariant |out| == i && forall j :: 0 <= j < i ==> out[j] == StampedRuntimes(rs, now, create)[j]
    {
      out := out + [rs[i].(createdAt := if create then now else rs[i].createdAt, updatedAt := now)];
    }
  }

  method StampModels(ms: seq<Model>, now: int, create: bool) returns (out: seq<Model>)
    ensures out == StampedModels(ms, now, create)
  {
    out := [];
    for i := 0 to |ms|
      invariant |out| == i && forall j :: 0 <= j < i ==> out[j] == StampedModels(ms, now, create)[j]
    {
      out := out + [ms[i].(createdAt := if create then now else ms[i].createdAt, updatedAt := now)];
    }
  }

  /* ---- the repository ---- */

  datatype Outcome = Conflict | NothingToWrite | EscapedConflict | SaveFailed | Written

  ghost predicate NamesCollide(lower: string -> string, rs: seq<Runtime>) {
    exists p, q :: 0 <= p < |rs| && 0 <= q < |rs| && Collide(lower, rs[p], rs[q])
  }

  ghost predicate WritesNothing(job: Import) {
    forall i :: 0 <= i < job.Size() ==> job.Verdicts()[i].status.Unchanged?
  }

  /** How many of the first n entries have no id. */
  function Blanks(entries: seq<PipelineModel>, n: nat): nat
    requires n <= |entries|
  {
    if n == 0 then 0 else Blanks(entries, n - 1) + (if entries[n - 1].id == "" then 1 else 0)
  }

  class JSONRepository {
    var runtimes: seq<Runtime>
    var models: seq<Model>
    var pipelines: seq<Pipeline>
    var generated: nat                   // ids drawn from the generator so far
    const idGenerator: nat -> string

    constructor (idGenerator: nat -> string)
      ensures State() == Graph([], [], [])
    {
      this.idGenerator := idGenerator;
      runtimes, models, pipelines, generated := [], [], [], 0;
    }

    function State(): Graph
      reads this
    { Graph(runtimes, models, pipelines) }

    /** Copies the record, stamps it and gives every entry without an id a fresh one. */
    method WithAllocatedEntryIds(p: Pipeline, now: int, create: bool) returns (q: Pipeline)
      modifies this`generated
      ensures Filled(p, q, now, create)
      ensures generated == old(generated) + Blanks(p.models, |p.models|)
      ensures forall j :: 0 <= j < |p.models| && p.models[j].id == "" ==> q.models[j].id == idGenerator(old(generated) + Blanks(p.models, j))
    {
      var entries := p.models;
      for i := 0 to |p.models|
        invariant |entries| == |p.models|
        invariant forall j :: i <= j < |entries| ==> entries[j] == p.models[j]
        invariant generated == old(generated) + Blanks(p.models, i)
        invariant forall j :: 0 <= j < i && p.models[j].id == "" ==> entries[j].id == idGenerator(old(generated) + Blanks(p.models, j))
        invariant forall j :: 0 <= j < i ==>
                    entries[j] == p.models[j].(id := entries[j].id) && (p.models[j].id != "" ==> entries[j].id == p.models[j].id)
      {
        if entries[i].id == "" {
          entries := entries[i := entries[i].(id := idGenerator(generated))];
          generated := generated + 1;
        }
      }
      q := p.(models := entries, createdAt := if create then now else p.createdAt, updatedAt := now);
    }

    method AllocateAll(ps: seq<Pipeline>, now: int, create: bool) returns (out: seq<Pipeline>)
      modifies this`generated
      ensures AllFilled(ps, out, now, create)
    {
      out := [];
      for i := 0 to |ps|
        invariant |out| == i && forall j :: 0 <= j < i ==> Filled(ps[j], out[j], now, create)
      {
        var q := WithAllocatedEntryIds(ps[i], now, create);
        out := out + [q];
      }
    }

    /** Plans and applies a bundle in one step: everything the plan decided, or nothing at all. */
    method ImportGraph(lower: string -> string, bundle: Graph, now: int, saves: bool) returns (plan: Plan, outcome: Outcome)
      modifies this
      ensures fresh(plan) && plan.Counted()
      ensures var job := Import(lower, old(State()), bundle);
              && (outcome.Conflict? <==> !NothingBlocked(job))
              && (outcome.NothingToWrite? <==> WritesNothing(job))
              && (outcome.EscapedConflict? <==> NothingBlocked(job) && !WritesNothing(job) && NamesCollide(lower, RuntimesAfter(job, now)))
              && (outcome.Written? ==> saves && Applied(job, now, State()))
              && (outcome.SaveFailed? ==> !saves)
              && (!outcome.Written? ==> State() == old(State()))
              && (outcome.EscapedConflict? || PlanOf(plan, job))
      ensures outcome.Conflict? || outcome.EscapedConflict? ==> plan.HasBlocked()
      ensures outcome.EscapedConflict? ==> AllReported(lower, RuntimesAfter(Import(lower, old(State()), bundle), now), plan.blocked)
      ensures outcome.Written? || outcome.SaveFailed? ==> plan.WillMutate() && !plan.HasBlocked()
    {
      hide WritesNothing, NothingBlocked, CountsAgree, RuntimesAfter, IsConflict, Grouped, Reports, NamesCollide, Select, Import.Verdicts;
      var job := Import(lower, State(), bundle);
      plan := PlanGraphImport(job);
      BlockedIsReported(plan, job);
      UnchangedIsNotBlocked(job);
      if plan.HasBlocked() { return plan, Conflict; }
      MutationIsCounted(plan, job);
      if !plan.WillMutate() { return plan, NothingToWrite; }

      var nextRuntimes, nextModels, nextPipelines := ComposeGraph(job, plan, now);
      ghost var groups;
      var conflicts: seq<NameConflict>;
      conflicts, groups := RuntimeNameConflicts(lower, nextRuntimes);
      CollisionIsReported(lower, nextRuntimes, groups, conflicts);
      if |conflicts| > 0 {
        ReportEscaped(plan, conflicts);
        AllAreReported(lower, nextRuntimes, groups, conflicts, plan.blocked);
        return plan, EscapedConflict;
      }

      var prevRuntimes, prevModels, prevPipelines := runtimes, models, pipelines;
      runtimes, models, pipelines := nextRuntimes, nextModels, nextPipelines;
      if !saves {
        runtimes, models, pipelines := prevRuntimes, prevModels, prevPipelines;
        return plan, SaveFailed;
      }
      return plan, Written;
    }

    /** The resulting lists, composed without touching the repository's own. */
    method ComposeGraph(job: Import, plan: Plan, now: int) returns (rs: seq<Runtime>, ms: seq<Model>, ps: seq<Pipeline>)
      requires job.state == State() && PlanOf(plan, job)
      modifies this`generated
      ensures State() == old(State())
      ensures Applied(job, now, Graph(rs, ms, ps))
    {
      rs := ComposeRuntimes(job, plan.updateRuntimes, plan.createRuntimes, now);
      ms := ComposeModels(job, plan.updateModels, plan.createModels, now);
      hide RuntimesAfter, ModelsAfter, PipelinesAfter, UpdatedPipelines, CreatedPipelines;
      assert plan.updatePipelines == UpdatedPipelines(job) && plan.createPipelines == CreatedPipelines(job) by { PipelineWrites(plan, job); }
      ps := ComposePipelines(job, plan.updatePipelines, plan.createPipelines, now);
    }

    method ComposePipelines(job: Import, updates: seq<Pipeline>, creates: seq<Pipeline>, now: int) returns (ps: seq<Pipeline>)
      requires job.state == State() && updates == UpdatedPipelines(job) && creates == CreatedPipelines(job)
      modifies this`generated
      ensures State() == old(State())
      ensures PipelinesAfter(job, now, ps)
    {
      hide UpdatedPipelines, CreatedPipelines, AllFilled;
      var updated := AllocateAll(updates, now, false);
      var created := AllocateAll(creates, now, true);
      var known: bool;
      ps, known := Compose(pipelines, PipelineIds(pipelines), updated, PipelineIds(updated), created);
      UpdatedPipelinesAreKnown(job, updated, now);
    }
  }

  lemma PipelineWrites(plan: Plan, job: Import)
    requires PlanOf(plan, job)
    ensures plan.updatePipelines == UpdatedPipelines(job) && plan.createPipelines == CreatedPipelines(job)
  {
  }

  method ComposeRuntimes(job: Import, updates: seq<Runtime>, creates: seq<Runtime>, now: int) returns (rs: seq<Runtime>)
    requires updates == UpdatedRuntimes(job) && creates == CreatedRuntimes(job)
    ensures rs == RuntimesAfter(job, now)
  {
    hide UpdatedRuntimes, CreatedRuntimes, StampedRuntimes;
    var known: bool;
    var updated := StampRuntimes(updates, now, false);
    var created := StampRuntimes(creates, now, true);
    rs, known := Compose(job.state.runtimes, RuntimeIds(job.state.runtimes), updated, RuntimeIds(updated), created);
    UpdatedRuntimesAreKnown(job, updated);
  }

  method ComposeModels(job: Import, updates: seq<Model>, creates: seq<Model>, now: int) returns (ms: seq<Model>)
    requires updates == UpdatedModels(job) && creates == CreatedModels(job)
    ensures ms == ModelsAfter(job, now)
  {
    hide UpdatedModels, CreatedModels, StampedModels;
    var known: bool;
    var updated := StampModels(updates, now, false);
    var created := StampModels(creates, now, true);
    ms, known := Compose(job.state.models, ModelIds(job.state.models), updated, ModelIds(updated), created);
    UpdatedModelsAreKnown(job, updated);
  }

  lemma UpdatedRuntimesAreKnown(job: Import, updates: seq<Runtime>)
    requires RuntimeIds(updates) == RuntimeIds(UpdatedRuntimes(job))
    ensures forall u :: 0 <= u < |updates| ==> LastIndex(RuntimeIds(job.state.runtimes), updates[u].id) >= 0
  {
    forall u | 0 <= u < |updates| ensures job.RuntimeAt(updates[u].id) >= 0 {
      RuntimeIdAt(updates, u);
      RuntimeIdAt(UpdatedRuntimes(job), u);
      var i := RuntimeUpdatedFrom(job, u);
    }
  }

  lemma UpdatedModelsAreKnown(job: Import, updates: seq<Model>)
    requires ModelIds(updates) == ModelIds(UpdatedModels(job))
    ensures forall u :: 0 <= u < |updates| ==> LastIndex(ModelIds(job.state.models), updates[u].id) >= 0
  {
    forall u | 0 <= u < |updates| ensures job.ModelAt(updates[u].id) >= 0 {
      ModelIdAt(updates, u);
      ModelIdAt(UpdatedModels(job), u);
      var i := ModelUpdatedFrom(job, u);
    }
  }

  lemma UpdatedPipelinesAreKnown(job: Import, updates: seq<Pipeline>, now: int)
    requires AllFilled(UpdatedPipelines(job), updates, now, false)
    ensures forall u :: 0 <= u < |updates| ==> LastIndex(PipelineIds(job.state.pipelines), updates[u].id) >= 0
  {
    forall u | 0 <= u < |updates| ensures job.PipelineAt(updates[u].id) >= 0 {
      assert Filled(UpdatedPipelines(job)[u], updates[u], now, false);
      var i := PipelineUpdatedFrom(job, u);
    }
  }

  /** The plan lists a blocked entity exactly when some verdict is blocked. */
  lemma BlockedIsReported(plan: Plan, job: Import)
    requires PlanOf(plan, job)
    ensures plan.HasBlocked() <==> !NothingBlocked(job)
  {
    var vs := job.Verdicts();
    hide Import.Verdicts, CountsAgree;
    forall i | 0 <= i < job.Size() && vs[i].status.Blocked? ensures plan.HasBlocked() { SelectMember(vs, vs, job.Size(), Blocked, vs[i]); }
    if plan.HasBlocked() { SelectMember(vs, vs, job.Size(), Blocked, plan.blocked[0]); }
  }

  lemma {:induction false} CountIsPositive(cs: seq<Classification>, n: nat, kind: Kind, status: Status)
    requires n <= |cs|
    ensures Count(cs, n, kind, status) > 0 <==> exists i :: 0 <= i < n && cs[i].kind == kind && cs[i].status == status
  {
    if n > 0 { CountIsPositive(cs, n - 1, kind, status); }
  }

  lemma TotalIsPositive(cs: seq<Classification>, status: Status)
    ensures CountsOf(cs, status).Total() > 0 <==> exists i :: 0 <= i < |cs| && cs[i].status == status
  {
    CountIsPositive(cs, |cs|, RuntimeKind, status);
    CountIsPositive(cs, |cs|, ModelKind, status);
    CountIsPositive(cs, |cs|, PipelineKind, status);
    hide Count;
    forall i | 0 <= i < |cs| && cs[i].status == status ensures CountsOf(cs, status).Total() > 0 {
      assert Count(cs, |cs|, cs[i].kind, status) > 0;
    }
  }

  /** A plan without blocks is worth applying exactly when some verdict is not `unchanged`. */
  lemma MutationIsCounted(plan: Plan, job: Import)
    requires PlanOf(plan, job) && NothingBlocked(job)
    ensures plan.WillMutate() <==> !WritesNothing(job)
  {
    var vs := job.Verdicts();
    assert |vs| == job.Size();
    TotalIsPositive(vs, New);
    TotalIsPositive(vs, Update);
    assert plan.created == CountsOf(vs, New) && plan.updated == CountsOf(vs, Update);
    hide Import.Verdicts, CountsOf;
    assert !WritesNothing(job) <==> exists i :: 0 <= i < |vs| && (vs[i].status.New? || vs[i].status.Update?);
    assert plan.WillMutate() <==> plan.created.Total() > 0 || plan.updated.Total() > 0 by { TotalsAreNatural(vs, New); TotalsAreNatural(vs, Update); }
  }

  lemma UnchangedIsNotBlocked(job: Import)
    ensures WritesNothing(job) ==> NothingBlocked(job)
  {
    hide Import.Verdicts;
  }

  lemma TotalsAreNatural(cs: seq<Classification>, status: Status)
    ensures CountsOf(cs, status).Total() >= 0
  {
  }

  /** The name check reports something exactly when two different runtimes share a folded name. */
  lemma CollisionIsReported(lower: string -> string, rs: seq<Runtime>, groups: map<string, set<string>>, out: seq<NameConflict>)
    requires Grouped(lower, rs, |rs|, groups)
    requires forall i :: 0 <= i < |out| ==> IsConflict(lower, rs, groups, out[i])
    requires forall key, id :: Claimed(groups, key, id) && groups[key] - {id} != {} ==> Reports(out, key, id)
    ensures |out| > 0 <==> NamesCollide(lower, rs)
  {
    if |out| > 0 {
      var c := out[0];
      assert IsConflict(lower, rs, groups, c);
      var other :| other in groups[c.key] - {c.id};
      assert Claimed(groups, c.key, c.id) && Claimed(groups, c.key, other);
      var p :| 0 <= p < |rs| && lower(rs[p].name) == c.key && rs[p].id == c.id;
      var q :| 0 <= q < |rs| && lower(rs[q].name) == c.key && rs[q].id == other;
      assert Collide(lower, rs[p], rs[q]);
    }
    if p, q :| 0 <= p < |rs| && 0 <= q < |rs| && Collide(lower, rs[p], rs[q]) {
      var key := lower(rs[p].name);
      assert Carries(lower, rs, |rs|, key, rs[p].id) && Carries(lower, rs, |rs|, key, rs[q].id);
      assert Claimed(groups, key, rs[p].id) && Claimed(groups, key, rs[q].id);
      assert rs[q].id in groups[key] - {rs[p].id};
      assert Reports(out, key, rs[p].id);
    }
  }

  predicate ReportedAs(b: Classification, c: NameConflict) {
    b.kind.RuntimeKind? && b.id == c.id && b.status.Blocked? && b.reason.NameTaken? && b.relatedId == c.relatedId
  }

  /** The blocked list is exactly the runtimes of the graph that share a folded name with another id. */
  ghost predicate AllReported(lower: string -> string, rs: seq<Runtime>, blocked: seq<Classification>) {
    exists groups, conflicts ::
      && Grouped(lower, rs, |rs|, groups) && Ordered(conflicts) && |blocked| == |conflicts|
      && (forall i :: 0 <= i < |conflicts| ==> IsConflict(lower, rs, groups, conflicts[i]) && ReportedAs(blocked[i], conflicts[i]))
      && (forall key, id :: Claimed(groups, key, id) && groups[key] - {id} != {} ==> Reports(conflicts, key, id))
  }

  lemma AllAreReported(lower: string -> string, rs: seq<Runtime>, groups: map<string, set<string>>, conflicts: seq<NameConflict>, blocked: seq<Classification>)
    requires Grouped(lower, rs, |rs|, groups) && Ordered(conflicts) && |blocked| == |conflicts|
    requires forall i :: 0 <= i < |conflicts| ==> IsConflict(lower, rs, groups, conflicts[i]) && ReportedAs(blocked[i], conflicts[i])
    requires forall key, id :: Claimed(groups, key, id) && groups[key] - {id} != {} ==> Reports(conflicts, key, id)
    ensures AllReported(lower, rs, blocked)
  {
  }

  /** Every conflict found by the check becomes a blocked entity of the plan, whose counters stay right. */
  method ReportEscaped(plan: Plan, conflicts: seq<NameConflict>)
    requires plan.Counted()
    modifies plan`created, plan`updated, plan`untouched, plan`classifications, plan`blocked
    ensures plan.Counted() && |plan.blocked| == |old(plan.blocked)| + |conflicts|
    ensures forall i {:trigger conflicts[i]} :: 0 <= i < |conflicts| ==> ReportedAs(plan.blocked[|old(plan.blocked)| + i], conflicts[i])
  {
    hide CountsAgree;
    ghost var n := |plan.blocked|;
    for i := 0 to |conflicts|
      invariant plan.Counted() && |plan.blocked| == n + i
      invariant forall j {:trigger conflicts[j]} :: 0 <= j < i ==> ReportedAs(plan.blocked[n + j], conflicts[j])
    {
      ghost var before := plan.blocked;
      plan.AddEscapedBlock(RuntimeKind, conflicts[i].id, conflicts[i].name, NameTaken, conflicts[i].relatedId);
      assert forall k :: 0 <= k < |before| ==> plan.blocked[k] == before[k] by {
        assert plan.blocked[..|before|] == before;
      }
    }
  }
}
