/** The graph an import leaves behind: records replaced at their own position, new records appended. */
module ImportApply {
  import opened Catalog
  import opened ImportRules

  /** Position i of a list is the one a replacement of its id goes to. */
  predicate Owns(ids: seq<string>, i: nat)
    requires i < |ids|
  { LastIndex(ids, ids[i]) == i }

  function Composed<T>(current: seq<T>, ids: seq<string>, updates: seq<T>, updateIds: seq<string>, creates: seq<T>): (next: seq<T>)
    requires |ids| == |current| && |updateIds| == |updates|
    ensures |next| == |current| + |creates|
  {
    seq(|current|, i requires 0 <= i < |current| =>
      var k := LastIndex(updateIds, ids[i]);
      if k >= 0 && Owns(ids, i) then updates[k] else current[i]) + creates
  }

  function StampedRuntimes(rs: seq<Runtime>, now: int, create: bool): (out: seq<Runtime>)
    ensures |out| == |rs|
    ensures forall i :: 0 <= i < |rs| ==> out[i] == rs[i].(createdAt := if create then now else rs[i].createdAt, updatedAt := now)
  {
    seq(|rs|, i requires 0 <= i < |rs| => rs[i].(createdAt := if create then now else rs[i].createdAt, updatedAt := now))
  }

  function StampedModels(ms: seq<Model>, now: int, create: bool): (out: seq<Model>)
    ensures |out| == |ms|
    ensures forall i :: 0 <= i < |ms| ==> out[i] == ms[i].(createdAt := if create then now else ms[i].createdAt, updatedAt := now)
  {
    seq(|ms|, i requires 0 <= i < |ms| => ms[i].(createdAt := if create then now else ms[i].createdAt, updatedAt := now))
  }

  /** q is p with a fresh id in every entry that had none, and the write's time stamps. */
  predicate Filled(p: Pipeline, q: Pipeline, now: int, create: bool) {
    && q == p.(models := q.models, createdAt := if create then now else p.createdAt, updatedAt := now)
    && |q.models| == |p.models|
    && forall i :: 0 <= i < |p.models| ==>
         q.models[i] == p.models[i].(id := q.models[i].id) && (p.models[i].id != "" ==> q.models[i].id == p.models[i].id)
  }

  predicate AllFilled(ps: seq<Pipeline>, qs: seq<Pipeline>, now: int, create: bool) {
    |qs| == |ps| && forall i :: 0 <= i < |ps| ==> Filled(ps[i], qs[i], now, create)
  }

  /* ---- the writes of an import ---- */

  ghost function CreatedRuntimes(job: Import): seq<Runtime> { Select(job.bundle.runtimes, job.RuntimeVerdicts(), |job.bundle.runtimes|, New) }

  ghost function UpdatedRuntimes(job: Import): seq<Runtime> { Select(job.RestoredRuntimes(), job.RuntimeVerdicts(), |job.bundle.runtimes|, Update) }

  ghost function CreatedModels(job: Import): seq<Model> { Select(job.bundle.models, job.ModelVerdicts(), |job.bundle.models|, New) }

  ghost function UpdatedModels(job: Import): seq<Model> { Select(job.RestoredModels(), job.ModelVerdicts(), |job.bundle.models|, Update) }

  ghost function CreatedPipelines(job: Import): seq<Pipeline> { Select(job.bundle.pipelines, job.PipelineVerdicts(), |job.bundle.pipelines|, New) }

  ghost function UpdatedPipelines(job: Import): seq<Pipeline> { Select(job.RestoredPipelines(), job.PipelineVerdicts(), |job.bundle.pipelines|, Update) }

  ghost function RuntimesAfter(job: Import, now: int): seq<Runtime> {
    var updates := StampedRuntimes(UpdatedRuntimes(job), now, false);
    Composed(job.state.runtimes, RuntimeIds(job.state.runtimes), updates, RuntimeIds(updates), StampedRuntimes(CreatedRuntimes(job), now, true))
  }

  ghost function ModelsAfter(job: Import, now: int): seq<Model> {
    var updates := StampedModels(UpdatedModels(job), now, false);
    Composed(job.state.models, ModelIds(job.state.models), updates, ModelIds(updates), StampedModels(CreatedModels(job), now, true))
  }

  /** The pipelines after the import, for some choice of the fresh entry ids. */
  ghost predicate PipelinesAfter(job: Import, now: int, after: seq<Pipeline>) {
    exists updates, creates ::
      && AllFilled(UpdatedPipelines(job), updates, now, false) && AllFilled(CreatedPipelines(job), creates, now, true)
      && after == Composed(job.state.pipelines, PipelineIds(job.state.pipelines), updates, PipelineIds(updates), creates)
  }

  /** The graph is the result of applying the import at a moment. */
  ghost predicate Applied(job: Import, now: int, after: Graph) {
    && after.runtimes == RuntimesAfter(job, now)
    && after.models == ModelsAfter(job, now)
    && PipelinesAfter(job, now, after.pipelines)
  }

  ghost predicate NothingBlocked(job: Import) {
    forall i :: 0 <= i < job.Size() ==> !job.Verdicts()[i].status.Blocked?
  }

  /* ---- composition ---- */

  lemma LastIndexAppended(ids: seq<string>, more: seq<string>, id: string)
    ensures LastIndex(ids + more, id) == if LastIndex(more, id) >= 0 then |ids| + LastIndex(more, id) else LastIndex(ids, id)
  {
    var k := LastIndex(more, id);
    if k >= 0 {
      LastIndexIs(ids + more, id, |ids| + k);
    } else if LastIndex(ids, id) >= 0 {
      LastIndexIs(ids + more, id, LastIndex(ids, id));
    }
  }

  /** What a composed list holds for an id: the new record, else the replacement, else what it held. */
  lemma ComposedAt<T>(current: seq<T>, ids: seq<string>, updates: seq<T>, updateIds: seq<string>, creates: seq<T>, createIds: seq<string>, id: string)
    requires |ids| == |current| && |updateIds| == |updates| && |createIds| == |creates|
    ensures var k := LastIndex(ids + createIds, id); var c := LastIndex(createIds, id); var u := LastIndex(updateIds, id); var l := LastIndex(ids, id);
            && (k >= 0 <==> c >= 0 || l >= 0)
            && (k >= 0 ==> Composed(current, ids, updates, updateIds, creates)[k] == if c >= 0 then creates[c] else if u >= 0 then updates[u] else current[l])
  {
    LastIndexAppended(ids, createIds, id);
  }
}
