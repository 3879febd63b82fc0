/** Laws of graph import: what an applied plan leaves behind, and what planning it again decides. */
module ImportLaws {
  import opened Catalog
  import opened ImportRules
  import opened ImportApply

  /* ---- runtimes ---- */

  lemma RuntimeCreated(job: Import, id: string)
    ensures id in RuntimeIds(CreatedRuntimes(job)) <==> job.RuntimeCreated(|job.bundle.runtimes|, id)
    ensures id in RuntimeIds(CreatedRuntimes(job)) ==> job.RuntimeAt(id) < 0
  {
    var n, created := |job.bundle.runtimes|, CreatedRuntimes(job);
    if id in RuntimeIds(created) {
      var k :| 0 <= k < |created| && created[k].id == id;
      SelectMember(job.bundle.runtimes, job.RuntimeVerdicts(), n, New, created[k]);
    }
    if i :| 0 <= i < n && job.bundle.runtimes[i].id == id && job.RuntimeVerdict(i).status.New? {
      SelectMember(job.bundle.runtimes, job.RuntimeVerdicts(), n, New, job.bundle.runtimes[i]);
      var k :| 0 <= k < |created| && created[k] == job.bundle.runtimes[i];
      assert RuntimeIds(created)[k] == id;
    }
  }

  /** A created record is the bundle's own. */
  lemma RuntimeCreatedFrom(job: Import, k: nat) returns (i: nat)
    requires k < |CreatedRuntimes(job)|
    ensures i < |job.bundle.runtimes| && job.bundle.runtimes[i] == CreatedRuntimes(job)[k] && job.RuntimeVerdict(i).status.New?
  {
    SelectMember(job.bundle.runtimes, job.RuntimeVerdicts(), |job.bundle.runtimes|, New, CreatedRuntimes(job)[k]);
    i :| 0 <= i < |job.bundle.runtimes| && job.bundle.runtimes[i] == CreatedRuntimes(job)[k] && job.RuntimeVerdicts()[i].status == New;
  }

  /** A replacement restores the local record of an id from a bundle entry of that id. */
  lemma RuntimeUpdatedFrom(job: Import, k: nat) returns (i: nat)
    requires k < |UpdatedRuntimes(job)|
    ensures i < |job.bundle.runtimes| && job.RuntimeVerdict(i).status.Update? && job.RuntimeAt(job.bundle.runtimes[i].id) >= 0
    ensures UpdatedRuntimes(job)[k] == RestoredRuntime(job.state.runtimes[job.RuntimeAt(job.bundle.runtimes[i].id)], job.bundle.runtimes[i])
    ensures UpdatedRuntimes(job)[k].id == job.bundle.runtimes[i].id
  {
    SelectMember(job.RestoredRuntimes(), job.RuntimeVerdicts(), |job.bundle.runtimes|, Update, UpdatedRuntimes(job)[k]);
    i :| 0 <= i < |job.bundle.runtimes| && job.RestoredRuntimes()[i] == UpdatedRuntimes(job)[k] && job.RuntimeVerdicts()[i].status == Update;
  }

  lemma RuntimeUpdated(job: Import, i: nat)
    requires i < |job.bundle.runtimes| && job.RuntimeVerdict(i).status.Update?
    ensures LastIndex(RuntimeIds(UpdatedRuntimes(job)), job.bundle.runtimes[i].id) >= 0
  {
    var r := job.RestoredRuntimes()[i];
    SelectMember(job.RestoredRuntimes(), job.RuntimeVerdicts(), |job.bundle.runtimes|, Update, r);
    var k :| 0 <= k < |UpdatedRuntimes(job)| && UpdatedRuntimes(job)[k] == r;
    assert RuntimeIds(UpdatedRuntimes(job))[k] == job.bundle.runtimes[i].id;
  }

  lemma RuntimeIdsAfter(job: Import, now: int)
    ensures RuntimeIds(RuntimesAfter(job, now)) == RuntimeIds(job.state.runtimes) + RuntimeIds(CreatedRuntimes(job))
  {
    hide CreatedRuntimes, UpdatedRuntimes, LastIndex, Owns;
    var updates, creates := StampedRuntimes(UpdatedRuntimes(job), now, false), StampedRuntimes(CreatedRuntimes(job), now, true);
    assert RuntimeIds(creates) == RuntimeIds(CreatedRuntimes(job));
  }

  /** What the graph holds for an id afterwards. */
  lemma RuntimeHeldAfter(job: Import, now: int, id: string)
    ensures var k := LastIndex(RuntimeIds(RuntimesAfter(job, now)), id);
            var c, u, l := LastIndex(RuntimeIds(CreatedRuntimes(job)), id), LastIndex(RuntimeIds(UpdatedRuntimes(job)), id), job.RuntimeAt(id);
            && (k >= 0 <==> c >= 0 || l >= 0)
            && (k >= 0 && c >= 0 ==> RuntimesAfter(job, now)[k] == CreatedRuntimes(job)[c].(createdAt := now, updatedAt := now))
            && (k >= 0 && c < 0 && u >= 0 ==> RuntimesAfter(job, now)[k] == UpdatedRuntimes(job)[u].(updatedAt := now))
            && (k >= 0 && c < 0 && u < 0 ==> RuntimesAfter(job, now)[k] == job.state.runtimes[l])
  {
    var updated, created := UpdatedRuntimes(job), CreatedRuntimes(job);
    var updates, creates := StampedRuntimes(updated, now, false), StampedRuntimes(created, now, true);
    assert RuntimeIds(updates) == RuntimeIds(updated) && RuntimeIds(creates) == RuntimeIds(created);
    RuntimeIdsAfter(job, now);
    ComposedAt(job.state.runtimes, RuntimeIds(job.state.runtimes), updates, RuntimeIds(updates), creates, RuntimeIds(creates), id);
    hide UpdatedRuntimes, CreatedRuntimes;
  }

  lemma RuntimeUnique(es: seq<Runtime>, i: nat, j: nat)
    requires Distinct(RuntimeIds(es)) && i < |es| && j < |es| && es[i].id == es[j].id
    ensures i == j
  {
    assert RuntimeIds(es)[i] == RuntimeIds(es)[j];
  }

  lemma RuntimeFirstOfItsId(job: Import, i: nat)
    requires i < |job.bundle.runtimes| && Distinct(RuntimeIds(job.bundle.runtimes))
    ensures forall j :: 0 <= j < i ==> job.bundle.runtimes[j].id != job.bundle.runtimes[i].id
  {
    forall j | 0 <= j < i ensures job.bundle.runtimes[j].id != job.bundle.runtimes[i].id {
      if job.bundle.runtimes[j].id == job.bundle.runtimes[i].id { RuntimeUnique(job.bundle.runtimes, i, j); }
    }
  }

  lemma RuntimeVerdictMeans(job: Import, i: nat)
    requires i < |job.bundle.runtimes| && Distinct(RuntimeIds(job.bundle.runtimes))
    ensures var status := job.RuntimeVerdict(i).status; var e := job.bundle.runtimes[i]; var l := job.RuntimeAt(e.id);
            && (status.New? ==> l < 0)
            && (status.Update? ==> l >= 0)
            && (status.Unchanged? <==> l >= 0 && RuntimeEqual(e, job.state.runtimes[l]))
  {
    RuntimeFirstOfItsId(job, i);
    hide Distinct, RuntimeIds, Import.RuntimeAt, Import.Holders;
  }

  lemma RuntimeVerdictWrites(job: Import, i: nat)
    requires i < |job.bundle.runtimes|
    ensures var status := job.RuntimeVerdict(i).status; var id := job.bundle.runtimes[i].id;
            && (status.New? ==> LastIndex(RuntimeIds(CreatedRuntimes(job)), id) >= 0)
            && (status.Update? ==> LastIndex(RuntimeIds(UpdatedRuntimes(job)), id) >= 0)
  {
    RuntimeCreated(job, job.bundle.runtimes[i].id);
    if job.RuntimeVerdict(i).status.Update? { RuntimeUpdated(job, i); }
    hide CreatedRuntimes, UpdatedRuntimes, Import.RuntimeVerdict;
  }

  /** The import leaves every entity of its bundle with the bundle's projection. */
  lemma RuntimeAfterIs(job: Import, now: int, i: nat)
    requires i < |job.bundle.runtimes| && Distinct(RuntimeIds(job.bundle.runtimes)) && !job.RuntimeVerdict(i).status.Blocked?
    ensures var k := LastIndex(RuntimeIds(RuntimesAfter(job, now)), job.bundle.runtimes[i].id);
            k >= 0 && RuntimeEqual(job.bundle.runtimes[i], RuntimesAfter(job, now)[k])
  {
    var id := job.bundle.runtimes[i].id;
    hide UpdatedRuntimes, CreatedRuntimes, RuntimesAfter, Import.RuntimeVerdict, Distinct, LastIndex, RuntimeIds;
    RuntimeHeldAfter(job, now, id);
    RuntimeVerdictMeans(job, i);
    RuntimeVerdictWrites(job, i);
    var c, u := LastIndex(RuntimeIds(CreatedRuntimes(job)), id), LastIndex(RuntimeIds(UpdatedRuntimes(job)), id);
    if c >= 0 {
      RuntimeIdAt(CreatedRuntimes(job), c);
      var j := RuntimeCreatedFrom(job, c);
      RuntimeUnique(job.bundle.runtimes, i, j);
    } else if u >= 0 {
      RuntimeIdAt(UpdatedRuntimes(job), u);
      var j := RuntimeUpdatedFrom(job, u);
      RuntimeUnique(job.bundle.runtimes, i, j);
    }
  }

  lemma RuntimeIdAt(es: seq<Runtime>, k: nat)
    requires k < |es|
    ensures RuntimeIds(es)[k] == es[k].id
  {
  }

  /* ---- models ---- */

  lemma ModelCreated(job: Import, id: string)
    ensures id in ModelIds(CreatedModels(job)) <==> job.ModelCreated(|job.bundle.models|, id)
    ensures id in ModelIds(CreatedModels(job)) ==> job.ModelAt(id) < 0
  {
    var n, created := |job.bundle.models|, CreatedModels(job);
    if id in ModelIds(created) {
      var k :| 0 <= k < |created| && created[k].id == id;
      SelectMember(job.bundle.models, job.ModelVerdicts(), n, New, created[k]);
    }
    if i :| 0 <= i < n && job.bundle.models[i].id == id && job.ModelVerdict(i).status.New? {
      SelectMember(job.bundle.models, job.ModelVerdicts(), n, New, job.bundle.models[i]);
      var k :| 0 <= k < |created| && created[k] == job.bundle.models[i];
      assert ModelIds(created)[k] == id;
    }
  }

  /** A created record is the bundle's own. */
  lemma ModelCreatedFrom(job: Import, k: nat) returns (i: nat)
    requires k < |CreatedModels(job)|
    ensures i < |job.bundle.models| && job.bundle.models[i] == CreatedModels(job)[k] && job.ModelVerdict(i).status.New?
  {
    SelectMember(job.bundle.models, job.ModelVerdicts(), |job.bundle.models|, New, CreatedModels(job)[k]);
    i :| 0 <= i < |job.bundle.models| && job.bundle.models[i] == CreatedModels(job)[k] && job.ModelVerdicts()[i].status == New;
  }

  /** A replacement restores the local record of an id from a bundle entry of that id. */
  lemma ModelUpdatedFrom(job: Import, k: nat) returns (i: nat)
    requires k < |UpdatedModels(job)|
    ensures i < |job.bundle.models| && job.ModelVerdict(i).status.Update? && job.ModelAt(job.bundle.models[i].id) >= 0
    ensures UpdatedModels(job)[k] == RestoredModel(job.state.models[job.ModelAt(job.bundle.models[i].id)], job.bundle.models[i])
    ensures UpdatedModels(job)[k].id == job.bundle.models[i].id
  {
    SelectMember(job.RestoredModels(), job.ModelVerdicts(), |job.bundle.models|, Update, UpdatedModels(job)[k]);
    i :| 0 <= i < |job.bundle.models| && job.RestoredModels()[i] == UpdatedModels(job)[k] && job.ModelVerdicts()[i].status == Update;
  }

  lemma ModelUpdated(job: Import, i: nat)
    requires i < |job.bundle.models| && job.ModelVerdict(i).status.Update?
    ensures LastIndex(ModelIds(UpdatedModels(job)), job.bundle.models[i].id) >= 0
  {
    var r := job.RestoredModels()[i];
    SelectMember(job.RestoredModels(), job.ModelVerdicts(), |job.bundle.models|, Update, r);
    var k :| 0 <= k < |UpdatedModels(job)| && UpdatedModels(job)[k] == r;
    assert ModelIds(UpdatedModels(job))[k] == job.bundle.models[i].id;
  }

  lemma ModelIdsAfter(job: Import, now: int)
    ensures ModelIds(ModelsAfter(job, now)) == ModelIds(job.state.models) + ModelIds(CreatedModels(job))
  {
    var updates, creates := StampedModels(UpdatedModels(job), now, false), StampedModels(CreatedModels(job), now, true);
    assert ModelIds(creates) == ModelIds(CreatedModels(job));
    hide CreatedModels, UpdatedModels;
  }

  /** What the graph holds for an id afterwards. */
  lemma ModelHeldAfter(job: Import, now: int, id: string)
    ensures var k := LastIndex(ModelIds(ModelsAfter(job, now)), id);
            var c, u, l := LastIndex(ModelIds(CreatedModels(job)), id), LastIndex(ModelIds(UpdatedModels(job)), id), job.ModelAt(id);
            && (k >= 0 <==> c >= 0 || l >= 0)
            && (k >= 0 && c >= 0 ==> ModelsAfter(job, now)[k] == CreatedModels(job)[c].(createdAt := now, updatedAt := now))
            && (k >= 0 && c < 0 && u >= 0 ==> ModelsAfter(job, now)[k] == UpdatedModels(job)[u].(updatedAt := now))
            && (k >= 0 && c < 0 && u < 0 ==> ModelsAfter(job, now)[k] == job.state.models[l])
  {
    var updated, created := UpdatedModels(job), CreatedModels(job);
    var updates, creates := StampedModels(updated, now, false), StampedModels(created, now, true);
    assert ModelIds(updates) == ModelIds(updated) && ModelIds(creates) == ModelIds(created);
    ModelIdsAfter(job, now);
    ComposedAt(job.state.models, ModelIds(job.state.models), updates, ModelIds(updates), creates, ModelIds(creates), id);
    hide UpdatedModels, CreatedModels;
  }

  lemma ModelUnique(es: seq<Model>, i: nat, j: nat)
    requires Distinct(ModelIds(es)) && i < |es| && j < |es| && es[i].id == es[j].id
    ensures i == j
  {
    assert ModelIds(es)[i] == ModelIds(es)[j];
  }

  lemma ModelFirstOfItsId(job: Import, i: nat)
    requires i < |job.bundle.models| && Distinct(ModelIds(job.bundle.models))
    ensures forall j :: 0 <= j < i ==> job.bundle.models[j].id != job.bundle.models[i].id
  {
    forall j | 0 <= j < i ensures job.bundle.models[j].id != job.bundle.models[i].id {
      if job.bundle.models[j].id == job.bundle.models[i].id { ModelUnique(job.bundle.models, i, j); }
    }
  }

  lemma ModelVerdictMeans(job: Import, i: nat)
    requires i < |job.bundle.models| && Distinct(ModelIds(job.bundle.models))
    ensures var status := job.ModelVerdict(i).status; var e := job.bundle.models[i]; var l := job.ModelAt(e.id);
            && (status.New? ==> l < 0)
            && (status.Update? ==> l >= 0)
            && (status.Unchanged? <==> l >= 0 && ModelEqual(e, job.state.models[l]))
  {
    ModelFirstOfItsId(job, i);
    hide Distinct, ModelIds, Import.ModelAt, Import.RuntimeResolves, Import.RuntimeBlocked;
  }

  lemma ModelVerdictWrites(job: Import, i: nat)
    requires i < |job.bundle.models|
    ensures var status := job.ModelVerdict(i).status; var id := job.bundle.models[i].id;
            && (status.New? ==> LastIndex(ModelIds(CreatedModels(job)), id) >= 0)
            && (status.Update? ==> LastIndex(ModelIds(UpdatedModels(job)), id) >= 0)
  {
    ModelCreated(job, job.bundle.models[i].id);
    if job.ModelVerdict(i).status.Update? { ModelUpdated(job, i); }
    hide CreatedModels, UpdatedModels, Import.ModelVerdict;
  }

  /** The import leaves every entity of its bundle with the bundle's projection. */
  lemma ModelAfterIs(job: Import, now: int, i: nat)
    requires i < |job.bundle.models| && Distinct(ModelIds(job.bundle.models)) && !job.ModelVerdict(i).status.Blocked?
    ensures var k := LastIndex(ModelIds(ModelsAfter(job, now)), job.bundle.models[i].id);
            k >= 0 && ModelEqual(job.bundle.models[i], ModelsAfter(job, now)[k])
  {
    var id := job.bundle.models[i].id;
    hide UpdatedModels, CreatedModels, ModelsAfter, Import.ModelVerdict, Distinct, LastIndex, ModelIds;
    ModelHeldAfter(job, now, id);
    ModelVerdictMeans(job, i);
    ModelVerdictWrites(job, i);
    var c, u := LastIndex(ModelIds(CreatedModels(job)), id), LastIndex(ModelIds(UpdatedModels(job)), id);
    if c >= 0 {
      ModelIdAt(CreatedModels(job), c);
      var j := ModelCreatedFrom(job, c);
      ModelUnique(job.bundle.models, i, j);
    } else if u >= 0 {
      ModelIdAt(UpdatedModels(job), u);
      var j := ModelUpdatedFrom(job, u);
      ModelUnique(job.bundle.models, i, j);
    }
  }

  lemma ModelIdAt(es: seq<Model>, k: nat)
    requires k < |es|
    ensures ModelIds(es)[k] == es[k].id
  {
  }

  /* ---- pipelines ---- */

  lemma PipelineCreated(job: Import, id: string)
    ensures id in PipelineIds(CreatedPipelines(job)) <==>
              exists i :: 0 <= i < |job.bundle.pipelines| && job.bundle.pipelines[i].id == id && job.PipelineVerdict(i).status.New?
    ensures id in PipelineIds(CreatedPipelines(job)) ==> job.PipelineAt(id) < 0
  {
    var n, created := |job.bundle.pipelines|, CreatedPipelines(job);
    if id in PipelineIds(created) {
      var k :| 0 <= k < |created| && created[k].id == id;
      SelectMember(job.bundle.pipelines, job.PipelineVerdicts(), n, New, created[k]);
    }
    if i :| 0 <= i < n && job.bundle.pipelines[i].id == id && job.PipelineVerdict(i).status.New? {
      SelectMember(job.bundle.pipelines, job.PipelineVerdicts(), n, New, job.bundle.pipelines[i]);
      var k :| 0 <= k < |created| && created[k] == job.bundle.pipelines[i];
      assert PipelineIds(created)[k] == id;
    }
  }

  /** A created record is the bundle's own. */
  lemma PipelineCreatedFrom(job: Import, k: nat) returns (i: nat)
    requires k < |CreatedPipelines(job)|
    ensures i < |job.bundle.pipelines| && job.bundle.pipelines[i] == CreatedPipelines(job)[k] && job.PipelineVerdict(i).status.New?
  {
    SelectMember(job.bundle.pipelines, job.PipelineVerdicts(), |job.bundle.pipelines|, New, CreatedPipelines(job)[k]);
    i :| 0 <= i < |job.bundle.pipelines| && job.bundle.pipelines[i] == CreatedPipelines(job)[k] && job.PipelineVerdicts()[i].status == New;
  }

  /** A replacement restores the local record of an id from a bundle entry of that id. */
  lemma PipelineUpdatedFrom(job: Import, k: nat) returns (i: nat)
    requires k < |UpdatedPipelines(job)|
    ensures i < |job.bundle.pipelines| && job.PipelineVerdict(i).status.Update? && job.PipelineAt(job.bundle.pipelines[i].id) >= 0
    ensures UpdatedPipelines(job)[k] == RestoredPipeline(job.state.pipelines[job.PipelineAt(job.bundle.pipelines[i].id)], job.bundle.pipelines[i])
    ensures UpdatedPipelines(job)[k].id == job.bundle.pipelines[i].id
  {
    SelectMember(job.RestoredPipelines(), job.PipelineVerdicts(), |job.bundle.pipelines|, Update, UpdatedPipelines(job)[k]);
    i :| 0 <= i < |job.bundle.pipelines| && job.RestoredPipelines()[i] == UpdatedPipelines(job)[k] && job.PipelineVerdicts()[i].status == Update;
  }

  lemma PipelineUpdated(job: Import, i: nat)
    requires i < |job.bundle.pipelines| && job.PipelineVerdict(i).status.Update?
    ensures LastIndex(PipelineIds(UpdatedPipelines(job)), job.bundle.pipelines[i].id) >= 0
  {
    var r := job.RestoredPipelines()[i];
    SelectMember(job.RestoredPipelines(), job.PipelineVerdicts(), |job.bundle.pipelines|, Update, r);
    var k :| 0 <= k < |UpdatedPipelines(job)| && UpdatedPipelines(job)[k] == r;
    assert PipelineIds(UpdatedPipelines(job))[k] == job.bundle.pipelines[i].id;
  }

  lemma PipelineUnique(es: seq<Pipeline>, i: nat, j: nat)
    requires Distinct(PipelineIds(es)) && i < |es| && j < |es| && es[i].id == es[j].id
    ensures i == j
  {
    assert PipelineIds(es)[i] == PipelineIds(es)[j];
  }

  lemma PipelineIdAt(es: seq<Pipeline>, k: nat)
    requires k < |es|
    ensures PipelineIds(es)[k] == es[k].id
  {
  }

  lemma PipelineVerdictMeans(job: Import, i: nat)
    requires i < |job.bundle.pipelines|
    ensures var status := job.PipelineVerdict(i).status; var e := job.bundle.pipelines[i]; var l := job.PipelineAt(e.id);
            && (status.New? ==> l < 0)
            && (status.Update? ==> l >= 0)
            && (status.Unchanged? <==> l >= 0 && PipelineEqual(e, job.state.pipelines[l]))
  {
    hide PipelineEqual, Import.PipelineAt, Import.FirstDangling, Import.ModelBlocked;
  }

  lemma PipelineVerdictWrites(job: Import, i: nat)
    requires i < |job.bundle.pipelines|
    ensures var status := job.PipelineVerdict(i).status; var id := job.bundle.pipelines[i].id;
            && (status.New? ==> LastIndex(PipelineIds(CreatedPipelines(job)), id) >= 0)
            && (status.Update? ==> LastIndex(PipelineIds(UpdatedPipelines(job)), id) >= 0)
  {
    PipelineCreated(job, job.bundle.pipelines[i].id);
    if job.PipelineVerdict(i).status.Update? { PipelineUpdated(job, i); }
    hide CreatedPipelines, UpdatedPipelines, Import.PipelineVerdict;
  }

  lemma FilledIds(ps: seq<Pipeline>, qs: seq<Pipeline>, now: int, create: bool)
    requires AllFilled(ps, qs, now, create)
    ensures PipelineIds(qs) == PipelineIds(ps)
  {
  }

  lemma FilledKeepsProjection(bundle: Pipeline, p: Pipeline, q: Pipeline, now: int, create: bool)
    requires PipelineEqual(bundle, p) && Filled(p, q, now, create)
    ensures PipelineEqual(bundle, q) && q.id == p.id
  {
    forall i | 0 <= i < |bundle.models| ensures EntryEqual(bundle.models[i], q.models[i]) {
      assert EntryEqual(bundle.models[i], p.models[i]);
    }
  }

  /** What the graph holds for a pipeline id afterwards. */
  lemma PipelineHeldAfter(job: Import, now: int, after: seq<Pipeline>, id: string)
    requires PipelinesAfter(job, now, after)
    ensures var k := LastIndex(PipelineIds(after), id);
            var c, u, l := LastIndex(PipelineIds(CreatedPipelines(job)), id), LastIndex(PipelineIds(UpdatedPipelines(job)), id), job.PipelineAt(id);
            && (k >= 0 <==> c >= 0 || l >= 0)
            && (k >= 0 && c >= 0 ==> Filled(CreatedPipelines(job)[c], after[k], now, true))
            && (k >= 0 && c < 0 && u >= 0 ==> Filled(UpdatedPipelines(job)[u], after[k], now, false))
            && (k >= 0 && c < 0 && u < 0 ==> after[k] == job.state.pipelines[l])
  {
    hide UpdatedPipelines, CreatedPipelines;
    var updates, creates :|
      && AllFilled(UpdatedPipelines(job), updates, now, false) && AllFilled(CreatedPipelines(job), creates, now, true)
      && after == Composed(job.state.pipelines, PipelineIds(job.state.pipelines), updates, PipelineIds(updates), creates);
    FilledIds(UpdatedPipelines(job), updates, now, false);
    FilledIds(CreatedPipelines(job), creates, now, true);
    assert PipelineIds(after) == PipelineIds(job.state.pipelines) + PipelineIds(creates);
    ComposedAt(job.state.pipelines, PipelineIds(job.state.pipelines), updates, PipelineIds(updates), creates, PipelineIds(creates), id);
  }

  /** The import leaves every pipeline of its bundle with the bundle's projection. */
  lemma PipelineAfterIs(job: Import, now: int, after: seq<Pipeline>, i: nat)
    requires PipelinesAfter(job, now, after)
    requires i < |job.bundle.pipelines| && Distinct(PipelineIds(job.bundle.pipelines)) && !job.PipelineVerdict(i).status.Blocked?
    ensures var k := LastIndex(PipelineIds(after), job.bundle.pipelines[i].id);
            k >= 0 && PipelineEqual(job.bundle.pipelines[i], after[k])
  {
    var id := job.bundle.pipelines[i].id;
    hide UpdatedPipelines, CreatedPipelines, PipelinesAfter, Import.PipelineVerdict, Distinct, LastIndex, PipelineIds;
    PipelineHeldAfter(job, now, after, id);
    PipelineVerdictMeans(job, i);
    PipelineVerdictWrites(job, i);
    var k := LastIndex(PipelineIds(after), id);
    var c, u := LastIndex(PipelineIds(CreatedPipelines(job)), id), LastIndex(PipelineIds(UpdatedPipelines(job)), id);
    if c >= 0 {
      PipelineIdAt(CreatedPipelines(job), c);
      var j := PipelineCreatedFrom(job, c);
      PipelineUnique(job.bundle.pipelines, i, j);
      FilledKeepsProjection(job.bundle.pipelines[i], CreatedPipelines(job)[c], after[k], now, true);
    } else if u >= 0 {
      PipelineIdAt(UpdatedPipelines(job), u);
      var j := PipelineUpdatedFrom(job, u);
      PipelineUnique(job.bundle.pipelines, i, j);
      FilledKeepsProjection(job.bundle.pipelines[i], UpdatedPipelines(job)[u], after[k], now, false);
    }
  }

  /* ---- planning again ---- */

  lemma BlockedNowhere(job: Import)
    requires NothingBlocked(job)
    ensures forall i :: 0 <= i < |job.bundle.runtimes| ==> !job.RuntimeVerdict(i).status.Blocked?
    ensures forall i :: 0 <= i < |job.bundle.models| ==> !job.ModelVerdict(i).status.Blocked?
    ensures forall i :: 0 <= i < |job.bundle.pipelines| ==> !job.PipelineVerdict(i).status.Blocked?
  {
    hide Import.RuntimeVerdict, Import.ModelVerdict, Import.PipelineVerdict, Import.Verdicts;
    var n, m := |job.bundle.runtimes|, |job.bundle.models|;
    forall i | 0 <= i < n ensures !job.RuntimeVerdict(i).status.Blocked? { job.VerdictAt(i); }
    forall i | 0 <= i < m ensures !job.ModelVerdict(i).status.Blocked? { job.VerdictAt(n + i); }
    forall i | 0 <= i < |job.bundle.pipelines| ensures !job.PipelineVerdict(i).status.Blocked? { job.VerdictAt(n + m + i); }
  }

  lemma RuntimeIsUnchanged(job: Import, now: int, after: Graph, i: nat)
    requires Applied(job, now, after) && DistinctIds(job.bundle) && i < |job.bundle.runtimes| && !job.RuntimeVerdict(i).status.Blocked?
    ensures Import(job.lower, after, job.bundle).RuntimeVerdict(i).status.Unchanged?
  {
    hide Import.RuntimeVerdict, RuntimesAfter, ModelsAfter, PipelinesAfter, RuntimeEqual, Distinct, RuntimeIds, ModelIds, PipelineIds, LastIndex;
    RuntimeAfterIs(job, now, i);
    RuntimeVerdictMeans(Import(job.lower, after, job.bundle), i);
  }

  lemma ModelIsUnchanged(job: Import, now: int, after: Graph, i: nat)
    requires Applied(job, now, after) && DistinctIds(job.bundle) && i < |job.bundle.models| && !job.ModelVerdict(i).status.Blocked?
    ensures Import(job.lower, after, job.bundle).ModelVerdict(i).status.Unchanged?
  {
    hide Import.ModelVerdict, RuntimesAfter, ModelsAfter, PipelinesAfter, ModelEqual, Distinct, RuntimeIds, ModelIds, PipelineIds, LastIndex;
    ModelAfterIs(job, now, i);
    ModelVerdictMeans(Import(job.lower, after, job.bundle), i);
  }

  lemma PipelineIsUnchanged(job: Import, now: int, after: Graph, i: nat)
    requires Applied(job, now, after) && DistinctIds(job.bundle) && i < |job.bundle.pipelines| && !job.PipelineVerdict(i).status.Blocked?
    ensures Import(job.lower, after, job.bundle).PipelineVerdict(i).status.Unchanged?
  {
    hide Import.PipelineVerdict, RuntimesAfter, ModelsAfter, PipelinesAfter, PipelineEqual, Distinct, RuntimeIds, ModelIds, PipelineIds, LastIndex;
    PipelineAfterIs(job, now, after.pipelines, i);
    PipelineVerdictMeans(Import(job.lower, after, job.bundle), i);
  }

  lemma VerdictIsUnchanged(job: Import, now: int, after: Graph, i: nat)
    requires Applied(job, now, after) && DistinctIds(job.bundle) && NothingBlocked(job)
    requires i < Import(job.lower, after, job.bundle).Size()
    ensures Import(job.lower, after, job.bundle).Verdicts()[i].status.Unchanged?
  {
    hide Applied, DistinctIds, NothingBlocked, Import.Verdicts, Import.RuntimeVerdict, Import.ModelVerdict, Import.PipelineVerdict;
    BlockedNowhere(job);
    Import(job.lower, after, job.bundle).VerdictAt(i);
    var n, m := |job.bundle.runtimes|, |job.bundle.models|;
    if i < n {
      RuntimeIsUnchanged(job, now, after, i);
    } else if i < n + m {
      ModelIsUnchanged(job, now, after, i - n);
    } else {
      PipelineIsUnchanged(job, now, after, i - n - m);
    }
  }

  /** Planning an applied bundle again finds nothing to write. */
  lemma ReplanIsUnchanged(job: Import, now: int, after: Graph)
    requires Applied(job, now, after) && DistinctIds(job.bundle) && NothingBlocked(job)
    ensures var again := Import(job.lower, after, job.bundle);
            forall i :: 0 <= i < again.Size() ==> again.Verdicts()[i].status.Unchanged?
  {
    hide Applied, DistinctIds, NothingBlocked, Import.Verdicts, Import.Size;
    forall i: nat | i < Import(job.lower, after, job.bundle).Size()
      ensures Import(job.lower, after, job.bundle).Verdicts()[i].status.Unchanged?
    {
      VerdictIsUnchanged(job, now, after, i);
    }
  }

  /* ---- references ---- */

  lemma RuntimeIsHeld(job: Import, now: int, id: string)
    ensures job.RuntimeResolves(id) <==> id in RuntimeIds(RuntimesAfter(job, now))
  {
    RuntimeIdsAfter(job, now);
    RuntimeCreated(job, id);
    hide CreatedRuntimes, RuntimesAfter, Import.RuntimeCreated;
  }

  lemma ModelIsHeld(job: Import, now: int, id: string)
    ensures job.ModelResolves(id) <==> id in ModelIds(ModelsAfter(job, now))
  {
    ModelIdsAfter(job, now);
    ModelCreated(job, id);
    hide CreatedModels, ModelsAfter, Import.ModelCreated;
  }

  lemma WrittenModelResolves(job: Import, i: nat)
    requires i < |job.bundle.models| && (job.ModelVerdict(i).status.New? || job.ModelVerdict(i).status.Update?)
    ensures job.RuntimeResolves(job.bundle.models[i].runtimeId)
  {
    hide Import.RuntimeResolves, Import.RuntimeBlocked, Import.ModelClaimed, Import.ModelAt;
  }

  /** Every model the import adds or changes names a runtime of the resulting graph. */
  lemma ChangedModelsResolve(job: Import, now: int, after: Graph, p: nat)
    requires Applied(job, now, after) && p < |after.models|
    requires p < |job.state.models| ==> after.models[p] != job.state.models[p]
    ensures after.models[p].runtimeId in RuntimeIds(after.runtimes)
  {
    var updates, creates := StampedModels(UpdatedModels(job), now, false), StampedModels(CreatedModels(job), now, true);
    hide UpdatedModels, CreatedModels, RuntimesAfter, Import.ModelVerdict, Import.RuntimeResolves;
    var i: nat;
    if p < |job.state.models| {
      var u := LastIndex(ModelIds(updates), ModelIds(job.state.models)[p]);
      assert u >= 0 && after.models[p] == updates[u];
      i := ModelUpdatedFrom(job, u);
    } else {
      assert after.models[p] == creates[p - |job.state.models|];
      i := ModelCreatedFrom(job, p - |job.state.models|);
    }
    WrittenModelResolves(job, i);
    RuntimeIsHeld(job, now, job.bundle.models[i].runtimeId);
  }

  lemma WrittenPipelineResolves(job: Import, i: nat)
    requires i < |job.bundle.pipelines| && (job.PipelineVerdict(i).status.New? || job.PipelineVerdict(i).status.Update?)
    ensures job.bundle.pipelines[i].models != []
    ensures forall k :: 0 <= k < |job.bundle.pipelines[i].models| ==> job.ModelResolves(job.bundle.pipelines[i].models[k].modelId)
  {
    hide Import.ModelResolves, Import.ModelBlocked, Import.PipelineAt, PipelineEqual;
  }

  /** Every pipeline the import adds or changes has entries, and each names a model of the resulting graph. */
  lemma ChangedPipelinesResolve(job: Import, now: int, after: Graph, p: nat)
    requires Applied(job, now, after) && p < |after.pipelines|
    requires p < |job.state.pipelines| ==> after.pipelines[p] != job.state.pipelines[p]
    ensures after.pipelines[p].models != []
    ensures forall k :: 0 <= k < |after.pipelines[p].models| ==> after.pipelines[p].models[k].modelId in ModelIds(after.models)
  {
    hide UpdatedPipelines, CreatedPipelines, ModelsAfter, RuntimesAfter, Import.PipelineVerdict, Import.ModelResolves;
    var updates, creates :|
      && AllFilled(UpdatedPipelines(job), updates, now, false) && AllFilled(CreatedPipelines(job), creates, now, true)
      && after.pipelines == Composed(job.state.pipelines, PipelineIds(job.state.pipelines), updates, PipelineIds(updates), creates);
    var i: nat;
    if p < |job.state.pipelines| {
      var u := LastIndex(PipelineIds(updates), PipelineIds(job.state.pipelines)[p]);
      assert u >= 0 && after.pipelines[p] == updates[u];
      i := PipelineUpdatedFrom(job, u);
      assert Filled(UpdatedPipelines(job)[u], updates[u], now, false);
    } else {
      var c := p - |job.state.pipelines|;
      assert after.pipelines[p] == creates[c];
      i := PipelineCreatedFrom(job, c);
      assert Filled(CreatedPipelines(job)[c], creates[c], now, true);
    }
    WrittenPipelineResolves(job, i);
    forall k | 0 <= k < |after.pipelines[p].models| ensures after.pipelines[p].models[k].modelId in ModelIds(after.models) {
      ModelIsHeld(job, now, job.bundle.pipelines[i].models[k].modelId);
    }
  }

  /* ---- what a restore never touches ---- */

  /** A runtime of the repository keeps its position, id, environment and creation time, and is the same record when the bundle does not name it. */
  lemma RuntimesKeepTheirPlace(job: Import, now: int, p: nat)
    requires p < |job.state.runtimes|
    ensures var before, after := job.state.runtimes[p], RuntimesAfter(job, now)[p];
            && after.id == before.id && after.environment == before.environment && after.createdAt == before.createdAt
            && ((forall i :: 0 <= i < |job.bundle.runtimes| ==> job.bundle.runtimes[i].id != before.id) ==> after == before)
            && (after != before ==> after.updatedAt == now)
  {
    var updates := StampedRuntimes(UpdatedRuntimes(job), now, false);
    hide UpdatedRuntimes, CreatedRuntimes, Import.RuntimeVerdict;
    var u := LastIndex(RuntimeIds(updates), RuntimeIds(job.state.runtimes)[p]);
    if u >= 0 && Owns(RuntimeIds(job.state.runtimes), p) {
      assert RuntimeIds(updates)[u] == job.state.runtimes[p].id;
      var i := RuntimeUpdatedFrom(job, u);
      assert job.RuntimeAt(job.bundle.runtimes[i].id) == p;
    }
  }

  lemma ModelsKeepTheirPlace(job: Import, now: int, p: nat)
    requires p < |job.state.models|
    ensures var before, after := job.state.models[p], ModelsAfter(job, now)[p];
            && after.id == before.id && after.environment == before.environment && after.createdAt == before.createdAt
            && ((forall i :: 0 <= i < |job.bundle.models| ==> job.bundle.models[i].id != before.id) ==> after == before)
            && (after != before ==> after.updatedAt == now)
  {
    var updates := StampedModels(UpdatedModels(job), now, false);
    hide UpdatedModels, CreatedModels, Import.ModelVerdict;
    var u := LastIndex(ModelIds(updates), ModelIds(job.state.models)[p]);
    if u >= 0 && Owns(ModelIds(job.state.models), p) {
      assert ModelIds(updates)[u] == job.state.models[p].id;
      var i := ModelUpdatedFrom(job, u);
      assert job.ModelAt(job.bundle.models[i].id) == p;
    }
  }

  lemma PipelinesKeepTheirPlace(job: Import, now: int, after: seq<Pipeline>, p: nat)
    requires PipelinesAfter(job, now, after) && p < |job.state.pipelines|
    ensures p < |after| && after[p].id == job.state.pipelines[p].id && after[p].createdAt == job.state.pipelines[p].createdAt
    ensures (forall i :: 0 <= i < |job.bundle.pipelines| ==> job.bundle.pipelines[i].id != job.state.pipelines[p].id) ==> after[p] == job.state.pipelines[p]
    ensures after[p] != job.state.pipelines[p] ==> after[p].updatedAt == now
  {
    hide UpdatedPipelines, CreatedPipelines, Import.PipelineVerdict;
    var updates, creates :|
      && AllFilled(UpdatedPipelines(job), updates, now, false) && AllFilled(CreatedPipelines(job), creates, now, true)
      && after == Composed(job.state.pipelines, PipelineIds(job.state.pipelines), updates, PipelineIds(updates), creates);
    var u := LastIndex(PipelineIds(updates), PipelineIds(job.state.pipelines)[p]);
    if u >= 0 && Owns(PipelineIds(job.state.pipelines), p) {
      assert PipelineIds(updates)[u] == job.state.pipelines[p].id && Filled(UpdatedPipelines(job)[u], updates[u], now, false);
      var i := PipelineUpdatedFrom(job, u);
      assert job.PipelineAt(job.bundle.pipelines[i].id) == p;
    }
  }

  /** Appended records are the new ones, in bundle order. */
  lemma NewRecordsAreAppended(job: Import, now: int, after: Graph)
    requires Applied(job, now, after)
    ensures after.runtimes[|job.state.runtimes|..] == StampedRuntimes(CreatedRuntimes(job), now, true)
    ensures after.models[|job.state.models|..] == StampedModels(CreatedModels(job), now, true)
    ensures AllFilled(CreatedPipelines(job), after.pipelines[|job.state.pipelines|..], now, true)
  {
    hide UpdatedRuntimes, CreatedRuntimes, UpdatedModels, CreatedModels, UpdatedPipelines, CreatedPipelines;
    var updates, creates :|
      && AllFilled(UpdatedPipelines(job), updates, now, false) && AllFilled(CreatedPipelines(job), creates, now, true)
      && after.pipelines == Composed(job.state.pipelines, PipelineIds(job.state.pipelines), updates, PipelineIds(updates), creates);
    assert after.pipelines[|job.state.pipelines|..] == creates;
  }

  /* ---- runtime names ---- */

  predicate Collide(lower: string -> string, a: Runtime, b: Runtime) { a.id != b.id && lower(a.name) == lower(b.name) }

  /** A record the import put into the graph took a name nobody else holds. */
  lemma WrittenNameIsFree(job: Import, i: nat)
    requires i < |job.bundle.runtimes| && (job.RuntimeVerdict(i).status.New? || job.RuntimeVerdict(i).status.Update?)
    ensures job.RuntimeWrites(i)
    ensures forall id :: job.Holds(job.lower(job.bundle.runtimes[i].name), id) ==> id == job.bundle.runtimes[i].id
  {
    hide Import.Holds, Import.RuntimeWrites, Import.RuntimeAt;
    var key := job.lower(job.bundle.runtimes[i].name);
    var own := job.bundle.runtimes[i].id;
    assert job.Holders(key) - {own} == {};
    forall id | job.Holds(key, id) ensures id == own {
      assert id in job.Holders(key) && (id == own || id in job.Holders(key) - {own});
    }
  }

  /** Each runtime of the result is kept from the repository or written for a bundle entry of the same id and name. */
  lemma RuntimeOrigin(job: Import, now: int, p: nat) returns (i: nat)
    requires p < |RuntimesAfter(job, now)|
    requires p < |job.state.runtimes| ==> RuntimesAfter(job, now)[p] != job.state.runtimes[p]
    ensures i < |job.bundle.runtimes| && (job.RuntimeVerdict(i).status.New? || job.RuntimeVerdict(i).status.Update?)
    ensures RuntimesAfter(job, now)[p].id == job.bundle.runtimes[i].id && RuntimesAfter(job, now)[p].name == job.bundle.runtimes[i].name
  {
    var updates, creates := StampedRuntimes(UpdatedRuntimes(job), now, false), StampedRuntimes(CreatedRuntimes(job), now, true);
    hide UpdatedRuntimes, CreatedRuntimes, Import.RuntimeVerdict;
    if p < |job.state.runtimes| {
      var u := LastIndex(RuntimeIds(updates), RuntimeIds(job.state.runtimes)[p]);
      assert u >= 0 && RuntimesAfter(job, now)[p] == updates[u];
      i := RuntimeUpdatedFrom(job, u);
    } else {
      assert RuntimesAfter(job, now)[p] == creates[p - |job.state.runtimes|];
      i := RuntimeCreatedFrom(job, p - |job.state.runtimes|);
    }
  }

  /** Every runtime of the result was a claimant of its name. */
  lemma ResultHoldsItsName(job: Import, now: int, q: nat)
    requires q < |RuntimesAfter(job, now)|
    ensures job.Holds(job.lower(RuntimesAfter(job, now)[q].name), RuntimesAfter(job, now)[q].id)
  {
    hide RuntimesAfter, Import.RuntimeVerdict, Import.RuntimeWrites;
    if q >= |job.state.runtimes| || RuntimesAfter(job, now)[q] != job.state.runtimes[q] {
      var j := RuntimeOrigin(job, now, q);
      WrittenNameIsFree(job, j);
    }
  }

  /** A written runtime collides with no runtime of the result. */
  lemma WrittenRuntimeIsAlone(job: Import, now: int, p: nat, q: nat)
    requires p < |RuntimesAfter(job, now)| && q < |RuntimesAfter(job, now)|
    requires p < |job.state.runtimes| ==> RuntimesAfter(job, now)[p] != job.state.runtimes[p]
    ensures !Collide(job.lower, RuntimesAfter(job, now)[p], RuntimesAfter(job, now)[q])
  {
    hide RuntimesAfter, Import.Holds, Import.RuntimeVerdict;
    var i := RuntimeOrigin(job, now, p);
    WrittenNameIsFree(job, i);
    ResultHoldsItsName(job, now, q);
  }

  /** Two runtimes of the result collide exactly when the import wrote neither and they collided before. */
  lemma CollisionsAreInherited(job: Import, now: int, p: nat, q: nat)
    requires p < |RuntimesAfter(job, now)| && q < |RuntimesAfter(job, now)|
    ensures Collide(job.lower, RuntimesAfter(job, now)[p], RuntimesAfter(job, now)[q]) <==>
              && p < |job.state.runtimes| && RuntimesAfter(job, now)[p] == job.state.runtimes[p]
              && q < |job.state.runtimes| && RuntimesAfter(job, now)[q] == job.state.runtimes[q]
              && Collide(job.lower, job.state.runtimes[p], job.state.runtimes[q])
  {
    hide RuntimesAfter;
    if Collide(job.lower, RuntimesAfter(job, now)[p], RuntimesAfter(job, now)[q]) {
      if p >= |job.state.runtimes| || RuntimesAfter(job, now)[p] != job.state.runtimes[p] { WrittenRuntimeIsAlone(job, now, p, q); }
      if q >= |job.state.runtimes| || RuntimesAfter(job, now)[q] != job.state.runtimes[q] { WrittenRuntimeIsAlone(job, now, q, p); }
    }
  }
}
