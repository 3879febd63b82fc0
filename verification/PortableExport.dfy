/** Scoped exports: what a single runtime, model or pipeline takes with it. */
module PortableExport {
  import opened Wrappers
  import opened Catalog
  import opened ImportRules

  datatype ExportError = MultipleRoots | NotFound(kind: Kind, id: string)

  /** The repository's lookups return the first record of an id. */
  function FirstRuntime(rs: seq<Runtime>, id: string): (r: Option<Runtime>)
    ensures r.Some? ==> r.value.id == id && r.value in rs
    ensures r.None? ==> forall i :: 0 <= i < |rs| ==> rs[i].id != id
  {
    if rs == [] then None
    else if rs[0].id == id then Some(rs[0])
    else
      assert forall i :: 1 <= i < |rs| ==> rs[i] == rs[1..][i - 1];
      FirstRuntime(rs[1..], id)
  }

  function FirstModel(ms: seq<Model>, id: string): (m: Option<Model>)
    ensures m.Some? ==> m.value.id == id && m.value in ms
    ensures m.None? ==> forall i :: 0 <= i < |ms| ==> ms[i].id != id
  {
    if ms == [] then None
    else if ms[0].id == id then Some(ms[0])
    else
      assert forall i :: 1 <= i < |ms| ==> ms[i] == ms[1..][i - 1];
      FirstModel(ms[1..], id)
  }

  function FirstPipeline(ps: seq<Pipeline>, id: string): (p: Option<Pipeline>)
    ensures p.Some? ==> p.value.id == id && p.value in ps
    ensures p.None? ==> forall i :: 0 <= i < |ps| ==> ps[i].id != id
  {
    if ps == [] then None
    else if ps[0].id == id then Some(ps[0])
    else
      assert forall i :: 1 <= i < |ps| ==> ps[i] == ps[1..][i - 1];
      FirstPipeline(ps[1..], id)
  }

  /** Every reference stays inside the graph. */
  ghost predicate Closed(g: Graph) {
    && (forall m :: m in g.models ==> m.runtimeId in RuntimeIds(g.runtimes))
    && (forall p, e :: p in g.pipelines && e in p.models ==> e.modelId in ModelIds(g.models))
  }

  /** Part of a graph: its records, named once each, with every reference resolved inside and at most one pipeline. */
  ghost predicate Scoped(state: Graph, g: Graph) {
    && Closed(g) && Distinct(RuntimeIds(g.runtimes)) && Distinct(ModelIds(g.models)) && |g.pipelines| <= 1
    && Within(state, g)
  }

  ghost predicate Within(state: Graph, g: Graph) {
    && (forall x :: x in g.runtimes ==> x in state.runtimes) && (forall m :: m in g.models ==> m in state.models)
    && (forall p :: p in g.pipelines ==> p in state.pipelines)
  }

  /** The ids in order of first use. */
  function Uses(ids: seq<string>): (out: seq<string>)
    ensures forall id :: id in out <==> id in ids
    ensures Distinct(out)
  {
    if ids == [] then []
    else
      var before := Uses(ids[..|ids| - 1]);
      if ids[|ids| - 1] in before then before else before + [ids[|ids| - 1]]
  }

  lemma UsesNone(ids: seq<string>)
    ensures Uses(ids[..0]) == []
  {
  }

  lemma UsesNext(ids: seq<string>, n: nat)
    requires n < |ids|
    ensures Uses(ids[..n + 1]) == if ids[n] in ids[..n] then Uses(ids[..n]) else Uses(ids[..n]) + [ids[n]]
  {
    assert ids[..n + 1][..n] == ids[..n] && ids[..n + 1][n] == ids[n];
  }

  function EntryModels(entries: seq<PipelineModel>): seq<string> { seq(|entries|, i requires 0 <= i < |entries| => entries[i].modelId) }

  function ModelRuntimes(models: seq<Model>): seq<string> { seq(|models|, i requires 0 <= i < |models| => models[i].runtimeId) }

  lemma EntryIsUsed(entries: seq<PipelineModel>, e: PipelineModel)
    requires e in entries
    ensures e.modelId in EntryModels(entries)
  {
    var k :| 0 <= k < |entries| && entries[k] == e;
    assert EntryModels(entries)[k] == e.modelId;
  }

  lemma ModelIsUsed(models: seq<Model>, m: Model)
    requires m in models
    ensures m.runtimeId in ModelRuntimes(models)
  {
    var k :| 0 <= k < |models| && models[k] == m;
    assert ModelRuntimes(models)[k] == m.runtimeId;
  }

  /** The models the entries name, each once, in order of first use. */
  method ModelsOf(state: Graph, entries: seq<PipelineModel>) returns (r: Result<seq<Model>, ExportError>)
    ensures r.Ok? <==> forall e :: e in entries ==> FirstModel(state.models, e.modelId).Some?
    ensures r.Ok? ==> ModelIds(r.value) == Uses(EntryModels(entries)) && forall m :: m in r.value ==> FirstModel(state.models, m.id) == Some(m)
    ensures r.Err? ==> r.error.NotFound? && r.error.kind.ModelKind? && r.error.id in EntryModels(entries) && FirstModel(state.models, r.error.id).None?
  {
    hide Uses, FirstModel, Distinct;
    var models: seq<Model> := [];
    var seen: set<string> := {};
    var all := EntryModels(entries);
    UsesNone(all);
    for n := 0 to |entries|
      invariant forall id :: id in seen <==> id in all[..n]
      invariant ModelIds(models) == Uses(all[..n])
      invariant forall m :: m in models ==> FirstModel(state.models, m.id) == Some(m)
      invariant forall id :: id in seen ==> FirstModel(state.models, id).Some?
    {
      var id := entries[n].modelId;
      UsesNext(all, n);
      assert all[..n + 1] == all[..n] + [id];
      if id !in seen {
        var m := FirstModel(state.models, id);
        if m.None? {
          assert entries[n] in entries;
          return Err(NotFound(ModelKind, id));
        }
        seen := seen + {id};
        assert ModelIds(models + [m.value]) == ModelIds(models) + [id];
        models := models + [m.value];
      }
    }
    assert all[..|entries|] == all;
    forall e | e in entries ensures FirstModel(state.models, e.modelId).Some? { EntryIsUsed(entries, e); }
    r := Ok(models);
  }

  method RuntimesOf(state: Graph, models: seq<Model>) returns (r: Result<seq<Runtime>, ExportError>)
    ensures r.Ok? <==> forall m :: m in models ==> FirstRuntime(state.runtimes, m.runtimeId).Some?
    ensures r.Ok? ==> RuntimeIds(r.value) == Uses(ModelRuntimes(models)) && forall x :: x in r.value ==> FirstRuntime(state.runtimes, x.id) == Some(x)
    ensures r.Err? ==> r.error.NotFound? && r.error.kind.RuntimeKind? && r.error.id in ModelRuntimes(models)
                       && FirstRuntime(state.runtimes, r.error.id).None?
  {
    hide Uses, FirstRuntime, Distinct;
    var runtimes: seq<Runtime> := [];
    var seen: set<string> := {};
    var all := ModelRuntimes(models);
    UsesNone(all);
    for n := 0 to |models|
      invariant forall id :: id in seen <==> id in all[..n]
      invariant RuntimeIds(runtimes) == Uses(all[..n])
      invariant forall x :: x in runtimes ==> FirstRuntime(state.runtimes, x.id) == Some(x)
      invariant forall id :: id in seen ==> FirstRuntime(state.runtimes, id).Some?
    {
      var id := models[n].runtimeId;
      UsesNext(all, n);
      assert all[..n + 1] == all[..n] + [id];
      if id !in seen {
        var x := FirstRuntime(state.runtimes, id);
        if x.None? {
          assert models[n] in models;
          return Err(NotFound(RuntimeKind, id));
        }
        seen := seen + {id};
        assert RuntimeIds(runtimes + [x.value]) == RuntimeIds(runtimes) + [id];
        runtimes := runtimes + [x.value];
      }
    }
    assert all[..|models|] == all;
    forall m | m in models ensures FirstRuntime(state.runtimes, m.runtimeId).Some? { ModelIsUsed(models, m); }
    r := Ok(runtimes);
  }

  /** What the pipeline needs is there: a record for every model its entries name and for the runtime of each of them. */
  predicate Complete(state: Graph, p: Pipeline) {
    forall e :: e in p.models ==>
      var m := FirstModel(state.models, e.modelId); m.Some? && FirstRuntime(state.runtimes, m.value.runtimeId).Some?
  }

  /** The graph is the pipeline with the first record of everything it needs, in order of first use. */
  ghost predicate Carries(state: Graph, p: Pipeline, g: Graph) {
    && g.pipelines == [p] && ModelIds(g.models) == Uses(EntryModels(p.models)) && RuntimeIds(g.runtimes) == Uses(ModelRuntimes(g.models))
    && (forall m :: m in g.models ==> FirstModel(state.models, m.id) == Some(m))
    && (forall x :: x in g.runtimes ==> FirstRuntime(state.runtimes, x.id) == Some(x))
  }

  /** The model an entry names is carried. */
  lemma EntryIsCarried(state: Graph, p: Pipeline, models: seq<Model>, e: PipelineModel)
    requires ModelIds(models) == Uses(EntryModels(p.models)) && forall m :: m in models ==> FirstModel(state.models, m.id) == Some(m)
    requires e in p.models
    ensures FirstModel(state.models, e.modelId).Some? && FirstModel(state.models, e.modelId).value in models
  {
    hide Uses, FirstModel, Distinct;
    var k :| 0 <= k < |p.models| && p.models[k] == e;
    assert EntryModels(p.models)[k] == e.modelId && e.modelId in ModelIds(models);
    var j :| 0 <= j < |models| && ModelIds(models)[j] == e.modelId;
    assert models[j] in models;
  }

  /** A carried model is named by an entry. */
  lemma CarriedIsNamed(p: Pipeline, models: seq<Model>, m: Model) returns (e: PipelineModel)
    requires ModelIds(models) == Uses(EntryModels(p.models)) && m in models
    ensures e in p.models && e.modelId == m.id
  {
    hide Uses;
    var j :| 0 <= j < |models| && models[j] == m;
    assert ModelIds(models)[j] == m.id && m.id in EntryModels(p.models);
    var k :| 0 <= k < |p.models| && EntryModels(p.models)[k] == m.id;
    e := p.models[k];
  }

  lemma RuntimeIsCarried(g: Graph, m: Model)
    requires RuntimeIds(g.runtimes) == Uses(ModelRuntimes(g.models)) && m in g.models
    ensures m.runtimeId in RuntimeIds(g.runtimes)
  {
    hide Uses;
    var j :| 0 <= j < |g.models| && g.models[j] == m;
    assert ModelRuntimes(g.models)[j] == m.runtimeId;
  }

  lemma CarriedIsScoped(state: Graph, p: Pipeline, g: Graph)
    requires p in state.pipelines && Carries(state, p, g)
    ensures Scoped(state, g)
  {
    hide Uses, FirstModel, FirstRuntime, Distinct, ModelIds, RuntimeIds;
    forall m | m in g.models ensures m.runtimeId in RuntimeIds(g.runtimes) { RuntimeIsCarried(g, m); }
    forall e | e in p.models ensures e.modelId in ModelIds(g.models) {
      var k :| 0 <= k < |p.models| && p.models[k] == e;
      assert EntryModels(p.models)[k] == e.modelId;
    }
  }

  lemma EntryDangles(state: Graph, p: Pipeline, id: string)
    requires p in state.pipelines && id in EntryModels(p.models) && FirstModel(state.models, id).None?
    ensures !Closed(state) && !Complete(state, p)
  {
    hide FirstRuntime;
    var k :| 0 <= k < |p.models| && EntryModels(p.models)[k] == id;
    assert p.models[k] in p.models;
    assert id !in ModelIds(state.models);
  }

  lemma RuntimeDangles(state: Graph, p: Pipeline, models: seq<Model>, id: string)
    requires ModelIds(models) == Uses(EntryModels(p.models)) && forall m :: m in models ==> FirstModel(state.models, m.id) == Some(m)
    requires id in ModelRuntimes(models) && FirstRuntime(state.runtimes, id).None?
    ensures !Closed(state) && !Complete(state, p)
  {
    hide Uses;
    var k :| 0 <= k < |models| && ModelRuntimes(models)[k] == id;
    assert models[k] in models && models[k] in state.models;
    var e := CarriedIsNamed(p, models, models[k]);
    assert id !in RuntimeIds(state.runtimes);
  }

  /** The pipeline with its models and their runtimes. */
  method ExportPipeline(state: Graph, p: Pipeline) returns (r: Result<Graph, ExportError>)
    requires p in state.pipelines
    ensures r.Ok? <==> Complete(state, p)
    ensures r.Ok? ==> Carries(state, p, r.value) && Scoped(state, r.value)
    ensures r.Err? ==> r.error.NotFound? && !Closed(state)
  {
    hide Uses, FirstModel, FirstRuntime, Distinct, Scoped, Closed;
    var models := ModelsOf(state, p.models);
    if models.Err? {
      EntryDangles(state, p, models.error.id);
      return Err(models.error);
    }
    forall e | e in p.models ensures FirstModel(state.models, e.modelId).Some? && FirstModel(state.models, e.modelId).value in models.value {
      EntryIsCarried(state, p, models.value, e);
    }
    var runtimes := RuntimesOf(state, models.value);
    if runtimes.Err? {
      RuntimeDangles(state, p, models.value, runtimes.error.id);
      return Err(runtimes.error);
    }
    var g := Graph(runtimes.value, models.value, [p]);
    CarriedIsScoped(state, p, g);
    r := Ok(g);
  }

  /** The records of an export: everything, or one root with what it needs. It fails exactly when two roots are named, or when the root or
  something it needs is missing; it takes the first record of each id and orders by first use. */
  method ExportGraph(state: Graph, runtimeId: string, modelId: string, pipelineId: string) returns (r: Result<Graph, ExportError>)
    ensures r == Err(MultipleRoots) <==> (runtimeId != "" && modelId != "") || (runtimeId != "" && pipelineId != "") || (modelId != "" && pipelineId != "")
    ensures runtimeId == "" && modelId == "" && pipelineId == "" ==> r == Ok(state)
    ensures runtimeId != "" && modelId == "" && pipelineId == "" ==>
              var rt := FirstRuntime(state.runtimes, runtimeId);
              r == if rt.Some? then Ok(Graph([rt.value], [], [])) else Err(NotFound(RuntimeKind, runtimeId))
    ensures runtimeId == "" && modelId != "" && pipelineId == "" ==>
              var m := FirstModel(state.models, modelId);
              && (r.Ok? <==> m.Some? && FirstRuntime(state.runtimes, m.value.runtimeId).Some?)
              && (r.Ok? ==> r.value == Graph([FirstRuntime(state.runtimes, m.value.runtimeId).value], [m.value], []))
    ensures runtimeId == "" && modelId == "" && pipelineId != "" ==>
              var p := FirstPipeline(state.pipelines, pipelineId);
              && (r.Ok? <==> p.Some? && Complete(state, p.value))
              && (r.Ok? ==> Carries(state, p.value, r.value))
    ensures r.Ok? && (runtimeId != "" || modelId != "" || pipelineId != "") ==> Scoped(state, r.value)
    ensures Closed(state) && r.Err? && r.error.NotFound? ==>
              || r.error == NotFound(RuntimeKind, runtimeId) || r.error == NotFound(ModelKind, modelId) || r.error == NotFound(PipelineKind, pipelineId)
  {
    var roots := (if runtimeId != "" then 1 else 0) + (if modelId != "" then 1 else 0) + (if pipelineId != "" then 1 else 0);
    if roots > 1 { return Err(MultipleRoots); }
    if runtimeId != "" {
      var rt := FirstRuntime(state.runtimes, runtimeId);
      if rt.None? { return Err(NotFound(RuntimeKind, runtimeId)); }
      return Ok(Graph([rt.value], [], []));
    } else if modelId != "" {
      var m := FirstModel(state.models, modelId);
      if m.None? { return Err(NotFound(ModelKind, modelId)); }
      var rt := FirstRuntime(state.runtimes, m.value.runtimeId);
      if rt.None? { return Err(NotFound(RuntimeKind, m.value.runtimeId)); }
      assert RuntimeIds([rt.value])[0] == m.value.runtimeId;
      return Ok(Graph([rt.value], [m.value], []));
    } else if pipelineId != "" {
      var p := FirstPipeline(state.pipelines, pipelineId);
      if p.None? { return Err(NotFound(PipelineKind, pipelineId)); }
      r := ExportPipeline(state, p.value);
      return;
    }
    r := Ok(state);
  }
}
