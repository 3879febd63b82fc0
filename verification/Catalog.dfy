/** Repository records, their restorable projections and the records a restore writes. */
module Catalog {

  datatype Runtime = Runtime(id: string, name: string, executable: string, workingDirectory: string,
                             environment: map<string, string>, createdAt: int, updatedAt: int)

  datatype Model = Model(id: string, name: string, runtimeId: string, args: seq<string>, environment: map<string, string>,
                         active: bool, autostartDelay: int, createdAt: int, updatedAt: int)

  datatype PipelineModel = PipelineModel(id: string, modelId: string, args: seq<string>, autoStart: bool)

  datatype Pipeline = Pipeline(id: string, name: string, active: bool, models: seq<PipelineModel>, createdAt: int, updatedAt: int)

  /** The graph a repository holds, or the graph a bundle brings. */
  datatype Graph = Graph(runtimes: seq<Runtime>, models: seq<Model>, pipelines: seq<Pipeline>)

  function RuntimeIds(runtimes: seq<Runtime>): seq<string> { seq(|runtimes|, i requires 0 <= i < |runtimes| => runtimes[i].id) }

  function ModelIds(models: seq<Model>): seq<string> { seq(|models|, i requires 0 <= i < |models| => models[i].id) }

  function PipelineIds(pipelines: seq<Pipeline>): seq<string> { seq(|pipelines|, i requires 0 <= i < |pipelines| => pipelines[i].id) }

  predicate Distinct(ids: seq<string>) { forall i, j :: 0 <= i < j < |ids| ==> ids[i] != ids[j] }

  predicate DistinctIds(g: Graph) {
    Distinct(RuntimeIds(g.runtimes)) && Distinct(ModelIds(g.models)) && Distinct(PipelineIds(g.pipelines))
  }

  /** The last position of an id, which is the one a map filled in list order keeps; -1 when it is absent. */
  function LastIndex(ids: seq<string>, id: string): (k: int)
    ensures -1 <= k < |ids|
    ensures k >= 0 ==> ids[k] == id && forall j :: k < j < |ids| ==> ids[j] != id
    ensures k < 0 ==> id !in ids
  {
    if ids == [] then -1
    else if ids[|ids| - 1] == id then |ids| - 1
    else LastIndex(ids[..|ids| - 1], id)
  }

  lemma LastIndexIs(ids: seq<string>, id: string, k: nat)
    requires k < |ids| && ids[k] == id && forall j :: k < j < |ids| ==> ids[j] != id
    ensures LastIndex(ids, id) == k
  {
  }

  /* ---- restorable projections ---- */

  predicate RuntimeEqual(bundle: Runtime, local: Runtime) {
    bundle.name == local.name && bundle.executable == local.executable && bundle.workingDirectory == local.workingDirectory
  }

  predicate ModelEqual(bundle: Model, local: Model) {
    && bundle.name == local.name && bundle.runtimeId == local.runtimeId && bundle.args == local.args
    && bundle.active == local.active && bundle.autostartDelay == local.autostartDelay
  }

  /** Entry ids are excluded. */
  predicate EntryEqual(bundle: PipelineModel, local: PipelineModel) {
    bundle.modelId == local.modelId && bundle.args == local.args && bundle.autoStart == local.autoStart
  }

  predicate PipelineEqual(bundle: Pipeline, local: Pipeline) {
    && bundle.name == local.name && bundle.active == local.active
    && |bundle.models| == |local.models|
    && forall i :: 0 <= i < |bundle.models| ==> EntryEqual(bundle.models[i], local.models[i])
  }

  /* ---- what a restore writes ---- */

  function RestoredRuntime(local: Runtime, bundle: Runtime): (out: Runtime)
    ensures RuntimeEqual(bundle, out)
    ensures out.id == local.id && out.environment == local.environment && out.createdAt == local.createdAt
  {
    local.(name := bundle.name, executable := bundle.executable, workingDirectory := bundle.workingDirectory)
  }

  function RestoredModel(local: Model, bundle: Model): (out: Model)
    ensures ModelEqual(bundle, out)
    ensures out.id == local.id && out.environment == local.environment && out.createdAt == local.createdAt
  {
    local.(name := bundle.name, runtimeId := bundle.runtimeId, args := bundle.args, active := bundle.active,
           autostartDelay := bundle.autostartDelay)
  }

  /** The entry list of the bundle, entry ids included. */
  function RestoredPipeline(local: Pipeline, bundle: Pipeline): (out: Pipeline)
    ensures PipelineEqual(bundle, out)
    ensures out.id == local.id && out.createdAt == local.createdAt && out.models == bundle.models
  {
    local.(name := bundle.name, active := bundle.active, models := bundle.models)
  }
}
