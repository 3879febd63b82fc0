/** What an export carries and what importing it back decides. */
module PortableLaws {
  import opened Catalog
  import opened ImportRules
  import opened ImportApply
  import opened ImportLaws
  import opened Repository
  import opened Portable
  import opened PortableExport
  import opened PortableImport

  const EMPTY: Graph := Graph([], [], [])

  /* ---- an export and its own repository ---- */

  lemma ExportIds(g: Graph, now: int)
    ensures var c := Converted(BundleOf(g), now);
            RuntimeIds(c.runtimes) == RuntimeIds(g.runtimes) && ModelIds(c.models) == ModelIds(g.models) && PipelineIds(c.pipelines) == PipelineIds(g.pipelines)
  {
  }

  lemma ExportedRuntime(g: Graph, now: int, i: nat)
    requires i < |g.runtimes|
    ensures var r := Converted(BundleOf(g), now).runtimes[i]; r.id == g.runtimes[i].id && RuntimeEqual(r, g.runtimes[i])
  {
  }

  lemma ExportedModel(g: Graph, now: int, i: nat)
    requires i < |g.models|
    ensures var m := Converted(BundleOf(g), now).models[i]; m.id == g.models[i].id && ModelEqual(m, g.models[i])
  {
  }

  lemma ExportedPipeline(g: Graph, now: int, i: nat)
    requires i < |g.pipelines|
    ensures var p := Converted(BundleOf(g), now).pipelines[i]; p.id == g.pipelines[i].id && PipelineEqual(p, g.pipelines[i])
    ensures Converted(BundleOf(g), now).pipelines[i].models == g.pipelines[i].models
  {
  }

  lemma OnlyIndex(ids: seq<string>, i: nat)
    requires Distinct(ids) && i < |ids|
    ensures LastIndex(ids, ids[i]) == i
  {
    LastIndexIs(ids, ids[i], i);
  }

  /* A record of a part is a record of the whole. */

  lemma RuntimePlace(g: Graph, part: Graph, i: nat) returns (k: nat)
    requires Within(g, part) && i < |part.runtimes|
    ensures k < |g.runtimes| && g.runtimes[k] == part.runtimes[i]
  {
    assert part.runtimes[i] in part.runtimes && part.runtimes[i] in g.runtimes;
    k :| k < |g.runtimes| && g.runtimes[k] == part.runtimes[i];
  }

  lemma ModelPlace(g: Graph, part: Graph, i: nat) returns (k: nat)
    requires Within(g, part) && i < |part.models|
    ensures k < |g.models| && g.models[k] == part.models[i]
  {
    assert part.models[i] in part.models && part.models[i] in g.models;
    k :| k < |g.models| && g.models[k] == part.models[i];
  }

  lemma PipelinePlace(g: Graph, part: Graph, i: nat) returns (k: nat)
    requires Within(g, part) && i < |part.pipelines|
    ensures k < |g.pipelines| && g.pipelines[k] == part.pipelines[i]
  {
    assert part.pipelines[i] in part.pipelines && part.pipelines[i] in g.pipelines;
    k :| k < |g.pipelines| && g.pipelines[k] == part.pipelines[i];
  }

  /** Whatever is exported from a repository, importing it back changes nothing. */
  lemma ExportOfPartIsUnchanged(lower: string -> string, g: Graph, part: Graph, now: int)
    requires DistinctIds(g) && Within(g, part)
    ensures WritesNothing(Import(lower, g, Converted(BundleOf(part), now)))
  {
    var job := Import(lower, g, Converted(BundleOf(part), now));
    ExportIds(part, now);
    IdCounts(part, job.bundle);
    hide Converted, BundleOf, Distinct, RuntimeEqual, ModelEqual, PipelineEqual, RuntimeIds, ModelIds, PipelineIds, WritesNothing;
    forall i: nat | i < |job.bundle.runtimes|
      ensures var k := job.RuntimeAt(job.bundle.runtimes[i].id); k >= 0 && RuntimeEqual(job.bundle.runtimes[i], g.runtimes[k])
    {
      ExportedRuntime(part, now, i);
      var k := RuntimePlace(g, part, i);
      RuntimeIdAt(g.runtimes, k);
      OnlyIndex(RuntimeIds(g.runtimes), k);
    }
    forall i: nat | i < |job.bundle.models|
      ensures var k := job.ModelAt(job.bundle.models[i].id); k >= 0 && ModelEqual(job.bundle.models[i], g.models[k])
    {
      ExportedModel(part, now, i);
      var k := ModelPlace(g, part, i);
      ModelIdAt(g.models, k);
      OnlyIndex(ModelIds(g.models), k);
    }
    forall i: nat | i < |job.bundle.pipelines|
      ensures var k := job.PipelineAt(job.bundle.pipelines[i].id); k >= 0 && PipelineEqual(job.bundle.pipelines[i], g.pipelines[k])
    {
      ExportedPipeline(part, now, i);
      var k := PipelinePlace(g, part, i);
      PipelineIdAt(g.pipelines, k);
      OnlyIndex(PipelineIds(g.pipelines), k);
    }
    HeldIsUnchanged(job);
  }

  /** An export of everything, imported into its own repository, changes nothing. */
  lemma ExportOfSelfIsUnchanged(lower: string -> string, g: Graph, now: int)
    requires DistinctIds(g)
    ensures WritesNothing(Import(lower, g, Converted(BundleOf(g), now)))
  {
    ExportOfPartIsUnchanged(lower, g, g, now);
  }

  lemma IdCounts(g: Graph, h: Graph)
    requires RuntimeIds(g.runtimes) == RuntimeIds(h.runtimes) && ModelIds(g.models) == ModelIds(h.models) && PipelineIds(g.pipelines) == PipelineIds(h.pipelines)
    ensures |g.runtimes| == |h.runtimes| && |g.models| == |h.models| && |g.pipelines| == |h.pipelines|
  {
    assert |RuntimeIds(g.runtimes)| == |g.runtimes| && |ModelIds(g.models)| == |g.models| && |PipelineIds(g.pipelines)| == |g.pipelines|;
  }

  /* ---- a scoped export of an accepted repository ---- */

  lemma PartNamesAreDistinct(lower: string -> string, g: Graph, part: Graph)
    requires Distinct(FoldedNames(lower, BundleOf(g))) && Distinct(RuntimeIds(part.runtimes)) && Within(g, part)
    ensures Distinct(FoldedNames(lower, BundleOf(part)))
  {
    var names, mine := FoldedNames(lower, BundleOf(g)), FoldedNames(lower, BundleOf(part));
    forall i: nat, j: nat | i < j < |mine| ensures mine[i] != mine[j] {
      var p := RuntimePlace(g, part, i);
      var q := RuntimePlace(g, part, j);
      assert RuntimeIds(part.runtimes)[i] != RuntimeIds(part.runtimes)[j];
      assert names[p] == mine[i] && names[q] == mine[j];
    }
  }

  lemma PartRecords(lower: string -> string, g: Graph, part: Graph)
    requires WellFormed(lower, BundleOf(g)) && Scoped(g, part)
    ensures forall i :: 0 <= i < |part.runtimes| ==> RuntimeOk(BundleOf(part).runtimes[i])
    ensures forall i :: 0 <= i < |part.models| ==> ModelOk(BundleOf(part), BundleOf(part).models[i])
    ensures forall i :: 0 <= i < |part.pipelines| ==> PipelineOk(BundleOf(part), BundleOf(part).pipelines[i])
  {
    hide Distinct, RuntimeOk, ArgsOk, FoldedNames;
    PartIds(part);
    forall i: nat | i < |part.runtimes| ensures RuntimeOk(BundleOf(part).runtimes[i]) {
      var k := RuntimePlace(g, part, i);
      assert BundleOf(part).runtimes[i] == BundleOf(g).runtimes[k];
    }
    forall i: nat | i < |part.models| ensures ModelOk(BundleOf(part), BundleOf(part).models[i]) {
      var k := ModelPlace(g, part, i);
      assert BundleOf(part).models[i] == BundleOf(g).models[k] && ModelOk(BundleOf(g), BundleOf(g).models[k]);
      assert part.models[i] in part.models;
    }
    forall i: nat | i < |part.pipelines| ensures PipelineOk(BundleOf(part), BundleOf(part).pipelines[i]) {
      var k := PipelinePlace(g, part, i);
      var p := BundleOf(part).pipelines[i];
      assert p == BundleOf(g).pipelines[k] && PipelineOk(BundleOf(g), p);
      forall j | 0 <= j < |p.models| ensures EntryOk(BundleOf(part), p.models[j]) {
        assert EntryOk(BundleOf(g), p.models[j]);
        assert part.pipelines[i] in part.pipelines && part.pipelines[i].models[j] in part.pipelines[i].models;
      }
    }
  }

  lemma PartIds(part: Graph)
    ensures RuntimeKeys(BundleOf(part)) == RuntimeIds(part.runtimes) && ModelKeys(BundleOf(part)) == ModelIds(part.models)
    ensures PipelineKeys(BundleOf(part)) == PipelineIds(part.pipelines)
  {
  }

  lemma PartIdsAreNamed(g: Graph, part: Graph)
    requires Within(g, part)
    ensures "" in RuntimeIds(part.runtimes) ==> "" in RuntimeIds(g.runtimes)
    ensures "" in ModelIds(part.models) ==> "" in ModelIds(g.models)
    ensures "" in PipelineIds(part.pipelines) ==> "" in PipelineIds(g.pipelines)
  {
    if i :| 0 <= i < |part.runtimes| && part.runtimes[i].id == "" {
      var k := RuntimePlace(g, part, i);
      assert RuntimeIds(g.runtimes)[k] == "";
    }
    if i :| 0 <= i < |part.models| && part.models[i].id == "" {
      var k := ModelPlace(g, part, i);
      assert ModelIds(g.models)[k] == "";
    }
    if i :| 0 <= i < |part.pipelines| && part.pipelines[i].id == "" {
      var k := PipelinePlace(g, part, i);
      assert PipelineIds(g.pipelines)[k] == "";
    }
  }

  /** A scoped export of a repository whose full export is accepted is itself accepted, and importing it back changes nothing. */
  lemma ScopedExportIsAccepted(lower: string -> string, g: Graph, part: Graph, now: int)
    requires WellFormed(lower, BundleOf(g)) && Scoped(g, part)
    ensures WellFormed(lower, BundleOf(part))
    ensures WritesNothing(Import(lower, g, Converted(BundleOf(part), now)))
  {
    hide RuntimeOk, ModelOk, PipelineOk, Distinct, Closed, Within, RuntimeIds, ModelIds, PipelineIds, RuntimeKeys, ModelKeys, PipelineKeys, FoldedNames,
         WritesNothing;
    PartIds(g);
    PartIds(part);
    PartIdsAreNamed(g, part);
    PartNamesAreDistinct(lower, g, part);
    PartRecords(lower, g, part);
    OnePipeline(part.pipelines);
    ExportOfPartIsUnchanged(lower, g, part, now);
  }

  lemma OnePipeline(ps: seq<Pipeline>)
    requires |ps| <= 1
    ensures Distinct(PipelineIds(ps))
  {
  }

  /* ---- an export and an empty repository ---- */

  /** Folded runtime names are unique, references resolve inside the graph, and no pipeline is empty. */
  ghost predicate SelfContained(lower: string -> string, g: Graph) {
    && (forall i, j :: 0 <= i < |g.runtimes| && 0 <= j < |g.runtimes| && lower(g.runtimes[i].name) == lower(g.runtimes[j].name) ==> i == j)
    && (forall i :: 0 <= i < |g.models| ==> g.models[i].runtimeId in RuntimeIds(g.runtimes))
    && (forall i :: 0 <= i < |g.pipelines| ==> Launchable(g, g.pipelines[i].models))
  }

  ghost predicate Launchable(g: Graph, entries: seq<PipelineModel>) {
    entries != [] && forall k :: 0 <= k < |entries| ==> entries[k].modelId in ModelIds(g.models)
  }

  ghost predicate AllNew(job: Import) { forall i :: 0 <= i < job.Size() ==> job.Verdicts()[i].status.New? }

  lemma NewInEmpty(job: Import)
    requires job.state == EMPTY
    ensures forall id :: job.RuntimeAt(id) < 0 && job.ModelAt(id) < 0 && job.PipelineAt(id) < 0
  {
  }

  /** In an empty repository a runtime of a distinct-id bundle is new exactly when nobody else in the bundle claims its name. */
  lemma RuntimeIsNew(job: Import, i: nat)
    requires job.state == EMPTY && Distinct(RuntimeIds(job.bundle.runtimes)) && i < |job.bundle.runtimes|
    ensures job.RuntimeVerdict(i).status.New? <==>
              forall j :: 0 <= j < |job.bundle.runtimes| && job.lower(job.bundle.runtimes[j].name) == job.lower(job.bundle.runtimes[i].name) ==> j == i
  {
    NewInEmpty(job);
    var rs, key := job.bundle.runtimes, job.lower(job.bundle.runtimes[i].name);
    forall j | 0 <= j < |rs| ensures job.RuntimeWrites(j) && (job.lower(rs[j].name) == key ==> job.Holds(key, rs[j].id)) && (rs[j].id == rs[i].id ==> j == i) {
      RuntimeFirstOfItsId(job, j);
      if rs[j].id == rs[i].id { RuntimeUnique(rs, i, j); }
    }
    hide Distinct, RuntimeIds, LastIndex;
    var others := job.Holders(key) - {rs[i].id};
    if j :| 0 <= j < |rs| && job.lower(rs[j].name) == key && j != i { assert rs[j].id in others; }
    if others != {} {
      var id :| id in others;
      assert job.Holds(key, id);
    }
  }

  lemma ModelIsNew(job: Import, i: nat)
    requires job.state == EMPTY && Distinct(ModelIds(job.bundle.models)) && i < |job.bundle.models|
    ensures job.ModelVerdict(i).status.New? <==> job.RuntimeResolves(job.bundle.models[i].runtimeId)
  {
    NewInEmpty(job);
    ModelFirstOfItsId(job, i);
    hide Distinct, ModelIds, LastIndex, Import.RuntimeResolves, Import.RuntimeBlocked;
  }

  lemma PipelineIsNew(job: Import, i: nat)
    requires job.state == EMPTY && i < |job.bundle.pipelines|
    ensures job.PipelineVerdict(i).status.New? <==>
              job.bundle.pipelines[i].models != []
              && forall k :: 0 <= k < |job.bundle.pipelines[i].models| ==> job.ModelResolves(job.bundle.pipelines[i].models[k].modelId)
  {
    NewInEmpty(job);
    hide LastIndex, Import.ModelResolves, Import.ModelBlocked;
  }

  lemma AllNewByKind(job: Import)
    ensures AllNew(job) <==>
              && (forall i :: 0 <= i < |job.bundle.runtimes| ==> job.RuntimeVerdict(i).status.New?)
              && (forall i :: 0 <= i < |job.bundle.models| ==> job.ModelVerdict(i).status.New?)
              && (forall i :: 0 <= i < |job.bundle.pipelines| ==> job.PipelineVerdict(i).status.New?)
  {
    hide Import.Verdicts, Import.RuntimeVerdict, Import.ModelVerdict, Import.PipelineVerdict;
    var n, m := |job.bundle.runtimes|, |job.bundle.models|;
    forall i | 0 <= i < n ensures job.Verdicts()[i] == job.RuntimeVerdict(i) { job.VerdictAt(i); }
    forall i | 0 <= i < m ensures job.Verdicts()[n + i] == job.ModelVerdict(i) { job.VerdictAt(n + i); }
    forall i | 0 <= i < |job.bundle.pipelines| ensures job.Verdicts()[n + m + i] == job.PipelineVerdict(i) { job.VerdictAt(n + m + i); }
    forall i | 0 <= i < job.Size()
      ensures job.Verdicts()[i] == if i < n then job.RuntimeVerdict(i) else if i < n + m then job.ModelVerdict(i - n) else job.PipelineVerdict(i - n - m)
    {
      job.VerdictAt(i);
    }
  }

  lemma RuntimesResolveInEmpty(job: Import, id: string)
    requires job.state == EMPTY && forall i :: 0 <= i < |job.bundle.runtimes| ==> job.RuntimeVerdict(i).status.New?
    ensures job.RuntimeResolves(id) <==> id in RuntimeIds(job.bundle.runtimes)
  {
    NewInEmpty(job);
    hide Import.RuntimeVerdict, LastIndex;
    if id in RuntimeIds(job.bundle.runtimes) {
      var i :| 0 <= i < |job.bundle.runtimes| && RuntimeIds(job.bundle.runtimes)[i] == id;
      assert job.bundle.runtimes[i].id == id;
    }
    if i :| 0 <= i < |job.bundle.runtimes| && job.bundle.runtimes[i].id == id { RuntimeIdAt(job.bundle.runtimes, i); }
  }

  lemma ModelsResolveInEmpty(job: Import, id: string)
    requires job.state == EMPTY && forall i :: 0 <= i < |job.bundle.models| ==> job.ModelVerdict(i).status.New?
    ensures job.ModelResolves(id) <==> id in ModelIds(job.bundle.models)
  {
    NewInEmpty(job);
    hide Import.ModelVerdict, LastIndex;
    if id in ModelIds(job.bundle.models) {
      var i :| 0 <= i < |job.bundle.models| && ModelIds(job.bundle.models)[i] == id;
      assert job.bundle.models[i].id == id;
    }
    if i :| 0 <= i < |job.bundle.models| && job.bundle.models[i].id == id { ModelIdAt(job.bundle.models, i); }
  }

  /** In an empty repository a bundle with distinct ids is all new exactly when its own graph is self-contained. */
  lemma AllNewInEmpty(job: Import)
    requires job.state == EMPTY && DistinctIds(job.bundle)
    ensures AllNew(job) <==> SelfContained(job.lower, job.bundle)
  {
    AllNewByKind(job);
    hide AllNew, Import.RuntimeVerdict, Import.ModelVerdict, Import.PipelineVerdict, Import.RuntimeResolves, Import.ModelResolves, Distinct, RuntimeIds, ModelIds,
         PipelineIds;
    var b := job.bundle;
    forall i | 0 <= i < |b.runtimes|
      ensures job.RuntimeVerdict(i).status.New? <==>
                forall j :: 0 <= j < |b.runtimes| && job.lower(b.runtimes[j].name) == job.lower(b.runtimes[i].name) ==> j == i
    {
      RuntimeIsNew(job, i);
    }
    if forall i :: 0 <= i < |b.runtimes| ==> job.RuntimeVerdict(i).status.New? {
      forall i | 0 <= i < |b.models| ensures job.ModelVerdict(i).status.New? <==> b.models[i].runtimeId in RuntimeIds(b.runtimes) {
        ModelIsNew(job, i);
        RuntimesResolveInEmpty(job, b.models[i].runtimeId);
      }
      if forall i :: 0 <= i < |b.models| ==> job.ModelVerdict(i).status.New? {
        forall i | 0 <= i < |b.pipelines| ensures job.PipelineVerdict(i).status.New? <==> Launchable(b, b.pipelines[i].models) {
          PipelineIsNew(job, i);
          forall id ensures job.ModelResolves(id) <==> id in ModelIds(b.models) { ModelsResolveInEmpty(job, id); }
        }
      }
    }
  }

  lemma ExportIsSelfContained(lower: string -> string, g: Graph, now: int)
    ensures SelfContained(lower, Converted(BundleOf(g), now)) <==> SelfContained(lower, g)
  {
    var c := Converted(BundleOf(g), now);
    ExportIds(g, now);
    forall i | 0 <= i < |g.pipelines| ensures c.pipelines[i].models == g.pipelines[i].models { ExportedPipeline(g, now, i); }
    forall i | 0 <= i < |g.models| ensures c.models[i].runtimeId == g.models[i].runtimeId { }
    forall i | 0 <= i < |g.runtimes| ensures c.runtimes[i].name == g.runtimes[i].name { }
    hide Converted, BundleOf, RuntimeIds, ModelIds, PipelineIds;
    assert |c.runtimes| == |g.runtimes| && |c.models| == |g.models| && |c.pipelines| == |g.pipelines| by { IdCounts(g, c); }
  }

  /** An export of everything, imported into an empty repository, is all new exactly when the exported graph has unique
  folded runtime names, resolving references and no empty pipeline. */
  lemma ExportIntoEmptyIsNew(lower: string -> string, g: Graph, now: int)
    requires DistinctIds(g)
    ensures AllNew(Import(lower, EMPTY, Converted(BundleOf(g), now))) <==> SelfContained(lower, g)
  {
    ExportIds(g, now);
    ExportIsSelfContained(lower, g, now);
    hide SelfContained, AllNew, Converted, BundleOf, Distinct, RuntimeIds, ModelIds, PipelineIds;
    AllNewInEmpty(Import(lower, EMPTY, Converted(BundleOf(g), now)));
  }

  lemma {:induction false} SelectAll<T>(items: seq<T>, verdicts: seq<Classification>, n: nat, status: Status)
    requires n <= |items| == |verdicts| && forall i :: 0 <= i < n ==> verdicts[i].status == status
    ensures Select(items, verdicts, n, status) == items[..n]
  {
    if n > 0 { SelectAll(items, verdicts, n - 1, status); }
  }

  /** Then the new repository holds the exported records in order, each with the exported projection. */
  lemma ExportIntoEmptyRestores(lower: string -> string, g: Graph, now: int, later: int, after: Graph)
    requires DistinctIds(g) && SelfContained(lower, g) && Applied(Import(lower, EMPTY, Converted(BundleOf(g), now)), later, after)
    ensures |after.runtimes| == |g.runtimes|
    ensures forall i :: 0 <= i < |g.runtimes| ==>
              after.runtimes[i].id == g.runtimes[i].id && RuntimeEqual(g.runtimes[i], after.runtimes[i])
    ensures |after.models| == |g.models|
    ensures forall i :: 0 <= i < |g.models| ==>
              after.models[i].id == g.models[i].id && ModelEqual(g.models[i], after.models[i])
    ensures |after.pipelines| == |g.pipelines|
    ensures forall i :: 0 <= i < |g.pipelines| ==>
              after.pipelines[i].id == g.pipelines[i].id && PipelineEqual(g.pipelines[i], after.pipelines[i])
  {
    hide SelfContained, AllNew, Distinct, Converted, BundleOf, RuntimesAfter, ModelsAfter, PipelinesAfter, RuntimeEqual, ModelEqual, PipelineEqual,
         CreatedRuntimes, CreatedModels, CreatedPipelines, RuntimeIds, ModelIds, PipelineIds;
    var job := Import(lower, EMPTY, Converted(BundleOf(g), now));
    ExportIntoEmptyIsNew(lower, g, now);
    EverythingIsCreated(job);
    RestoredRuntimes(job, g, now, later);
    RestoredModels(job, g, now, later);
    RestoredPipelines(job, g, now, later, after.pipelines);
  }

  lemma EverythingIsCreated(job: Import)
    requires AllNew(job)
    ensures CreatedRuntimes(job) == job.bundle.runtimes && CreatedModels(job) == job.bundle.models && CreatedPipelines(job) == job.bundle.pipelines
  {
    AllNewByKind(job);
    hide Import.RuntimeVerdict, Import.ModelVerdict, Import.PipelineVerdict, Import.Verdicts, AllNew;
    SelectAll(job.bundle.runtimes, job.RuntimeVerdicts(), |job.bundle.runtimes|, New);
    SelectAll(job.bundle.models, job.ModelVerdicts(), |job.bundle.models|, New);
    SelectAll(job.bundle.pipelines, job.PipelineVerdicts(), |job.bundle.pipelines|, New);
  }

  lemma RestoredRuntimes(job: Import, g: Graph, now: int, later: int)
    requires job.state == EMPTY && job.bundle == Converted(BundleOf(g), now) && CreatedRuntimes(job) == job.bundle.runtimes
    ensures var rs := RuntimesAfter(job, later);
            |rs| == |g.runtimes| && forall i :: 0 <= i < |g.runtimes| ==> rs[i].id == g.runtimes[i].id && RuntimeEqual(g.runtimes[i], rs[i])
  {
    hide CreatedRuntimes, UpdatedRuntimes;
    var rs := RuntimesAfter(job, later);
    forall i | 0 <= i < |g.runtimes| ensures rs[i].id == g.runtimes[i].id && RuntimeEqual(g.runtimes[i], rs[i]) { ExportedRuntime(g, now, i); }
  }

  lemma RestoredModels(job: Import, g: Graph, now: int, later: int)
    requires job.state == EMPTY && job.bundle == Converted(BundleOf(g), now) && CreatedModels(job) == job.bundle.models
    ensures var ms := ModelsAfter(job, later);
            |ms| == |g.models| && forall i :: 0 <= i < |g.models| ==> ms[i].id == g.models[i].id && ModelEqual(g.models[i], ms[i])
  {
    hide CreatedModels, UpdatedModels;
    var ms := ModelsAfter(job, later);
    forall i | 0 <= i < |g.models| ensures ms[i].id == g.models[i].id && ModelEqual(g.models[i], ms[i]) { ExportedModel(g, now, i); }
  }

  lemma RestoredPipelines(job: Import, g: Graph, now: int, later: int, after: seq<Pipeline>)
    requires job.state == EMPTY && job.bundle == Converted(BundleOf(g), now) && CreatedPipelines(job) == job.bundle.pipelines
    requires PipelinesAfter(job, later, after)
    ensures |after| == |g.pipelines| && forall i :: 0 <= i < |g.pipelines| ==> after[i].id == g.pipelines[i].id && PipelineEqual(g.pipelines[i], after[i])
  {
    hide CreatedPipelines, UpdatedPipelines;
    var updates, creates :|
      && AllFilled(UpdatedPipelines(job), updates, later, false) && AllFilled(CreatedPipelines(job), creates, later, true)
      && after == Composed(job.state.pipelines, PipelineIds(job.state.pipelines), updates, PipelineIds(updates), creates);
    forall i | 0 <= i < |g.pipelines| ensures after[i].id == g.pipelines[i].id && PipelineEqual(g.pipelines[i], after[i]) {
      ExportedPipeline(g, now, i);
      assert after[i] == creates[i] && Filled(job.bundle.pipelines[i], creates[i], later, true);
      assert PipelineEqual(g.pipelines[i], job.bundle.pipelines[i]);
      FilledKeepsProjection(g.pipelines[i], job.bundle.pipelines[i], creates[i], later, true);
    }
  }
}
