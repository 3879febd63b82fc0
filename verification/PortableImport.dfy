/** The import call: validation, dry run and apply; why a validated bundle can be blocked; and why a second import writes
nothing. */
module PortableImport {
  import opened Wrappers
  import opened Catalog
  import opened ImportRules
  import opened ImportPlanner
  import opened ImportApply
  import opened ImportLaws
  import opened Repository
  import opened Portable

  /* ---- the root causes of a block ---- */

  lemma ConvertedIds(b: Bundle, now: int)
    ensures RuntimeIds(Converted(b, now).runtimes) == RuntimeKeys(b) && ModelIds(Converted(b, now).models) == ModelKeys(b)
    ensures PipelineIds(Converted(b, now).pipelines) == PipelineKeys(b)
  {
  }

  lemma WellFormedIsDistinct(lower: string -> string, b: Bundle, now: int)
    requires WellFormed(lower, b)
    ensures DistinctIds(Converted(b, now))
  {
    ConvertedIds(b, now);
  }

  /** A bundle runtime that the resulting graph does not hold is blocked by its name. */
  lemma MissingRuntimeIsBlocked(job: Import, id: string)
    requires Distinct(RuntimeIds(job.bundle.runtimes)) && id in RuntimeIds(job.bundle.runtimes) && !job.RuntimeResolves(id)
    ensures job.RuntimeBlocked(id)
    ensures exists j :: 0 <= j < |job.bundle.runtimes| && job.bundle.runtimes[j].id == id && job.RuntimeVerdict(j).reason.NameTaken?
  {
    var j := LastIndex(RuntimeIds(job.bundle.runtimes), id);
    RuntimeIdAt(job.bundle.runtimes, j);
    RuntimeVerdictMeans(job, j);
    assert !job.RuntimeVerdict(j).status.New?;
  }

  lemma MissingModelIsBlocked(job: Import, id: string)
    requires Distinct(ModelIds(job.bundle.models)) && id in ModelIds(job.bundle.models) && !job.ModelResolves(id)
    ensures job.ModelBlocked(id)
    ensures exists j :: 0 <= j < |job.bundle.models| && job.bundle.models[j].id == id && job.ModelVerdict(j).status.Blocked?
  {
    var j := LastIndex(ModelIds(job.bundle.models), id);
    ModelIdAt(job.bundle.models, j);
    ModelVerdictMeans(job, j);
    assert !job.ModelVerdict(j).status.New?;
  }

  ghost predicate NameBlocked(job: Import, id: string) {
    exists j :: 0 <= j < |job.bundle.runtimes| && job.bundle.runtimes[j].id == id && job.RuntimeVerdict(j).reason.NameTaken?
  }

  /** A blocked model of a validated bundle depends on a runtime of the bundle whose name is taken. */
  lemma BlockedModelHasCause(lower: string -> string, state: Graph, b: Bundle, now: int, i: nat)
    requires WellFormed(lower, b) && i < |b.models|
    ensures var job := Import(lower, state, Converted(b, now));
            job.ModelVerdict(i).status.Blocked? ==>
              job.ModelVerdict(i).reason.DependencyBlocked? && job.ModelVerdict(i).relatedId == b.models[i].runtimeId && NameBlocked(job, b.models[i].runtimeId)
  {
    var job := Import(lower, state, Converted(b, now));
    ConvertedIds(b, now);
    assert ModelOk(b, b.models[i]);
    if job.ModelVerdict(i).status.Blocked? { MissingRuntimeIsBlocked(job, b.models[i].runtimeId); }
    hide Import.RuntimeResolves, Import.RuntimeBlocked, Import.ModelClaimed, LastIndex, RuntimeKeys, ModelKeys;
  }

  ghost predicate ModelIsBlocked(job: Import, id: string) {
    exists j :: 0 <= j < |job.bundle.models| && job.bundle.models[j].id == id && job.ModelVerdict(j).status.Blocked?
  }

  lemma DanglingModelIsBlocked(lower: string -> string, state: Graph, b: Bundle, now: int, i: nat)
    requires WellFormed(lower, b) && i < |b.pipelines|
    ensures var job := Import(lower, state, Converted(b, now)); var d := job.FirstDangling(job.bundle.pipelines[i].models);
            d.Some? ==> job.ModelBlocked(d.value) && ModelIsBlocked(job, d.value)
  {
    var job := Import(lower, state, Converted(b, now));
    ConvertedIds(b, now);
    var p := job.bundle.pipelines[i];
    var d := job.FirstDangling(p.models);
    if d.Some? {
      var k :| 0 <= k < |p.models| && p.models[k].modelId == d.value;
      assert PipelineOk(b, b.pipelines[i]) && EntryOk(b, b.pipelines[i].models[k]);
      hide PipelineOk, WellFormed, Import.FirstDangling, Import.ModelVerdict, Import.ModelResolves, LastIndex;
      MissingModelIsBlocked(job, d.value);
    }
  }

  /** A blocked pipeline of a validated bundle is empty, or has an entry whose model is blocked. */
  lemma BlockedPipelineHasCause(lower: string -> string, state: Graph, b: Bundle, now: int, i: nat)
    requires WellFormed(lower, b) && i < |b.pipelines|
    ensures var job := Import(lower, state, Converted(b, now)); var c := job.PipelineVerdict(i);
            c.status.Blocked? ==>
              (b.pipelines[i].models == [] && c.reason.EntriesEmpty?) || (c.reason.DependencyBlocked? && ModelIsBlocked(job, c.relatedId))
  {
    DanglingModelIsBlocked(lower, state, b, now, i);
    hide Import.ModelResolves, Import.ModelVerdict, Import.ModelBlocked, Import.FirstDangling, PipelineEqual, LastIndex, WellFormed, ModelIsBlocked;
  }

  /** A validated bundle is blocked exactly when some runtime's name is taken or some pipeline to be written is empty. */
  lemma BlocksHaveRootCauses(lower: string -> string, state: Graph, b: Bundle, now: int)
    requires WellFormed(lower, b)
    ensures var job := Import(lower, state, Converted(b, now));
            !NothingBlocked(job) <==>
              || (exists i :: 0 <= i < |b.runtimes| && job.RuntimeVerdict(i).reason.NameTaken?)
              || (exists i :: 0 <= i < |b.pipelines| && job.PipelineVerdict(i).reason.EntriesEmpty?)
  {
    var job := Import(lower, state, Converted(b, now));
    var n, m := |b.runtimes|, |b.models|;
    RuntimeReasons(job);
    PipelineReasons(job);
    hide WellFormed, Import.RuntimeVerdict, Import.ModelVerdict, Import.PipelineVerdict, Import.Verdicts;
    forall i | 0 <= i < |b.runtimes| ensures job.Verdicts()[i] == job.RuntimeVerdict(i) { job.VerdictAt(i); }
    forall i | 0 <= i < |b.pipelines| ensures job.Verdicts()[n + m + i] == job.PipelineVerdict(i) { job.VerdictAt(n + m + i); }
    if k :| 0 <= k < job.Size() && job.Verdicts()[k].status.Blocked? {
      job.VerdictAt(k);
      if k >= n + m { BlockedPipelineHasCause(lower, state, b, now, k - n - m); }
      if n <= k < n + m { BlockedModelHasCause(lower, state, b, now, k - n); }
      if k >= n + m && !job.PipelineVerdict(k - n - m).reason.EntriesEmpty? {
        var j :| 0 <= j < |b.models| && job.ModelVerdict(j).status.Blocked?;
        BlockedModelHasCause(lower, state, b, now, j);
      }
    }
  }

  lemma RuntimeReasons(job: Import)
    ensures forall i :: 0 <= i < |job.bundle.runtimes| ==> (job.RuntimeVerdict(i).status.Blocked? <==> job.RuntimeVerdict(i).reason.NameTaken?)
  {
    hide Import.RuntimeWrites, Import.Holders;
  }

  lemma PipelineReasons(job: Import)
    ensures forall i :: 0 <= i < |job.bundle.pipelines| ==> (job.PipelineVerdict(i).reason.EntriesEmpty? ==> job.PipelineVerdict(i).status.Blocked?)
  {
    hide PipelineEqual, Import.FirstDangling, Import.ModelBlocked;
  }

  /* ---- the import call ---- */

  datatype ImportResult = ImportResult(dryRun: bool, canImport: bool, created: Counts, updated: Counts, untouched: Counts, total: Counts,
                                       blocked: seq<Classification>)

  datatype ImportError = InvalidBundle | ImportConflict(result: ImportResult) | PersistenceFailure

  method PlanToResult(plan: Plan, dryRun: bool) returns (r: ImportResult)
    ensures r == ImportResult(dryRun, plan.WillMutate() && !plan.HasBlocked(), plan.created, plan.updated, plan.untouched, plan.total, plan.blocked)
  {
    var blocked: seq<Classification> := [];
    for i := 0 to |plan.blocked|
      invariant blocked == plan.blocked[..i]
    {
      blocked := blocked + [plan.blocked[i]];
    }
    r := ImportResult(dryRun, plan.WillMutate() && !plan.HasBlocked(), plan.created, plan.updated, plan.untouched, plan.total, blocked);
  }

  /** The counts and the blocked list of a result are those of the rules' verdicts. */
  ghost predicate Describes(r: ImportResult, job: Import) {
    && CountsAgree(r.created, r.updated, r.untouched, r.total, job.Verdicts())
    && r.blocked == Select(job.Verdicts(), job.Verdicts(), job.Size(), Blocked)
    && (r.canImport <==> NothingBlocked(job) && !WritesNothing(job))
  }

  method ImportBundle(repo: JSONRepository, lower: string -> string, b: Bundle, dryRun: bool, now: int, saves: bool)
      returns (r: Result<ImportResult, ImportError>)
    modifies repo
    ensures r == Err(InvalidBundle) <==> !WellFormed(lower, b)
    ensures dryRun || r.Err? ==> repo.State() == old(repo.State())
    ensures WellFormed(lower, b) && dryRun ==> r.Ok? && Describes(r.value, Import(lower, old(repo.State()), Converted(b, now)))
    ensures WellFormed(lower, b) && !dryRun ==>
              var job := Import(lower, old(repo.State()), Converted(b, now));
              && (r.Ok? <==> NothingBlocked(job) && (WritesNothing(job) || (!NamesCollide(lower, RuntimesAfter(job, now)) && saves)))
              && (r.Ok? ==> Describes(r.value, job) && if WritesNothing(job) then repo.State() == old(repo.State()) else Applied(job, now, repo.State()))
              && (r.Err? && r.error.ImportConflict? <==>
                    !NothingBlocked(job) || (!WritesNothing(job) && NamesCollide(lower, RuntimesAfter(job, now))))
              && (!NothingBlocked(job) ==> Describes(r.error.result, job))
              && (r.Err? && r.error.ImportConflict? ==> !r.error.result.canImport && r.error.result.blocked != [])
              && (r.Err? && r.error.ImportConflict? && NothingBlocked(job) ==> AllReported(lower, RuntimesAfter(job, now), r.error.result.blocked))
  {
    hide WellFormed, CountsAgree, NothingBlocked, WritesNothing, Import.Verdicts, Applied, NamesCollide, RuntimesAfter, Converted, Select, AllReported;
    var valid := ValidateBundle(lower, b);
    if !valid { return Err(InvalidBundle); }
    var bundle := ConvertBundle(b, now);
    ghost var job := Import(lower, repo.State(), bundle);
    UnchangedIsNotBlocked(job);
    if dryRun {
      var plan := PlanGraphImport(Import(lower, repo.State(), bundle));
      BlockedIsReported(plan, job);
      if NothingBlocked(job) { MutationIsCounted(plan, job); }
      var result := PlanToResult(plan, true);
      return Ok(result);
    }
    var plan, outcome := repo.ImportGraph(lower, bundle, now, saves);
    if PlanOf(plan, job) {
      BlockedIsReported(plan, job);
      if NothingBlocked(job) { MutationIsCounted(plan, job); }
    }
    var result := PlanToResult(plan, false);
    match outcome {
      case Conflict => return Err(ImportConflict(result));
      case EscapedConflict => return Err(ImportConflict(result));
      case SaveFailed => return Err(PersistenceFailure);
      case NothingToWrite => return Ok(result);
      case Written => return Ok(result);
    }
  }

  /* ---- the second import ---- */

  /** The repository holds every record of the bundle with the same restorable projection. */
  predicate Held(job: Import) {
    && (forall i :: 0 <= i < |job.bundle.runtimes| ==>
          var k := job.RuntimeAt(job.bundle.runtimes[i].id); k >= 0 && RuntimeEqual(job.bundle.runtimes[i], job.state.runtimes[k]))
    && (forall i :: 0 <= i < |job.bundle.models| ==>
          var k := job.ModelAt(job.bundle.models[i].id); k >= 0 && ModelEqual(job.bundle.models[i], job.state.models[k]))
    && (forall i :: 0 <= i < |job.bundle.pipelines| ==>
          var k := job.PipelineAt(job.bundle.pipelines[i].id); k >= 0 && PipelineEqual(job.bundle.pipelines[i], job.state.pipelines[k]))
  }

  lemma RuntimeUnchanged(job: Import, i: nat)
    requires Distinct(RuntimeIds(job.bundle.runtimes)) && i < |job.bundle.runtimes|
    ensures var k := job.RuntimeAt(job.bundle.runtimes[i].id);
            job.RuntimeVerdict(i).status.Unchanged? <==> k >= 0 && RuntimeEqual(job.bundle.runtimes[i], job.state.runtimes[k])
  {
    hide LastIndex, Import.Holders;
    forall j | 0 <= j < i ensures job.bundle.runtimes[j].id != job.bundle.runtimes[i].id {
      RuntimeIdAt(job.bundle.runtimes, j);
      RuntimeIdAt(job.bundle.runtimes, i);
    }
  }

  lemma ModelUnchanged(job: Import, i: nat)
    requires Distinct(ModelIds(job.bundle.models)) && i < |job.bundle.models|
    ensures var k := job.ModelAt(job.bundle.models[i].id);
            job.ModelVerdict(i).status.Unchanged? <==> k >= 0 && ModelEqual(job.bundle.models[i], job.state.models[k])
  {
    hide LastIndex, Import.RuntimeResolves, Import.RuntimeBlocked, ModelEqual;
    forall j | 0 <= j < i ensures job.bundle.models[j].id != job.bundle.models[i].id {
      ModelIdAt(job.bundle.models, j);
      ModelIdAt(job.bundle.models, i);
    }
  }

  lemma PipelineUnchanged(job: Import, i: nat)
    requires i < |job.bundle.pipelines|
    ensures var k := job.PipelineAt(job.bundle.pipelines[i].id);
            job.PipelineVerdict(i).status.Unchanged? <==> k >= 0 && PipelineEqual(job.bundle.pipelines[i], job.state.pipelines[k])
  {
    hide LastIndex, Import.FirstDangling, Import.ModelBlocked, PipelineEqual;
  }

  lemma HeldIsUnchanged(job: Import)
    requires Held(job)
    ensures WritesNothing(job)
  {
    hide RuntimeEqual, ModelEqual, PipelineEqual, LastIndex, Import.Holders, Import.FirstDangling, Import.ModelBlocked, Import.RuntimeBlocked,
         Import.RuntimeResolves, Import.Verdicts;
    forall i | 0 <= i < job.Size() ensures job.Verdicts()[i].status.Unchanged? { job.VerdictAt(i); }
  }

  /** An import without repeated ids writes nothing exactly when the repository already holds what the bundle brings. */
  lemma NothingIsWrittenWhenHeld(job: Import)
    requires DistinctIds(job.bundle)
    ensures WritesNothing(job) <==> Held(job)
  {
    hide Distinct, RuntimeEqual, ModelEqual, PipelineEqual, Import.RuntimeVerdict, Import.ModelVerdict, Import.PipelineVerdict, Import.Verdicts,
         Import.RuntimeAt, Import.ModelAt, Import.PipelineAt;
    var n, m := |job.bundle.runtimes|, |job.bundle.models|;
    forall i | 0 <= i < job.Size()
      ensures job.Verdicts()[i].status.Unchanged? <==>
                if i < n then job.RuntimeVerdict(i).status.Unchanged?
                else if i < n + m then job.ModelVerdict(i - n).status.Unchanged?
                else job.PipelineVerdict(i - n - m).status.Unchanged?
    {
      job.VerdictAt(i);
    }
    forall i: nat | i < n ensures WritesNothing(job) ==> job.RuntimeVerdict(i).status.Unchanged? { job.VerdictAt(i); }
    forall i: nat | i < m ensures WritesNothing(job) ==> job.ModelVerdict(i).status.Unchanged? { job.VerdictAt(n + i); }
    forall i: nat | i < |job.bundle.pipelines| ensures WritesNothing(job) ==> job.PipelineVerdict(i).status.Unchanged? { job.VerdictAt(n + m + i); }
    forall i: nat | i < n { RuntimeUnchanged(job, i); }
    forall i: nat | i < m { ModelUnchanged(job, i); }
    forall i: nat | i < |job.bundle.pipelines| { PipelineUnchanged(job, i); }
  }

  lemma HeldAtAnyTime(lower: string -> string, g: Graph, b: Bundle, now: int, later: int)
    requires Held(Import(lower, g, Converted(b, now)))
    ensures Held(Import(lower, g, Converted(b, later)))
  {
    hide LastIndex;
    var job, again := Import(lower, g, Converted(b, now)), Import(lower, g, Converted(b, later));
    forall i | 0 <= i < |again.bundle.runtimes|
      ensures var k := again.RuntimeAt(again.bundle.runtimes[i].id); k >= 0 && RuntimeEqual(again.bundle.runtimes[i], g.runtimes[k])
    {
      assert again.bundle.runtimes[i].name == job.bundle.runtimes[i].name;
    }
    forall i | 0 <= i < |again.bundle.models|
      ensures var k := again.ModelAt(again.bundle.models[i].id); k >= 0 && ModelEqual(again.bundle.models[i], g.models[k])
    {
      assert again.bundle.models[i].args == job.bundle.models[i].args;
    }
    forall i | 0 <= i < |again.bundle.pipelines|
      ensures var k := again.PipelineAt(again.bundle.pipelines[i].id); k >= 0 && PipelineEqual(again.bundle.pipelines[i], g.pipelines[k])
    {
      assert again.bundle.pipelines[i].models == job.bundle.pipelines[i].models;
    }
  }

  /** Importing an accepted bundle again, at any later time, succeeds and writes nothing. */
  lemma SecondImportWritesNothing(lower: string -> string, state: Graph, b: Bundle, now: int, later: int, after: Graph)
    requires WellFormed(lower, b)
    requires var job := Import(lower, state, Converted(b, now));
             NothingBlocked(job) && if WritesNothing(job) then after == state else Applied(job, now, after)
    ensures var again := Import(lower, after, Converted(b, later)); WritesNothing(again) && NothingBlocked(again)
  {
    hide WellFormed, DistinctIds, NothingBlocked, WritesNothing, Applied, Held;
    var job, again := Import(lower, state, Converted(b, now)), Import(lower, after, Converted(b, later));
    WellFormedIsDistinct(lower, b, now);
    WellFormedIsDistinct(lower, b, later);
    if !WritesNothing(job) { ReplanWritesNothing(job, now, after); }
    NothingIsWrittenWhenHeld(Import(lower, after, Converted(b, now)));
    HeldAtAnyTime(lower, after, b, now, later);
    NothingIsWrittenWhenHeld(again);
    UnchangedIsNotBlocked(again);
  }

  lemma ReplanWritesNothing(job: Import, now: int, after: Graph)
    requires Applied(job, now, after) && DistinctIds(job.bundle) && NothingBlocked(job)
    ensures WritesNothing(Import(job.lower, after, job.bundle))
  {
    ReplanIsUnchanged(job, now, after);
    hide Import.Verdicts;
  }
}
