/** The verdicts do not depend on the order of the bundle or of the repository. */
module ImportOrder {
  import opened Catalog
  import opened ImportRules
  import opened ImportLaws

  /** b lists the same records as a, in any order. */
  predicate Permuted(a: Graph, b: Graph) {
    multiset(a.runtimes) == multiset(b.runtimes) && multiset(a.models) == multiset(b.models) && multiset(a.pipelines) == multiset(b.pipelines)
  }

  lemma Member<T>(a: seq<T>, b: seq<T>)
    requires multiset(a) == multiset(b)
    ensures forall x :: x in a <==> x in b
  {
    assert forall x :: x in a <==> x in multiset(a);
    assert forall x :: x in b <==> x in multiset(b);
  }

  /** An element that b holds twice is held twice by its permutation a. */
  lemma Twice<T>(a: seq<T>, b: seq<T>, i: nat, j: nat) returns (p: nat, q: nat)
    requires multiset(a) == multiset(b) && i < j < |b| && b[i] == b[j]
    ensures p < q < |a| && a[p] == b[i] && a[q] == b[i]
  {
    var x := b[i];
    assert b == b[..j] + b[j..];
    assert b[..j][i] == x && b[j..][0] == x;
    assert multiset(b)[x] >= 2;
    assert x in multiset(a);
    p :| 0 <= p < |a| && a[p] == x;
    assert a == a[..p] + [x] + a[p + 1..];
    assert multiset(a) == multiset(a[..p]) + multiset{x} + multiset(a[p + 1..]);
    if x in a[..p] {
      var r :| 0 <= r < p && a[..p][r] == x;
      p, q := r, p;
    } else {
      assert x in a[p + 1..];
      var r :| 0 <= r < |a[p + 1..]| && a[p + 1..][r] == x;
      q := p + 1 + r;
    }
  }

  /** Two imports of the same records into the same records, listed in any order, with distinct ids. */
  ghost predicate Twins(job: Import, twin: Import) {
    && (forall x :: job.lower(x) == twin.lower(x))
    && SameMembers(job.state, twin.state) && SameMembers(job.bundle, twin.bundle)
    && DistinctIds(job.state) && DistinctIds(twin.state) && DistinctIds(job.bundle) && DistinctIds(twin.bundle)
  }

  ghost predicate SameMembers(a: Graph, b: Graph) {
    && (forall x :: x in a.runtimes <==> x in b.runtimes)
    && (forall x :: x in a.models <==> x in b.models)
    && (forall x :: x in a.pipelines <==> x in b.pipelines)
  }

  lemma RuntimesDistinct(a: seq<Runtime>, b: seq<Runtime>)
    requires multiset(a) == multiset(b) && Distinct(RuntimeIds(a))
    ensures Distinct(RuntimeIds(b))
  {
    Member(a, b);
    forall i, j | 0 <= i < j < |b| ensures RuntimeIds(b)[i] != RuntimeIds(b)[j] {
      if b[i].id == b[j].id {
        assert b[i] in a && b[j] in a;
        var x :| 0 <= x < |a| && a[x] == b[i];
        var y :| 0 <= y < |a| && a[y] == b[j];
        RuntimeUnique(a, x, y);
        var p, q := Twice(a, b, i, j);
        RuntimeUnique(a, p, q);
      }
    }
  }

  lemma ModelsDistinct(a: seq<Model>, b: seq<Model>)
    requires multiset(a) == multiset(b) && Distinct(ModelIds(a))
    ensures Distinct(ModelIds(b))
  {
    Member(a, b);
    forall i, j | 0 <= i < j < |b| ensures ModelIds(b)[i] != ModelIds(b)[j] {
      if b[i].id == b[j].id {
        assert b[i] in a && b[j] in a;
        var x :| 0 <= x < |a| && a[x] == b[i];
        var y :| 0 <= y < |a| && a[y] == b[j];
        ModelUnique(a, x, y);
        var p, q := Twice(a, b, i, j);
        ModelUnique(a, p, q);
      }
    }
  }

  lemma PipelinesDistinct(a: seq<Pipeline>, b: seq<Pipeline>)
    requires multiset(a) == multiset(b) && Distinct(PipelineIds(a))
    ensures Distinct(PipelineIds(b))
  {
    Member(a, b);
    forall i, j | 0 <= i < j < |b| ensures PipelineIds(b)[i] != PipelineIds(b)[j] {
      if b[i].id == b[j].id {
        assert b[i] in a && b[j] in a;
        var x :| 0 <= x < |a| && a[x] == b[i];
        var y :| 0 <= y < |a| && a[y] == b[j];
        PipelineUnique(a, x, y);
        var p, q := Twice(a, b, i, j);
        PipelineUnique(a, p, q);
      }
    }
  }

  /* ---- the local record of an id ---- */

  lemma RuntimeFound(rs: seq<Runtime>, id: string)
    ensures var k := LastIndex(RuntimeIds(rs), id);
            -1 <= k < |rs| && if k >= 0 then rs[k].id == id else forall i :: 0 <= i < |rs| ==> rs[i].id != id
  {
    var k := LastIndex(RuntimeIds(rs), id);
    if k < 0 { forall i | 0 <= i < |rs| ensures rs[i].id != id { RuntimeIdAt(rs, i); } }
  }

  lemma ModelFound(ms: seq<Model>, id: string)
    ensures var k := LastIndex(ModelIds(ms), id);
            -1 <= k < |ms| && if k >= 0 then ms[k].id == id else forall i :: 0 <= i < |ms| ==> ms[i].id != id
  {
    var k := LastIndex(ModelIds(ms), id);
    if k < 0 { forall i | 0 <= i < |ms| ensures ms[i].id != id { ModelIdAt(ms, i); } }
  }

  lemma PipelineFound(ps: seq<Pipeline>, id: string)
    ensures var k := LastIndex(PipelineIds(ps), id);
            -1 <= k < |ps| && if k >= 0 then ps[k].id == id else forall i :: 0 <= i < |ps| ==> ps[i].id != id
  {
    var k := LastIndex(PipelineIds(ps), id);
    if k < 0 { forall i | 0 <= i < |ps| ensures ps[i].id != id { PipelineIdAt(ps, i); } }
  }

  lemma SameRuntime(a: seq<Runtime>, b: seq<Runtime>, id: string)
    requires (forall x :: x in a <==> x in b) && Distinct(RuntimeIds(a)) && Distinct(RuntimeIds(b))
    ensures var k, l := LastIndex(RuntimeIds(a), id), LastIndex(RuntimeIds(b), id); (k >= 0 <==> l >= 0) && (k >= 0 ==> a[k] == b[l])
  {
    RuntimeFound(a, id);
    RuntimeFound(b, id);
    var k, l := LastIndex(RuntimeIds(a), id), LastIndex(RuntimeIds(b), id);
    hide LastIndex, RuntimeIds, Distinct;
    assert l >= 0 ==> b[l] in a;
    if k >= 0 {
      assert a[k] in b;
      var m :| 0 <= m < |b| && b[m] == a[k];
      RuntimeUnique(b, m, l);
    }
  }

  lemma SameModel(a: seq<Model>, b: seq<Model>, id: string)
    requires (forall x :: x in a <==> x in b) && Distinct(ModelIds(a)) && Distinct(ModelIds(b))
    ensures var k, l := LastIndex(ModelIds(a), id), LastIndex(ModelIds(b), id); (k >= 0 <==> l >= 0) && (k >= 0 ==> a[k] == b[l])
  {
    ModelFound(a, id);
    ModelFound(b, id);
    var k, l := LastIndex(ModelIds(a), id), LastIndex(ModelIds(b), id);
    hide LastIndex, ModelIds, Distinct;
    assert l >= 0 ==> b[l] in a;
    if k >= 0 {
      assert a[k] in b;
      var m :| 0 <= m < |b| && b[m] == a[k];
      ModelUnique(b, m, l);
    }
  }

  lemma SamePipeline(a: seq<Pipeline>, b: seq<Pipeline>, id: string)
    requires (forall x :: x in a <==> x in b) && Distinct(PipelineIds(a)) && Distinct(PipelineIds(b))
    ensures var k, l := LastIndex(PipelineIds(a), id), LastIndex(PipelineIds(b), id); (k >= 0 <==> l >= 0) && (k >= 0 ==> a[k] == b[l])
  {
    PipelineFound(a, id);
    PipelineFound(b, id);
    var k, l := LastIndex(PipelineIds(a), id), LastIndex(PipelineIds(b), id);
    hide LastIndex, PipelineIds, Distinct;
    assert l >= 0 ==> b[l] in a;
    if k >= 0 {
      assert a[k] in b;
      var m :| 0 <= m < |b| && b[m] == a[k];
      PipelineUnique(b, m, l);
    }
  }

  /* ---- verdicts ---- */

  lemma SameWrites(job: Import, twin: Import, i: nat, j: nat)
    requires Twins(job, twin) && i < |job.bundle.runtimes| && j < |twin.bundle.runtimes| && job.bundle.runtimes[i] == twin.bundle.runtimes[j]
    ensures job.RuntimeWrites(i) == twin.RuntimeWrites(j)
  {
    SameRuntime(job.state.runtimes, twin.state.runtimes, job.bundle.runtimes[i].id);
    RuntimeFirstOfItsId(job, i);
    RuntimeFirstOfItsId(twin, j);
    hide Distinct, RuntimeIds, LastIndex;
  }

  lemma HoldsInTwin(job: Import, twin: Import, key: string, id: string)
    requires Twins(job, twin) && job.Holds(key, id)
    ensures twin.Holds(key, id)
  {
    hide DistinctIds, Import.RuntimeWrites;
    if i :| 0 <= i < |job.state.runtimes| && job.lower(job.state.runtimes[i].name) == key && job.state.runtimes[i].id == id {
      assert job.state.runtimes[i] in twin.state.runtimes;
      var j :| 0 <= j < |twin.state.runtimes| && twin.state.runtimes[j] == job.state.runtimes[i];
    } else {
      var i :| 0 <= i < |job.bundle.runtimes| && job.RuntimeWrites(i) && job.lower(job.bundle.runtimes[i].name) == key && job.bundle.runtimes[i].id == id;
      assert job.bundle.runtimes[i] in twin.bundle.runtimes;
      var j :| 0 <= j < |twin.bundle.runtimes| && twin.bundle.runtimes[j] == job.bundle.runtimes[i];
      SameWrites(job, twin, i, j);
    }
  }

  lemma SameRuntimeVerdict(job: Import, twin: Import, i: nat, j: nat)
    requires Twins(job, twin) && i < |job.bundle.runtimes| && j < |twin.bundle.runtimes| && job.bundle.runtimes[i] == twin.bundle.runtimes[j]
    ensures job.RuntimeVerdict(i) == twin.RuntimeVerdict(j)
  {
    var key := job.lower(job.bundle.runtimes[i].name);
    SameWrites(job, twin, i, j);
    SameRuntime(job.state.runtimes, twin.state.runtimes, job.bundle.runtimes[i].id);
    forall id ensures id in job.Holders(key) <==> id in twin.Holders(key) {
      if id in job.Holders(key) { HoldsInTwin(job, twin, key, id); }
      if id in twin.Holders(key) { HoldsInTwin(twin, job, key, id); }
    }
    hide Import.Holds, Import.RuntimeWrites, Distinct, LastIndex, RuntimeIds;
    assert job.Holders(key) == twin.Holders(key);
  }

  lemma ResolvesInTwin(job: Import, twin: Import, id: string)
    requires Twins(job, twin) && job.RuntimeResolves(id)
    ensures twin.RuntimeResolves(id)
  {
    SameRuntime(job.state.runtimes, twin.state.runtimes, id);
    hide DistinctIds, Import.RuntimeVerdict, LastIndex;
    if i :| 0 <= i < |job.bundle.runtimes| && job.bundle.runtimes[i].id == id && job.RuntimeVerdict(i).status.New? {
      assert job.bundle.runtimes[i] in twin.bundle.runtimes;
      var j :| 0 <= j < |twin.bundle.runtimes| && twin.bundle.runtimes[j] == job.bundle.runtimes[i];
      SameRuntimeVerdict(job, twin, i, j);
    }
  }

  lemma SameRuntimeBlocked(job: Import, twin: Import, id: string)
    requires Twins(job, twin)
    ensures job.RuntimeBlocked(id) == twin.RuntimeBlocked(id)
    ensures job.RuntimeResolves(id) == twin.RuntimeResolves(id)
  {
    RuntimeBlockedInTwin(job, twin, id);
    hide Import.RuntimeBlocked, Import.RuntimeResolves;
    if job.RuntimeResolves(id) { ResolvesInTwin(job, twin, id); }
    if twin.RuntimeResolves(id) { ResolvesInTwin(twin, job, id); }
  }

  lemma RuntimeBlockedInTwin(job: Import, twin: Import, id: string)
    requires Twins(job, twin)
    ensures job.RuntimeBlocked(id) == twin.RuntimeBlocked(id)
  {
    hide Import.RuntimeVerdict, LastIndex;
    SameRuntime(job.bundle.runtimes, twin.bundle.runtimes, id);
    var k, l := LastIndex(RuntimeIds(job.bundle.runtimes), id), LastIndex(RuntimeIds(twin.bundle.runtimes), id);
    if k >= 0 { SameRuntimeVerdict(job, twin, k, l); }
  }

  lemma SameModelVerdict(job: Import, twin: Import, i: nat, j: nat)
    requires Twins(job, twin) && i < |job.bundle.models| && j < |twin.bundle.models| && job.bundle.models[i] == twin.bundle.models[j]
    ensures job.ModelVerdict(i) == twin.ModelVerdict(j)
  {
    SameModel(job.state.models, twin.state.models, job.bundle.models[i].id);
    SameRuntimeBlocked(job, twin, job.bundle.models[i].runtimeId);
    ModelFirstOfItsId(job, i);
    ModelFirstOfItsId(twin, j);
    hide Import.RuntimeResolves, Import.RuntimeBlocked, LastIndex, ModelIds, DistinctIds;
  }

  lemma ModelResolvesInTwin(job: Import, twin: Import, id: string)
    requires Twins(job, twin) && job.ModelResolves(id)
    ensures twin.ModelResolves(id)
  {
    SameModel(job.state.models, twin.state.models, id);
    hide DistinctIds, Import.ModelVerdict, LastIndex;
    if i :| 0 <= i < |job.bundle.models| && job.bundle.models[i].id == id && job.ModelVerdict(i).status.New? {
      assert job.bundle.models[i] in twin.bundle.models;
      var j :| 0 <= j < |twin.bundle.models| && twin.bundle.models[j] == job.bundle.models[i];
      SameModelVerdict(job, twin, i, j);
    }
  }

  lemma SameModelBlocked(job: Import, twin: Import, id: string)
    requires Twins(job, twin)
    ensures job.ModelBlocked(id) == twin.ModelBlocked(id)
    ensures job.ModelResolves(id) == twin.ModelResolves(id)
  {
    ModelBlockedInTwin(job, twin, id);
    hide Import.ModelBlocked, Import.ModelResolves;
    if job.ModelResolves(id) { ModelResolvesInTwin(job, twin, id); }
    if twin.ModelResolves(id) { ModelResolvesInTwin(twin, job, id); }
  }

  lemma ModelBlockedInTwin(job: Import, twin: Import, id: string)
    requires Twins(job, twin)
    ensures job.ModelBlocked(id) == twin.ModelBlocked(id)
  {
    hide Import.ModelVerdict, LastIndex;
    SameModel(job.bundle.models, twin.bundle.models, id);
    var k, l := LastIndex(ModelIds(job.bundle.models), id), LastIndex(ModelIds(twin.bundle.models), id);
    if k >= 0 { SameModelVerdict(job, twin, k, l); }
  }

  lemma {:induction false} SameDangling(job: Import, twin: Import, entries: seq<PipelineModel>)
    requires Twins(job, twin)
    ensures job.FirstDangling(entries) == twin.FirstDangling(entries)
  {
    hide Twins, Import.ModelResolves;
    if entries != [] {
      SameModelBlocked(job, twin, entries[0].modelId);
      SameDangling(job, twin, entries[1..]);
    }
  }

  lemma SamePipelineVerdict(job: Import, twin: Import, i: nat, j: nat)
    requires Twins(job, twin) && i < |job.bundle.pipelines| && j < |twin.bundle.pipelines| && job.bundle.pipelines[i] == twin.bundle.pipelines[j]
    ensures job.PipelineVerdict(i) == twin.PipelineVerdict(j)
  {
    var p := job.bundle.pipelines[i];
    SamePipeline(job.state.pipelines, twin.state.pipelines, p.id);
    SameDangling(job, twin, p.models);
    if job.FirstDangling(p.models).Some? { SameModelBlocked(job, twin, job.FirstDangling(p.models).value); }
    hide Import.FirstDangling, Import.ModelBlocked, LastIndex, PipelineIds, DistinctIds, PipelineEqual;
  }

  lemma RuntimeVerdictInTwin(job: Import, twin: Import, i: nat)
    requires Twins(job, twin) && i < |job.bundle.runtimes|
    ensures job.RuntimeVerdict(i) in twin.Verdicts()
  {
    hide Import.Verdicts, Import.RuntimeVerdict, DistinctIds;
    assert job.bundle.runtimes[i] in twin.bundle.runtimes;
    var j :| 0 <= j < |twin.bundle.runtimes| && twin.bundle.runtimes[j] == job.bundle.runtimes[i];
    SameRuntimeVerdict(job, twin, i, j);
    twin.VerdictAt(j);
  }

  lemma ModelVerdictInTwin(job: Import, twin: Import, i: nat)
    requires Twins(job, twin) && i < |job.bundle.models|
    ensures job.ModelVerdict(i) in twin.Verdicts()
  {
    hide Import.Verdicts, Import.ModelVerdict, DistinctIds;
    assert job.bundle.models[i] in twin.bundle.models;
    var j :| 0 <= j < |twin.bundle.models| && twin.bundle.models[j] == job.bundle.models[i];
    SameModelVerdict(job, twin, i, j);
    twin.VerdictAt(|twin.bundle.runtimes| + j);
  }

  lemma PipelineVerdictInTwin(job: Import, twin: Import, i: nat)
    requires Twins(job, twin) && i < |job.bundle.pipelines|
    ensures job.PipelineVerdict(i) in twin.Verdicts()
  {
    hide Import.Verdicts, Import.PipelineVerdict, DistinctIds;
    assert job.bundle.pipelines[i] in twin.bundle.pipelines;
    var j :| 0 <= j < |twin.bundle.pipelines| && twin.bundle.pipelines[j] == job.bundle.pipelines[i];
    SamePipelineVerdict(job, twin, i, j);
    twin.VerdictAt(|twin.bundle.runtimes| + |twin.bundle.models| + j);
  }

  lemma VerdictsInTwin(job: Import, twin: Import, i: nat)
    requires Twins(job, twin) && i < job.Size()
    ensures job.Verdicts()[i] in twin.Verdicts()
  {
    hide *;
    var n, m := |job.bundle.runtimes|, |job.bundle.models|;
    job.VerdictAt(i);
    if i < n {
      RuntimeVerdictInTwin(job, twin, i);
    } else if i < n + m {
      ModelVerdictInTwin(job, twin, i - n);
    } else {
      PipelineVerdictInTwin(job, twin, i - n - m);
    }
  }

  /** Permuting the lists of the bundle or of the repository leaves the set of verdicts, reasons and counterparts as it was. */
  lemma OrderIsIrrelevant(lower: string -> string, state: Graph, state': Graph, bundle: Graph, bundle': Graph)
    requires Permuted(state, state') && Permuted(bundle, bundle') && DistinctIds(state) && DistinctIds(bundle)
    ensures forall c :: c in Import(lower, state, bundle).Verdicts() <==> c in Import(lower, state', bundle').Verdicts()
  {
    var job, twin := Import(lower, state, bundle), Import(lower, state', bundle');
    PermutedTwins(job, twin);
    hide Twins, Import.Verdicts;
    TwinsBack(job, twin);
    forall i | 0 <= i < job.Size() ensures job.Verdicts()[i] in twin.Verdicts() { VerdictsInTwin(job, twin, i); }
    forall i | 0 <= i < twin.Size() ensures twin.Verdicts()[i] in job.Verdicts() { VerdictsInTwin(twin, job, i); }
  }

  lemma TwinsBack(job: Import, twin: Import)
    requires Twins(job, twin)
    ensures Twins(twin, job)
  {
  }

  lemma PermutedTwins(job: Import, twin: Import)
    requires Permuted(job.state, twin.state) && Permuted(job.bundle, twin.bundle) && DistinctIds(job.state) && DistinctIds(job.bundle)
    requires job.lower == twin.lower
    ensures Twins(job, twin)
  {
    PermutedMembers(job.state, twin.state);
    PermutedMembers(job.bundle, twin.bundle);
  }

  lemma PermutedMembers(a: Graph, b: Graph)
    requires Permuted(a, b) && DistinctIds(a)
    ensures SameMembers(a, b) && DistinctIds(b)
  {
    Member(a.runtimes, b.runtimes);
    Member(a.models, b.models);
    Member(a.pipelines, b.pipelines);
    RuntimesDistinct(a.runtimes, b.runtimes);
    ModelsDistinct(a.models, b.models);
    PipelinesDistinct(a.pipelines, b.pipelines);
  }
}
