/** What a graph import decides about each entity, stated entity by entity. */
module ImportRules {
  import opened Wrappers
  import opened Catalog

  datatype Kind = RuntimeKind | ModelKind | PipelineKind
  datatype Status = New | Update | Unchanged | Blocked
  datatype Reason = NoReason | NameTaken | RuntimeRefUnresolved | ModelRefUnresolved | DependencyBlocked | EntriesEmpty

  datatype Classification = Classification(kind: Kind, id: string, name: string, status: Status, reason: Reason, relatedId: string)

  /* ---- the order of reported ids ---- */

  predicate Leq(a: string, b: string) {
    if a == "" then true
    else if b == "" then false
    else a[0] < b[0] || (a[0] == b[0] && Leq(a[1..], b[1..]))
  }

  predicate IsSmallest(x: string, ids: set<string>) { x in ids && forall y :: y in ids ==> Leq(x, y) }

  lemma {:induction false} LeqTotal(a: string, b: string)
    ensures Leq(a, b) || Leq(b, a)
  {
    if a != "" && b != "" { LeqTotal(a[1..], b[1..]); }
  }

  lemma {:induction false} LeqTransitive(a: string, b: string, c: string)
    requires Leq(a, b) && Leq(b, c)
    ensures Leq(a, c)
  {
    if a != "" && b != "" && a[0] == b[0] && b[0] == c[0] { LeqTransitive(a[1..], b[1..], c[1..]); }
  }

  lemma {:induction false} LeqAntisymmetric(a: string, b: string)
    requires Leq(a, b) && Leq(b, a)
    ensures a == b
  {
    if a != "" && b != "" {
      LeqAntisymmetric(a[1..], b[1..]);
      assert a == [a[0]] + a[1..] && b == [b[0]] + b[1..];
    }
  }

  lemma {:induction false} SmallestExists(ids: set<string>) returns (x: string)
    requires ids != {}
    ensures IsSmallest(x, ids)
  {
    var y :| y in ids;
    if ids == {y} {
      x := y;
      LeqTotal(y, y);
    } else {
      assert ids == (ids - {y}) + {y};
      var z := SmallestExists(ids - {y});
      LeqTotal(y, z);
      LeqTotal(y, y);
      if Leq(y, z) {
        x := y;
        forall w | w in ids ensures Leq(y, w) { if w != y { LeqTransitive(y, z, w); } }
      } else {
        x := z;
      }
    }
  }

  /** The smallest id of a set, and the empty string for none. */
  ghost function Smallest(ids: set<string>): (x: string)
    ensures ids == {} ==> x == ""
    ensures ids != {} ==> IsSmallest(x, ids)
  {
    if ids == {} then ""
    else
      assert exists x :: IsSmallest(x, ids) by { var x := SmallestExists(ids); }
      var x :| IsSmallest(x, ids);
      x
  }

  lemma SmallestIs(x: string, ids: set<string>)
    requires IsSmallest(x, ids)
    ensures Smallest(ids) == x
  {
    LeqAntisymmetric(x, Smallest(ids));
  }

  /* ---- verdicts ---- */

  /** One import: case folding, the graph the repository holds and the graph the bundle brings. */
  datatype Import = Import(lower: string -> string, state: Graph, bundle: Graph) {

    function RuntimeAt(id: string): int { LastIndex(RuntimeIds(state.runtimes), id) }

    function ModelAt(id: string): int { LastIndex(ModelIds(state.models), id) }

    function PipelineAt(id: string): int { LastIndex(PipelineIds(state.pipelines), id) }

    /** Runtime i of the bundle would be written: it is the first of its new id, or it differs from the local record. */
    predicate RuntimeWrites(i: nat)
      requires i < |bundle.runtimes|
    {
      var rt := bundle.runtimes[i];
      var k := RuntimeAt(rt.id);
      if k >= 0 then !RuntimeEqual(rt, state.runtimes[k]) else forall j :: 0 <= j < i ==> bundle.runtimes[j].id != rt.id
    }

    /** The id claims the folded name by one of the first a local or the first b incoming runtimes. */
    ghost predicate HoldsUpTo(a: nat, b: nat, key: string, id: string)
      requires a <= |state.runtimes| && b <= |bundle.runtimes|
    {
      || (exists i :: 0 <= i < a && lower(state.runtimes[i].name) == key && state.runtimes[i].id == id)
      || (exists i :: 0 <= i < b && RuntimeWrites(i) && lower(bundle.runtimes[i].name) == key && bundle.runtimes[i].id == id)
    }

    ghost predicate Holds(key: string, id: string) {
      HoldsUpTo(|state.runtimes|, |bundle.runtimes|, key, id)
    }

    function Ids(): set<string> {
      (set i | 0 <= i < |state.runtimes| :: state.runtimes[i].id) + (set i | 0 <= i < |bundle.runtimes| :: bundle.runtimes[i].id)
    }

    /** Every id that claims the folded name: the repository's current names and the intended names of the writers. */
    ghost function Holders(key: string): (ids: set<string>)
      ensures forall id :: id in ids <==> Holds(key, id)
    {
      forall id | Holds(key, id) ensures id in Ids() { HolderIsKnown(key, id); }
      set id | id in Ids() && Holds(key, id)
    }

    lemma HolderIsKnown(key: string, id: string)
      requires Holds(key, id)
      ensures id in Ids()
    {
    }

    ghost function RuntimeVerdict(i: nat): Classification
      requires i < |bundle.runtimes|
    {
      var rt := bundle.runtimes[i];
      var others := Holders(lower(rt.name)) - {rt.id};
      if !RuntimeWrites(i) then Classification(RuntimeKind, rt.id, rt.name, Unchanged, NoReason, rt.id)
      else if others != {} then Classification(RuntimeKind, rt.id, rt.name, Blocked, NameTaken, Smallest(others))
      else if RuntimeAt(rt.id) >= 0 then Classification(RuntimeKind, rt.id, rt.name, Update, NoReason, rt.id)
      else Classification(RuntimeKind, rt.id, rt.name, New, NoReason, "")
    }

    ghost predicate RuntimeCreated(n: nat, id: string)
      requires n <= |bundle.runtimes|
    {
      exists i :: 0 <= i < n && bundle.runtimes[i].id == id && RuntimeVerdict(i).status.New?
    }

    /** The graph holds the runtime once the import is applied. */
    ghost predicate RuntimeResolves(id: string) {
      RuntimeAt(id) >= 0 || RuntimeCreated(|bundle.runtimes|, id)
    }

    /** The last entry of the bundle with this id is blocked. */
    ghost predicate RuntimeBlocked(id: string) {
      var k := LastIndex(RuntimeIds(bundle.runtimes), id);
      k >= 0 && RuntimeVerdict(k).status.Blocked?
    }

    ghost predicate ModelClaimed(i: nat, id: string)
      requires i <= |bundle.models|
    {
      exists j :: 0 <= j < i && bundle.models[j].id == id && RuntimeResolves(bundle.models[j].runtimeId)
    }

    ghost function ModelVerdict(i: nat): Classification
      requires i < |bundle.models|
    {
      var m := bundle.models[i];
      var k := ModelAt(m.id);
      if (k < 0 && ModelClaimed(i, m.id)) || (k >= 0 && ModelEqual(m, state.models[k])) then
        Classification(ModelKind, m.id, m.name, Unchanged, NoReason, m.id)
      else if !RuntimeResolves(m.runtimeId) then
        Classification(ModelKind, m.id, m.name, Blocked, if RuntimeBlocked(m.runtimeId) then DependencyBlocked else RuntimeRefUnresolved, m.runtimeId)
      else if k >= 0 then Classification(ModelKind, m.id, m.name, Update, NoReason, m.id)
      else Classification(ModelKind, m.id, m.name, New, NoReason, "")
    }

    ghost predicate ModelCreated(n: nat, id: string)
      requires n <= |bundle.models|
    {
      exists i :: 0 <= i < n && bundle.models[i].id == id && ModelVerdict(i).status.New?
    }

    ghost predicate ModelResolves(id: string) {
      ModelAt(id) >= 0 || ModelCreated(|bundle.models|, id)
    }

    ghost predicate ModelBlocked(id: string) {
      var k := LastIndex(ModelIds(bundle.models), id);
      k >= 0 && ModelVerdict(k).status.Blocked?
    }

    /** The first entry whose model the graph would not hold. */
    ghost function FirstDangling(entries: seq<PipelineModel>): (d: Option<string>)
      ensures d.None? <==> forall i :: 0 <= i < |entries| ==> ModelResolves(entries[i].modelId)
      ensures d.Some? ==> !ModelResolves(d.value) && exists i :: 0 <= i < |entries| && entries[i].modelId == d.value
    {
      if entries == [] then None
      else if !ModelResolves(entries[0].modelId) then Some(entries[0].modelId)
      else
        assert forall i :: 1 <= i < |entries| ==> entries[i] == entries[1..][i - 1];
        FirstDangling(entries[1..])
    }

    ghost function PipelineVerdict(i: nat): Classification
      requires i < |bundle.pipelines|
    {
      var p := bundle.pipelines[i];
      var k := PipelineAt(p.id);
      var dangling := FirstDangling(p.models);
      if k >= 0 && PipelineEqual(p, state.pipelines[k]) then Classification(PipelineKind, p.id, p.name, Unchanged, NoReason, p.id)
      else if p.models == [] then Classification(PipelineKind, p.id, p.name, Blocked, EntriesEmpty, if k >= 0 then p.id else "")
      else if dangling.Some? then
        Classification(PipelineKind, p.id, p.name, Blocked, if ModelBlocked(dangling.value) then DependencyBlocked else ModelRefUnresolved, dangling.value)
      else if k >= 0 then Classification(PipelineKind, p.id, p.name, Update, NoReason, p.id)
      else Classification(PipelineKind, p.id, p.name, New, NoReason, "")
    }

    ghost function RuntimeVerdicts(): (cs: seq<Classification>)
      ensures |cs| == |bundle.runtimes|
    {
      seq(|bundle.runtimes|, i requires 0 <= i < |bundle.runtimes| => RuntimeVerdict(i))
    }

    ghost function ModelVerdicts(): (cs: seq<Classification>)
      ensures |cs| == |bundle.models|
    {
      seq(|bundle.models|, i requires 0 <= i < |bundle.models| => ModelVerdict(i))
    }

    ghost function PipelineVerdicts(): (cs: seq<Classification>)
      ensures |cs| == |bundle.pipelines|
    {
      seq(|bundle.pipelines|, i requires 0 <= i < |bundle.pipelines| => PipelineVerdict(i))
    }

    function Size(): (n: nat)
      ensures n == |bundle.runtimes| + |bundle.models| + |bundle.pipelines|
    {
      |bundle.runtimes| + |bundle.models| + |bundle.pipelines|
    }

    /** All verdicts, in the order the plan reports them. */
    ghost function Verdicts(): (cs: seq<Classification>)
      ensures |cs| == Size()
    {
      RuntimeVerdicts() + ModelVerdicts() + PipelineVerdicts()
    }

    lemma VerdictAt(i: nat)
      requires i < Size()
      ensures var n, m := |bundle.runtimes|, |bundle.models|;
              Verdicts()[i] == if i < n then RuntimeVerdict(i) else if i < n + m then ModelVerdict(i - n) else PipelineVerdict(i - n - m)
    {
    }

    /* ---- the records a restore would write ---- */

    function RestoredRuntimes(): (r: seq<Runtime>)
      ensures |r| == |bundle.runtimes|
    {
      seq(|bundle.runtimes|, i requires 0 <= i < |bundle.runtimes| =>
        var k := RuntimeAt(bundle.runtimes[i].id);
        if k >= 0 then RestoredRuntime(state.runtimes[k], bundle.runtimes[i]) else bundle.runtimes[i])
    }

    function RestoredModels(): (r: seq<Model>)
      ensures |r| == |bundle.models|
    {
      seq(|bundle.models|, i requires 0 <= i < |bundle.models| =>
        var k := ModelAt(bundle.models[i].id);
        if k >= 0 then RestoredModel(state.models[k], bundle.models[i]) else bundle.models[i])
    }

    function RestoredPipelines(): (r: seq<Pipeline>)
      ensures |r| == |bundle.pipelines|
    {
      seq(|bundle.pipelines|, i requires 0 <= i < |bundle.pipelines| =>
        var k := PipelineAt(bundle.pipelines[i].id);
        if k >= 0 then RestoredPipeline(state.pipelines[k], bundle.pipelines[i]) else bundle.pipelines[i])
    }
  }

  /** Those of the first n items whose verdict has the status, in order. */
  function Select<T>(items: seq<T>, verdicts: seq<Classification>, n: nat, status: Status): seq<T>
    requires n <= |items| == |verdicts|
  {
    if n == 0 then [] else Select(items, verdicts, n - 1, status) + (if verdicts[n - 1].status == status then [items[n - 1]] else [])
  }

  lemma {:induction false} SelectMember<T>(items: seq<T>, verdicts: seq<Classification>, n: nat, status: Status, x: T)
    requires n <= |items| == |verdicts|
    ensures x in Select(items, verdicts, n, status) <==> exists i :: 0 <= i < n && items[i] == x && verdicts[i].status == status
  {
    if n > 0 { SelectMember(items, verdicts, n - 1, status, x); }
  }

  /* ---- counts ---- */

  datatype Counts = Counts(runtimes: int, models: int, pipelines: int) {
    function Plus(kind: Kind, n: int): Counts {
      match kind
      case RuntimeKind => this.(runtimes := runtimes + n)
      case ModelKind => this.(models := models + n)
      case PipelineKind => this.(pipelines := pipelines + n)
    }

    function Sum(other: Counts): Counts {
      Counts(runtimes + other.runtimes, models + other.models, pipelines + other.pipelines)
    }

    function Total(): int { runtimes + models + pipelines }
  }

  function Count(cs: seq<Classification>, n: nat, kind: Kind, status: Status): nat
    requires n <= |cs|
  {
    if n == 0 then 0 else Count(cs, n - 1, kind, status) + (if cs[n - 1].kind == kind && cs[n - 1].status == status then 1 else 0)
  }

  function CountsOf(cs: seq<Classification>, status: Status): Counts {
    Counts(Count(cs, |cs|, RuntimeKind, status), Count(cs, |cs|, ModelKind, status), Count(cs, |cs|, PipelineKind, status))
  }

  /** The counters say how many classifications have each status, and the totals add up. */
  predicate CountsAgree(created: Counts, updated: Counts, untouched: Counts, total: Counts, cs: seq<Classification>) {
    && created == CountsOf(cs, New)
    && updated == CountsOf(cs, Update)
    && untouched == CountsOf(cs, Unchanged)
    && total == created.Sum(updated).Sum(untouched).Sum(CountsOf(cs, Blocked))
  }

  lemma NothingCounted()
    ensures forall status :: CountsOf([], status) == Counts(0, 0, 0)
    ensures CountsAgree(Counts(0, 0, 0), Counts(0, 0, 0), Counts(0, 0, 0), Counts(0, 0, 0), [])
  {
    hide Count;
    assert forall status, kind :: Count([], 0, kind, status) == 0 by { forall status, kind ensures Count([], 0, kind, status) == 0 { CountNone(kind, status); } }
  }

  lemma CountNone(kind: Kind, status: Status)
    ensures Count([], 0, kind, status) == 0
  {
  }

  lemma {:induction false} CountPrefix(cs: seq<Classification>, ds: seq<Classification>, n: nat, kind: Kind, status: Status)
    requires n <= |cs| && n <= |ds| && forall i :: 0 <= i < n ==> cs[i] == ds[i]
    ensures Count(cs, n, kind, status) == Count(ds, n, kind, status)
  {
    if n > 0 { CountPrefix(cs, ds, n - 1, kind, status); }
  }

  lemma CountAppended(cs: seq<Classification>, c: Classification, status: Status)
    ensures CountsOf(cs + [c], status) == if c.status == status then CountsOf(cs, status).Plus(c.kind, 1) else CountsOf(cs, status)
  {
    CountPrefix(cs, cs + [c], |cs|, RuntimeKind, status);
    CountPrefix(cs, cs + [c], |cs|, ModelKind, status);
    CountPrefix(cs, cs + [c], |cs|, PipelineKind, status);
  }

  lemma {:induction false} Recount(cs: seq<Classification>, k: nat, c: Classification, n: nat, kind: Kind, status: Status)
    requires k < n <= |cs|
    ensures Count(cs[k := c], n, kind, status) ==
              Count(cs, n, kind, status) - (if cs[k].kind == kind && cs[k].status == status then 1 else 0)
              + (if c.kind == kind && c.status == status then 1 else 0)
  {
    if k < n - 1 { Recount(cs, k, c, n - 1, kind, status); } else { CountPrefix(cs[k := c], cs, n - 1, kind, status); }
  }

  /** Changing the status of one classification moves one unit between two counters of its type. */
  lemma Restatus(cs: seq<Classification>, k: nat, c: Classification, status: Status)
    requires k < |cs| && c.kind == cs[k].kind && c.status != cs[k].status
    ensures CountsOf(cs[k := c], status) ==
              if status == c.status then CountsOf(cs, status).Plus(c.kind, 1)
              else if status == cs[k].status then CountsOf(cs, status).Plus(c.kind, -1)
              else CountsOf(cs, status)
  {
    Recount(cs, k, c, |cs|, RuntimeKind, status);
    Recount(cs, k, c, |cs|, ModelKind, status);
    Recount(cs, k, c, |cs|, PipelineKind, status);
  }

  lemma RestatusAgrees(created: Counts, updated: Counts, untouched: Counts, total: Counts, cs: seq<Classification>, k: nat, c: Classification)
    requires CountsAgree(created, updated, untouched, total, cs)
    requires k < |cs| && c.kind == cs[k].kind && c.status.Blocked? && !cs[k].status.Blocked?
    ensures CountsAgree(if cs[k].status.New? then created.Plus(c.kind, -1) else created,
                        if cs[k].status.Update? then updated.Plus(c.kind, -1) else updated,
                        if cs[k].status.Unchanged? then untouched.Plus(c.kind, -1) else untouched, total, cs[k := c])
  {
    Restatus(cs, k, c, New);
    Restatus(cs, k, c, Update);
    Restatus(cs, k, c, Unchanged);
    Restatus(cs, k, c, Blocked);
    hide CountsOf;
  }
}
