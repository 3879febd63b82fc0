/** Portable bundles: export, validation, conversion and import. */
module Portable {
  import opened Catalog
  import Resolver

  datatype PortableRuntime = PortableRuntime(id: string, name: string, executable: string, workingDirectory: string)
  datatype PortableModel = PortableModel(id: string, name: string, runtimeId: string, args: seq<string>, active: bool, autostartDelay: int)
  datatype PortableEntry = PortableEntry(id: string, modelId: string, args: seq<string>, autoStart: bool)
  datatype PortablePipeline = PortablePipeline(id: string, name: string, active: bool, models: seq<PortableEntry>)
  datatype Bundle = Bundle(runtimes: seq<PortableRuntime>, models: seq<PortableModel>, pipelines: seq<PortablePipeline>)

  /* ---- export ---- */

  function ToRuntime(r: Runtime): PortableRuntime { PortableRuntime(r.id, r.name, r.executable, r.workingDirectory) }

  function ToModel(m: Model): PortableModel { PortableModel(m.id, m.name, m.runtimeId, m.args, m.active, m.autostartDelay) }

  function ToEntry(e: PipelineModel): PortableEntry { PortableEntry(e.id, e.modelId, e.args, e.autoStart) }

  function ToPipeline(p: Pipeline): PortablePipeline {
    PortablePipeline(p.id, p.name, p.active, seq(|p.models|, i requires 0 <= i < |p.models| => ToEntry(p.models[i])))
  }

  function BundleOf(g: Graph): Bundle {
    Bundle(seq(|g.runtimes|, i requires 0 <= i < |g.runtimes| => ToRuntime(g.runtimes[i])),
           seq(|g.models|, i requires 0 <= i < |g.models| => ToModel(g.models[i])),
           seq(|g.pipelines|, i requires 0 <= i < |g.pipelines| => ToPipeline(g.pipelines[i])))
  }

  method BuildBundle(g: Graph) returns (b: Bundle)
    ensures b == BundleOf(g)
  {
    var runtimes: seq<PortableRuntime>, models: seq<PortableModel>, pipelines: seq<PortablePipeline> := [], [], [];
    for i := 0 to |g.runtimes|
      invariant runtimes == BundleOf(g).runtimes[..i]
    {
      runtimes := runtimes + [ToRuntime(g.runtimes[i])];
    }
    for i := 0 to |g.models|
      invariant models == BundleOf(g).models[..i]
    {
      models := models + [ToModel(g.models[i])];
    }
    for i := 0 to |g.pipelines|
      invariant pipelines == BundleOf(g).pipelines[..i]
    {
      var p := g.pipelines[i];
      var entries: seq<PortableEntry> := [];
      for j := 0 to |p.models|
        invariant entries == ToPipeline(p).models[..j]
      {
        entries := entries + [ToEntry(p.models[j])];
      }
      assert PortablePipeline(p.id, p.name, p.active, entries) == ToPipeline(p);
      pipelines := pipelines + [PortablePipeline(p.id, p.name, p.active, entries)];
    }
    b := Bundle(runtimes, models, pipelines);
  }

  /* ---- conversion ---- */

  function FromRuntime(r: PortableRuntime, now: int): Runtime { Runtime(r.id, r.name, r.executable, r.workingDirectory, map[], now, now) }

  function FromModel(m: PortableModel, now: int): Model { Model(m.id, m.name, m.runtimeId, m.args, map[], m.active, m.autostartDelay, now, now) }

  function FromEntry(e: PortableEntry): PipelineModel { PipelineModel(e.id, e.modelId, e.args, e.autoStart) }

  function FromPipeline(p: PortablePipeline, now: int): Pipeline {
    Pipeline(p.id, p.name, p.active, seq(|p.models|, i requires 0 <= i < |p.models| => FromEntry(p.models[i])), now, now)
  }

  function Converted(b: Bundle, now: int): Graph {
    Graph(seq(|b.runtimes|, i requires 0 <= i < |b.runtimes| => FromRuntime(b.runtimes[i], now)),
          seq(|b.models|, i requires 0 <= i < |b.models| => FromModel(b.models[i], now)),
          seq(|b.pipelines|, i requires 0 <= i < |b.pipelines| => FromPipeline(b.pipelines[i], now)))
  }

  method ConvertBundle(b: Bundle, now: int) returns (g: Graph)
    ensures g == Converted(b, now)
  {
    var runtimes: seq<Runtime>, models: seq<Model>, pipelines: seq<Pipeline> := [], [], [];
    for i := 0 to |b.runtimes|
      invariant runtimes == Converted(b, now).runtimes[..i]
    {
      runtimes := runtimes + [FromRuntime(b.runtimes[i], now)];
    }
    for i := 0 to |b.models|
      invariant models == Converted(b, now).models[..i]
    {
      models := models + [FromModel(b.models[i], now)];
    }
    for i := 0 to |b.pipelines|
      invariant pipelines == Converted(b, now).pipelines[..i]
    {
      var p := b.pipelines[i];
      var entries: seq<PipelineModel> := [];
      for j := 0 to |p.models|
        invariant entries == FromPipeline(p, now).models[..j]
      {
        entries := entries + [FromEntry(p.models[j])];
      }
      assert Pipeline(p.id, p.name, p.active, entries, now, now) == FromPipeline(p, now);
      pipelines := pipelines + [Pipeline(p.id, p.name, p.active, entries, now, now)];
    }
    g := Graph(runtimes, models, pipelines);
  }

  /* ---- validation ---- */

  predicate SyntaxOk(s: string) { !(Resolver.Resolved(s, Resolver.SYNTAX_ONLY).Err? && Resolver.Resolved(s, Resolver.SYNTAX_ONLY).error.Invalid?) }

  predicate ArgsOk(args: seq<string>) { forall k :: 0 <= k < |args| ==> SyntaxOk(args[k]) }

  function RuntimeKeys(b: Bundle): seq<string> { seq(|b.runtimes|, i requires 0 <= i < |b.runtimes| => b.runtimes[i].id) }

  function ModelKeys(b: Bundle): seq<string> { seq(|b.models|, i requires 0 <= i < |b.models| => b.models[i].id) }

  function PipelineKeys(b: Bundle): seq<string> { seq(|b.pipelines|, i requires 0 <= i < |b.pipelines| => b.pipelines[i].id) }

  function EntryKeys(p: PortablePipeline): seq<string> { seq(|p.models|, i requires 0 <= i < |p.models| => p.models[i].id) }

  function FoldedNames(lower: string -> string, b: Bundle): seq<string> { seq(|b.runtimes|, i requires 0 <= i < |b.runtimes| => lower(b.runtimes[i].name)) }

  predicate RuntimeOk(r: PortableRuntime) {
    r.name != "" && r.executable != "" && SyntaxOk(r.executable) && (r.workingDirectory != "" ==> SyntaxOk(r.workingDirectory))
  }

  predicate ModelOk(b: Bundle, m: PortableModel) {
    m.name != "" && m.runtimeId != "" && m.runtimeId in RuntimeKeys(b) && ArgsOk(m.args)
  }

  predicate EntryOk(b: Bundle, e: PortableEntry) {
    e.modelId != "" && e.modelId in ModelKeys(b) && ArgsOk(e.args)
  }

  predicate PipelineOk(b: Bundle, p: PortablePipeline) {
    && p.name != "" && "" !in EntryKeys(p) && Distinct(EntryKeys(p))
    && forall i :: 0 <= i < |p.models| ==> EntryOk(b, p.models[i])
  }

  /** What validation accepts. */
  predicate WellFormed(lower: string -> string, b: Bundle) {
    && "" !in RuntimeKeys(b) && Distinct(RuntimeKeys(b))
    && "" !in ModelKeys(b) && Distinct(ModelKeys(b))
    && "" !in PipelineKeys(b) && Distinct(PipelineKeys(b))
    && (forall i :: 0 <= i < |b.models| ==> ModelOk(b, b.models[i]))
    && (forall i :: 0 <= i < |b.pipelines| ==> PipelineOk(b, b.pipelines[i]))
    && (forall i :: 0 <= i < |b.runtimes| ==> RuntimeOk(b.runtimes[i]))
    && Distinct(FoldedNames(lower, b))
  }

  method CheckDistinct(keys: seq<string>) returns (ok: bool)
    ensures ok <==> Distinct(keys)
  {
    var seen: set<string> := {};
    for i := 0 to |keys|
      invariant forall k :: k in seen <==> k in keys[..i]
      invariant Distinct(keys[..i])
    {
      assert keys[..i + 1] == keys[..i] + [keys[i]];
      if keys[i] in seen {
        var j :| 0 <= j < i && keys[..i][j] == keys[i];
        assert keys[j] == keys[i];
        return false;
      }
      seen := seen + {keys[i]};
    }
    assert keys[..|keys|] == keys;
    return true;
  }

  /** The ids of one list: none empty, none twice. */
  method CheckIds(keys: seq<string>) returns (ok: bool)
    ensures ok <==> "" !in keys && Distinct(keys)
  {
    for i := 0 to |keys|
      invariant "" !in keys[..i]
    {
      assert keys[..i + 1] == keys[..i] + [keys[i]];
      if keys[i] == "" { return false; }
    }
    assert keys[..|keys|] == keys;
    ok := CheckDistinct(keys);
  }

  method CheckSyntax(s: string) returns (ok: bool)
    ensures ok <==> SyntaxOk(s)
  {
    ok := Resolver.ValidateVariableSyntax(s);
  }

  method CheckArgs(args: seq<string>) returns (ok: bool)
    ensures ok <==> ArgsOk(args)
  {
    hide SyntaxOk;
    for k := 0 to |args|
      invariant forall j :: 0 <= j < k ==> SyntaxOk(args[j])
    {
      var fine := CheckSyntax(args[k]);
      if !fine { return false; }
    }
    return true;
  }

  method CheckPipeline(b: Bundle, p: PortablePipeline) returns (ok: bool)
    ensures ok <==> PipelineOk(b, p)
  {
    hide Distinct, ArgsOk;
    var ids := CheckIds(EntryKeys(p));
    if !ids || p.name == "" { return false; }
    for i := 0 to |p.models|
      invariant forall j :: 0 <= j < i ==> EntryOk(b, p.models[j])
    {
      var args := CheckArgs(p.models[i].args);
      if p.models[i].modelId == "" || p.models[i].modelId !in ModelKeys(b) || !args { return false; }
    }
    return true;
  }

  /** validateBundle, without the text of its error. */
  method ValidateBundle(lower: string -> string, b: Bundle) returns (ok: bool)
    ensures ok <==> WellFormed(lower, b)
  {
    hide Distinct, SyntaxOk, ArgsOk, PipelineOk, RuntimeKeys, ModelKeys, PipelineKeys, FoldedNames;
    var runtimeIds := CheckIds(RuntimeKeys(b));
    var modelIds := CheckIds(ModelKeys(b));
    var pipelineIds := CheckIds(PipelineKeys(b));
    if !runtimeIds || !modelIds || !pipelineIds { return false; }
    for i := 0 to |b.models|
      invariant forall j :: 0 <= j < i ==> ModelOk(b, b.models[j])
    {
      var m := b.models[i];
      var args := CheckArgs(m.args);
      if m.name == "" || m.runtimeId == "" || m.runtimeId !in RuntimeKeys(b) || !args { return false; }
    }
    for i := 0 to |b.pipelines|
      invariant forall j :: 0 <= j < i ==> PipelineOk(b, b.pipelines[j])
    {
      var fine := CheckPipeline(b, b.pipelines[i]);
      if !fine { return false; }
    }
    for i := 0 to |b.runtimes|
      invariant forall j :: 0 <= j < i ==> RuntimeOk(b.runtimes[j])
    {
      var r := b.runtimes[i];
      var executable := CheckSyntax(r.executable);
      var directory := CheckSyntax(r.workingDirectory);
      if !executable || (r.workingDirectory != "" && !directory) || r.name == "" || r.executable == "" { return false; }
    }
    ok := CheckDistinct(FoldedNames(lower, b));
  }
}
