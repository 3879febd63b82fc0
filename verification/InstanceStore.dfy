/** The durable instance records: create, update and the terminal-only cleanup. */
module InstanceStore {
  import opened Wrappers
  import LaunchState

  type Phase = LaunchState.Phase

  /** A stopped time of None is the zero time. */
  datatype Instance = Instance(id: string, phase: Phase, stoppedAt: Option<int>)

  datatype Mode = AllTerminal | OlderThan | Selected

  datatype StoreError = SaveFailed | NotFound | InvalidMode

  /** The modes by name; both ages leave the cutoff to the caller. */
  function ModeOf(name: string): Option<Mode> {
    if name == "all_terminal" then Some(AllTerminal)
    else if name == "older_than_7d" || name == "older_than_30d" then Some(OlderThan)
    else if name == "selected" then Some(Selected)
    else None
  }

  /** What one cleanup deletes. */
  predicate Deletes(mode: Mode, ids: set<string>, cutoff: int, x: Instance) {
    x.phase.Terminal() &&
    match mode
    case AllTerminal => true
    case OlderThan => x.stoppedAt.Some? && x.stoppedAt.value < cutoff
    case Selected => x.id in ids
  }

  function Keep(xs: seq<Instance>, n: nat, mode: Mode, ids: set<string>, cutoff: int): seq<Instance>
    requires n <= |xs|
  {
    if n == 0 then [] else Keep(xs, n - 1, mode, ids, cutoff) + (if Deletes(mode, ids, cutoff, xs[n - 1]) then [] else [xs[n - 1]])
  }

  function First(xs: seq<Instance>, id: string): (k: int)
    ensures -1 <= k < |xs|
    ensures k >= 0 ==> xs[k].id == id && forall j :: 0 <= j < k ==> xs[j].id != id
    ensures k < 0 ==> forall j :: 0 <= j < |xs| ==> xs[j].id != id
  {
    if xs == [] then -1
    else if xs[0].id == id then 0
    else
      assert forall j :: 1 <= j < |xs| ==> xs[j] == xs[1..][j - 1];
      var k := First(xs[1..], id);
      if k < 0 then -1 else k + 1
  }

  class Store {
    var instances: seq<Instance>
    var generated: nat                   // ids drawn from the generator so far
    const idGenerator: nat -> string

    constructor (idGenerator: nat -> string)
      ensures this.idGenerator == idGenerator && instances == [] && generated == 0
    {
      this.idGenerator := idGenerator;
      instances, generated := [], 0;
    }

    /** Gives a record without an id the next one, then replaces the record of the same id, or appends. A failed save puts the list back, and
    the id stays drawn. */
    method Create(entry: Instance, saves: bool) returns (ok: bool, x: Instance)
      modifies this
      ensures x == if entry.id == "" then entry.(id := idGenerator(old(generated))) else entry
      ensures generated == if entry.id == "" then old(generated) + 1 else old(generated)
      ensures ok == saves
      ensures !ok ==> instances == old(instances)
      ensures ok ==> var k := First(old(instances), x.id);
                instances == if k >= 0 then old(instances)[k := x] else old(instances) + [x]
    {
      x := entry;
      if x.id == "" {
        x := x.(id := idGenerator(generated));
        generated := generated + 1;
      }
      for i := 0 to |instances|
        invariant instances == old(instances) && forall j :: 0 <= j < i ==> instances[j].id != x.id
      {
        if instances[i].id == x.id {
          var previous := instances[i];
          instances := instances[i := x];
          if !saves { instances := instances[i := previous]; }
          return saves, x;
        }
      }
      var previous := instances;
      instances := instances + [x];
      if !saves { instances := previous; }
      return saves, x;
    }

    /** Fails for a record that does not exist. */
    method Update(x: Instance, saves: bool) returns (r: Result<bool, StoreError>)
      modifies this
      ensures r == Err(NotFound) <==> First(old(instances), x.id) < 0
      ensures r == Err(SaveFailed) <==> First(old(instances), x.id) >= 0 && !saves
      ensures r.Err? ==> instances == old(instances)
      ensures r.Ok? ==> instances == old(instances)[First(old(instances), x.id) := x]
    {
      for i := 0 to |instances|
        invariant instances == old(instances) && forall j :: 0 <= j < i ==> instances[j].id != x.id
      {
        if instances[i].id == x.id {
          var previous := instances[i];
          instances := instances[i := x];
          if !saves {
            instances := instances[i := previous];
            return Err(SaveFailed);
          }
          return Ok(true);
        }
      }
      return Err(NotFound);
    }

    /** An unknown mode is refused before anything is read. */
    method DeleteTerminal(name: string, ids: set<string>, cutoff: int, saves: bool) returns (r: Result<nat, StoreError>)
      modifies this`instances
      ensures r == Err(InvalidMode) <==> name !in {"all_terminal", "older_than_7d", "older_than_30d", "selected"}
      ensures r.Err? ==> instances == old(instances) && (!r.error.InvalidMode? ==> r.error.SaveFailed? && !saves)
      ensures r.Ok? ==> ModeOf(name).Some? && instances == Keep(old(instances), |old(instances)|, ModeOf(name).value, ids, cutoff)
                        && r.value == |old(instances)| - |instances| && (r.value > 0 ==> saves)
    {
      var found := ModeOf(name);
      if found.None? { return Err(InvalidMode); }
      var mode := found.value;
      var kept: seq<Instance> := [];
      var deleted := 0;
      for i := 0 to |instances|
        invariant kept == Keep(instances, i, mode, ids, cutoff) && deleted == i - |kept| && deleted >= 0
        invariant deleted == 0 ==> kept == instances[..i]
      {
        if Deletes(mode, ids, cutoff, instances[i]) { deleted := deleted + 1; } else { kept := kept + [instances[i]]; }
      }
      if deleted == 0 { return Ok(0); }
      var backup := instances;
      instances := kept;
      if !saves {
        instances := backup;
        return Err(SaveFailed);
      }
      return Ok(deleted);
    }
  }

  /** Cleanup keeps every record that is not terminal, whatever the mode, and deletes no record it was not asked to. */
  lemma {:induction false} CleanupKeeps(xs: seq<Instance>, n: nat, mode: Mode, ids: set<string>, cutoff: int, x: Instance)
    requires n <= |xs|
    ensures x in Keep(xs, n, mode, ids, cutoff) <==> x in xs[..n] && !Deletes(mode, ids, cutoff, x)
    ensures x in xs[..n] && !x.phase.Terminal() ==> x in Keep(xs, n, mode, ids, cutoff)
  {
    if n > 0 {
      CleanupKeeps(xs, n - 1, mode, ids, cutoff, x);
      assert xs[..n] == xs[..n - 1] + [xs[n - 1]];
    }
  }

  /** Once every record of an id is cleaned up, an update of that id fails. */
  lemma CleanedRecordCannotBeUpdated(xs: seq<Instance>, mode: Mode, ids: set<string>, cutoff: int, x: Instance)
    requires forall y :: y in xs && y.id == x.id ==> Deletes(mode, ids, cutoff, y)
    ensures First(Keep(xs, |xs|, mode, ids, cutoff), x.id) < 0
  {
    var kept := Keep(xs, |xs|, mode, ids, cutoff);
    assert xs[..|xs|] == xs;
    forall j | 0 <= j < |kept| ensures kept[j].id != x.id { CleanupKeeps(xs, |xs|, mode, ids, cutoff, kept[j]); }
  }
}
