/** Which instances a pipeline stop targets, entry by entry, and the order of a group stop and restart. */
module PipelineStop {
  import Catalog
  import LaunchState

  type Entry = Catalog.PipelineModel

  datatype Instance = Instance(id: string, modelId: string, pipelineId: string, entryId: string, phase: LaunchState.Phase)

  /** Attributed to this entry. */
  predicate Own(x: Instance, pipelineId: string, entryId: string) {
    x.pipelineId == pipelineId && x.entryId == entryId && x.phase.InFlight()
  }

  /** Owned by the pipeline without an entry, running this model. */
  predicate Legacy(x: Instance, pipelineId: string, modelId: string) {
    x.pipelineId == pipelineId && x.entryId == "" && x.phase.InFlight() && x.modelId == modelId
  }

  function OwnIds(insts: seq<Instance>, n: nat, pipelineId: string, entryId: string): seq<string>
    requires n <= |insts|
  {
    if n == 0 then []
    else OwnIds(insts, n - 1, pipelineId, entryId) + (if Own(insts[n - 1], pipelineId, entryId) then [insts[n - 1].id] else [])
  }

  function LegacyIds(insts: seq<Instance>, n: nat, pipelineId: string, modelId: string): seq<string>
    requires n <= |insts|
  {
    if n == 0 then []
    else LegacyIds(insts, n - 1, pipelineId, modelId) + (if Legacy(insts[n - 1], pipelineId, modelId) then [insts[n - 1].id] else [])
  }

  predicate FirstOfModel(entries: seq<Entry>, i: nat)
    requires i < |entries|
  {
    forall j :: 0 <= j < i ==> entries[j].modelId != entries[i].modelId
  }

  /** What entry i stops. */
  function Targets(entries: seq<Entry>, pipelineId: string, insts: seq<Instance>, i: nat): seq<string>
    requires i < |entries|
  {
    OwnIds(insts, |insts|, pipelineId, entries[i].id)
    + (if FirstOfModel(entries, i) then LegacyIds(insts, |insts|, pipelineId, entries[i].modelId) else [])
  }

  lemma {:induction false} NoOwnIds(insts: seq<Instance>, n: nat, pipelineId: string, entryId: string)
    requires n <= |insts| && forall j :: 0 <= j < n ==> !Own(insts[j], pipelineId, entryId)
    ensures OwnIds(insts, n, pipelineId, entryId) == []
  {
    if n > 0 { NoOwnIds(insts, n - 1, pipelineId, entryId); }
  }

  lemma {:induction false} NoLegacyIds(insts: seq<Instance>, n: nat, pipelineId: string, modelId: string)
    requires n <= |insts| && forall j :: 0 <= j < n ==> !Legacy(insts[j], pipelineId, modelId)
    ensures LegacyIds(insts, n, pipelineId, modelId) == []
  {
    if n > 0 { NoLegacyIds(insts, n - 1, pipelineId, modelId); }
  }

  predicate AreTargets(targets: seq<seq<string>>, entries: seq<Entry>, pipelineId: string, insts: seq<Instance>) {
    |targets| == |entries| && forall i :: 0 <= i < |entries| ==> targets[i] == Targets(entries, pipelineId, insts, i)
  }

  lemma TargetsParts(entries: seq<Entry>, pipelineId: string, insts: seq<Instance>, i: nat)
    requires i < |entries|
    ensures var own := OwnIds(insts, |insts|, pipelineId, entries[i].id);
            Targets(entries, pipelineId, insts, i) ==
              if FirstOfModel(entries, i) then own + LegacyIds(insts, |insts|, pipelineId, entries[i].modelId) else own
  {
  }

  lemma OwnStart(insts: seq<Instance>, pipelineId: string, entryId: string)
    ensures OwnIds(insts, 0, pipelineId, entryId) == []
  {
  }

  lemma OwnStep(insts: seq<Instance>, n: nat, pipelineId: string, entryId: string)
    requires n < |insts|
    ensures OwnIds(insts, n + 1, pipelineId, entryId) ==
              if Own(insts[n], pipelineId, entryId) then OwnIds(insts, n, pipelineId, entryId) + [insts[n].id]
              else OwnIds(insts, n, pipelineId, entryId)
  {
  }

  method StopTargets(entries: seq<Entry>, pipelineId: string, insts: seq<Instance>) returns (targets: seq<seq<string>>)
    ensures AreTargets(targets, entries, pipelineId, insts)
  {
    hide OwnIds, LegacyIds, FirstOfModel, Targets, ListOf;
    var claimed := Claimed(entries, pipelineId, insts);
    var legacyByModel := LegacyByModel(pipelineId, insts);
    var firstOfModel := FirstByModel(entries);
    targets := [];
    for i := 0 to |entries|
      invariant |targets| == i
      invariant forall j :: 0 <= j < i ==> targets[j] == Targets(entries, pipelineId, insts, j)
    {
      var m := entries[i];
      var ids: seq<string> := [];
      if claimed[i] {
        OwnStart(insts, pipelineId, m.id);
        for n := 0 to |insts|
          invariant ids == OwnIds(insts, n, pipelineId, m.id)
        {
          OwnStep(insts, n, pipelineId, m.id);
          if Own(insts[n], pipelineId, m.id) { ids := ids + [insts[n].id]; }
        }
      } else {
        NoOwnIds(insts, |insts|, pipelineId, m.id);
      }
      if firstOfModel[m.modelId] == i {
        ids := ids + ListOf(legacyByModel, m.modelId);
      }
      TargetsParts(entries, pipelineId, insts, i);
      targets := targets + [ids];
    }
  }

  method Claimed(entries: seq<Entry>, pipelineId: string, insts: seq<Instance>) returns (claimed: seq<bool>)
    ensures |claimed| == |entries|
    ensures forall i :: 0 <= i < |entries| ==> (claimed[i] <==> exists n :: 0 <= n < |insts| && Own(insts[n], pipelineId, entries[i].id))
  {
    claimed := [];
    for i := 0 to |entries|
      invariant |claimed| == i
      invariant forall j :: 0 <= j < i ==> (claimed[j] <==> exists n :: 0 <= n < |insts| && Own(insts[n], pipelineId, entries[j].id))
    {
      var found := false;
      for n := 0 to |insts|
        invariant !found && forall k :: 0 <= k < n ==> !Own(insts[k], pipelineId, entries[i].id)
      {
        if Own(insts[n], pipelineId, entries[i].id) {
          found := true;
          break;
        }
      }
      claimed := claimed + [found];
    }
  }

  lemma LegacyStep(insts: seq<Instance>, n: nat, pipelineId: string, modelId: string)
    requires n < |insts|
    ensures LegacyIds(insts, n + 1, pipelineId, modelId) ==
              if Legacy(insts[n], pipelineId, modelId) then LegacyIds(insts, n, pipelineId, modelId) + [insts[n].id]
              else LegacyIds(insts, n, pipelineId, modelId)
  {
  }

  method LegacyByModel(pipelineId: string, insts: seq<Instance>) returns (byModel: map<string, seq<string>>)
    ensures forall m :: ListOf(byModel, m) == LegacyIds(insts, |insts|, pipelineId, m)
  {
    hide LegacyIds;
    byModel := map[];
    forall m ensures ListOf(byModel, m) == LegacyIds(insts, 0, pipelineId, m) { NoLegacyIds(insts, 0, pipelineId, m); }
    for n := 0 to |insts|
      invariant forall m :: ListOf(byModel, m) == LegacyIds(insts, n, pipelineId, m)
    {
      var x := insts[n];
      ghost var before := byModel;
      if x.pipelineId == pipelineId && x.entryId == "" && x.phase.InFlight() {
        byModel := byModel[x.modelId := ListOf(byModel, x.modelId) + [x.id]];
      }
      forall m ensures ListOf(byModel, m) == LegacyIds(insts, n + 1, pipelineId, m) {
        assert ListOf(before, m) == LegacyIds(insts, n, pipelineId, m);
        LegacyStep(insts, n, pipelineId, m);
      }
    }
  }

  function ListOf(byModel: map<string, seq<string>>, m: string): seq<string> { if m in byModel then byModel[m] else [] }

  method FirstByModel(entries: seq<Entry>) returns (first: map<string, nat>)
    ensures forall i :: 0 <= i < |entries| ==> entries[i].modelId in first && (first[entries[i].modelId] == i <==> FirstOfModel(entries, i))
  {
    first := map[];
    for n := 0 to |entries|
      invariant forall m :: m in first <==> exists j :: 0 <= j < n && entries[j].modelId == m
      invariant forall m :: m in first ==> first[m] < n && entries[first[m]].modelId == m && FirstOfModel(entries, first[m])
    {
      if entries[n].modelId !in first { first := first[entries[n].modelId := n]; }
    }
  }

  /* ---- the partition ---- */

  predicate DistinctEntries(entries: seq<Entry>) {
    && (forall i :: 0 <= i < |entries| ==> entries[i].id != "")
    && (forall i, j :: 0 <= i < j < |entries| ==> entries[i].id != entries[j].id)
  }

  predicate DistinctInstances(insts: seq<Instance>) { forall i, j :: 0 <= i < j < |insts| ==> insts[i].id != insts[j].id }

  /** The entry responsible for an instance: its own, or the first of its model when it has none. */
  predicate Responsible(entries: seq<Entry>, i: nat, x: Instance)
    requires i < |entries|
  {
    if x.entryId != "" then entries[i].id == x.entryId else entries[i].modelId == x.modelId && FirstOfModel(entries, i)
  }

  predicate Active(x: Instance, pipelineId: string) { x.pipelineId == pipelineId && x.phase.InFlight() }

  lemma SameInstance(insts: seq<Instance>, i: nat, j: nat)
    requires i < |insts| && j < |insts| && DistinctInstances(insts)
    ensures insts[i].id == insts[j].id ==> i == j
  {
  }

  lemma OneMore(ids: seq<string>, x: string, id: string)
    ensures multiset(ids + [x])[id] == multiset(ids)[id] + (if x == id then 1 else 0)
  {
    assert multiset(ids + [x]) == multiset(ids) + multiset{x};
  }

  lemma OwnNext(insts: seq<Instance>, n: nat, pipelineId: string, entryId: string, id: string)
    requires n <= |insts|
    ensures multiset(OwnIds(insts, n, pipelineId, entryId))[id] ==
              if n == 0 then 0
              else multiset(OwnIds(insts, n - 1, pipelineId, entryId))[id] + (if Own(insts[n - 1], pipelineId, entryId) && insts[n - 1].id == id then 1 else 0)
  {
    hide Own;
    if n > 0 {
      var ids := OwnIds(insts, n - 1, pipelineId, entryId);
      OneMore(ids, insts[n - 1].id, id);
      assert ids + [] == ids;
    }
  }

  lemma LegacyNext(insts: seq<Instance>, n: nat, pipelineId: string, modelId: string, id: string)
    requires n <= |insts|
    ensures multiset(LegacyIds(insts, n, pipelineId, modelId))[id] ==
              if n == 0 then 0
              else multiset(LegacyIds(insts, n - 1, pipelineId, modelId))[id] + (if Legacy(insts[n - 1], pipelineId, modelId) && insts[n - 1].id == id then 1 else 0)
  {
    hide Legacy;
    if n > 0 {
      var ids := LegacyIds(insts, n - 1, pipelineId, modelId);
      OneMore(ids, insts[n - 1].id, id);
      assert ids + [] == ids;
    }
  }

  lemma {:induction false} OwnCount(insts: seq<Instance>, n: nat, pipelineId: string, entryId: string, k: nat)
    requires n <= |insts| && k < |insts| && DistinctInstances(insts)
    ensures multiset(OwnIds(insts, n, pipelineId, entryId))[insts[k].id] == if k < n && Own(insts[k], pipelineId, entryId) then 1 else 0
  {
    hide Own, DistinctInstances, OwnIds;
    OwnNext(insts, n, pipelineId, entryId, insts[k].id);
    if n > 0 {
      OwnCount(insts, n - 1, pipelineId, entryId, k);
      SameInstance(insts, n - 1, k);
    }
  }

  lemma {:induction false} LegacyCount(insts: seq<Instance>, n: nat, pipelineId: string, modelId: string, k: nat)
    requires n <= |insts| && k < |insts| && DistinctInstances(insts)
    ensures multiset(LegacyIds(insts, n, pipelineId, modelId))[insts[k].id] == if k < n && Legacy(insts[k], pipelineId, modelId) then 1 else 0
  {
    hide Legacy, DistinctInstances, LegacyIds;
    LegacyNext(insts, n, pipelineId, modelId, insts[k].id);
    if n > 0 {
      LegacyCount(insts, n - 1, pipelineId, modelId, k);
      SameInstance(insts, n - 1, k);
    }
  }

  /** An active owned instance is in the list of the entry responsible for it, once, and in no other. */
  lemma TargetCount(entries: seq<Entry>, pipelineId: string, insts: seq<Instance>, i: nat, k: nat)
    requires DistinctEntries(entries) && DistinctInstances(insts) && i < |entries| && k < |insts|
    ensures multiset(Targets(entries, pipelineId, insts, i))[insts[k].id] ==
              if Active(insts[k], pipelineId) && Responsible(entries, i, insts[k]) then 1 else 0
  {
    OwnCount(insts, |insts|, pipelineId, entries[i].id, k);
    LegacyCount(insts, |insts|, pipelineId, entries[i].modelId, k);
  }

  /** At most one entry is responsible for an instance. */
  lemma ResponsibleIsUnique(entries: seq<Entry>, i: nat, j: nat, x: Instance)
    requires DistinctEntries(entries) && i < |entries| && j < |entries|
    ensures Responsible(entries, i, x) && Responsible(entries, j, x) ==> i == j
  {
  }

  /** The instance names the entry, or no entry and the entry's model. */
  predicate Names(x: Instance, e: Entry) { if x.entryId != "" then e.id == x.entryId else e.modelId == x.modelId }

  predicate Listed(entries: seq<Entry>, n: nat, x: Instance)
    requires n <= |entries|
  { exists i :: 0 <= i < n && Names(x, entries[i]) }

  predicate HasResponsible(entries: seq<Entry>, n: nat, x: Instance)
    requires n <= |entries|
  { exists i :: 0 <= i < n && Responsible(entries, i, x) }

  /** Some entry is responsible exactly for the instances that name a listed entry, or none and a listed model. */
  lemma {:induction false} ResponsibleExists(entries: seq<Entry>, n: nat, x: Instance)
    requires n <= |entries|
    ensures HasResponsible(entries, n, x) <==> Listed(entries, n, x)
  {
    if n > 0 {
      ResponsibleExists(entries, n - 1, x);
      if Names(x, entries[n - 1]) {
        if Responsible(entries, n - 1, x) {
        } else {
          var j :| 0 <= j < n - 1 && entries[j].modelId == entries[n - 1].modelId;
          assert Names(x, entries[j]);
        }
      }
      if i :| 0 <= i < n && Responsible(entries, i, x) { assert Names(x, entries[i]); }
    }
  }

  /** How often an id occurs in the lists of the first n entries. */
  function Occurrences(entries: seq<Entry>, pipelineId: string, insts: seq<Instance>, n: nat, id: string): nat
    requires n <= |entries|
  {
    if n == 0 then 0 else Occurrences(entries, pipelineId, insts, n - 1, id) + multiset(Targets(entries, pipelineId, insts, n - 1))[id]
  }

  lemma OneMoreEntry(entries: seq<Entry>, n: nat, x: Instance)
    requires DistinctEntries(entries) && 0 < n <= |entries|
    ensures HasResponsible(entries, n, x) <==> HasResponsible(entries, n - 1, x) || Responsible(entries, n - 1, x)
    ensures !(HasResponsible(entries, n - 1, x) && Responsible(entries, n - 1, x))
  {
    if i :| 0 <= i < n - 1 && Responsible(entries, i, x) { ResponsibleIsUnique(entries, i, n - 1, x); }
  }

  lemma {:induction false} CountedOnce(entries: seq<Entry>, pipelineId: string, insts: seq<Instance>, n: nat, k: nat)
    requires DistinctEntries(entries) && DistinctInstances(insts) && n <= |entries| && k < |insts|
    ensures Occurrences(entries, pipelineId, insts, n, insts[k].id) ==
              if Active(insts[k], pipelineId) && HasResponsible(entries, n, insts[k]) then 1 else 0
  {
    hide Targets, Responsible, DistinctEntries, DistinctInstances;
    if n > 0 {
      CountedOnce(entries, pipelineId, insts, n - 1, k);
      TargetCount(entries, pipelineId, insts, n - 1, k);
      OneMoreEntry(entries, n, insts[k]);
      hide HasResponsible;
    }
  }

  /** Every active owned instance that names a listed entry, or no entry and a listed model, is stopped by exactly one
  entry, exactly once; no other listed instance is stopped. */
  lemma TargetsPartition(entries: seq<Entry>, pipelineId: string, insts: seq<Instance>, k: nat)
    requires DistinctEntries(entries) && DistinctInstances(insts) && k < |insts|
    ensures var x := insts[k];
            Occurrences(entries, pipelineId, insts, |entries|, x.id) ==
              if x.pipelineId == pipelineId && x.phase.InFlight() && Listed(entries, |entries|, x) then 1 else 0
  {
    CountedOnce(entries, pipelineId, insts, |entries|, k);
    ResponsibleExists(entries, |entries|, insts[k]);
  }

  /** Nothing but instances appears in a target list. */
  lemma {:induction false} TargetsAreInstances(entries: seq<Entry>, pipelineId: string, insts: seq<Instance>, i: nat, id: string)
    requires i < |entries| && id in Targets(entries, pipelineId, insts, i)
    ensures exists k :: 0 <= k < |insts| && insts[k].id == id && Active(insts[k], pipelineId)
                        && (insts[k].entryId == entries[i].id || (insts[k].entryId == "" && insts[k].modelId == entries[i].modelId))
  {
    if id in OwnIds(insts, |insts|, pipelineId, entries[i].id) {
      var k := OwnIdOf(insts, |insts|, pipelineId, entries[i].id, id);
    } else {
      var k := LegacyIdOf(insts, |insts|, pipelineId, entries[i].modelId, id);
    }
  }

  lemma {:induction false} OwnIdOf(insts: seq<Instance>, n: nat, pipelineId: string, entryId: string, id: string) returns (k: nat)
    requires n <= |insts| && id in OwnIds(insts, n, pipelineId, entryId)
    ensures k < n && insts[k].id == id && Own(insts[k], pipelineId, entryId)
  {
    if id in OwnIds(insts, n - 1, pipelineId, entryId) { k := OwnIdOf(insts, n - 1, pipelineId, entryId, id); } else { k := n - 1; }
  }

  lemma {:induction false} LegacyIdOf(insts: seq<Instance>, n: nat, pipelineId: string, modelId: string, id: string) returns (k: nat)
    requires n <= |insts| && id in LegacyIds(insts, n, pipelineId, modelId)
    ensures k < n && insts[k].id == id && Legacy(insts[k], pipelineId, modelId)
  {
    if id in LegacyIds(insts, n - 1, pipelineId, modelId) { k := LegacyIdOf(insts, n - 1, pipelineId, modelId, id); } else { k := n - 1; }
  }

  /* ---- driving the supervisor ---- */

  /** One call and, when it is the last of a history, what its answer is about: a stop that succeeded, or a start that
  shutdown did not refuse. */
  datatype Call = Stop(id: string) | Start(index: nat)

  function CallsOf(ids: seq<string>): seq<Call> { seq(|ids|, i requires 0 <= i < |ids| => Stop(ids[i])) }

  /** The stop calls of the entries from the last down to i. */
  function StopCalls(targets: seq<seq<string>>, i: nat): seq<Call>
    requires i <= |targets|
    decreases |targets| - i
  {
    if i == |targets| then [] else StopCalls(targets, i + 1) + CallsOf(targets[i])
  }

  function StartCalls(n: nat): seq<Call> { seq(n, i requires 0 <= i < n => Start(i)) }

  datatype EntryStop = EntryStop(index: nat, stopped: seq<string>, failed: seq<string>)

  /** Those of the first n instances of an entry whose stop was answered this way, in order. */
  function Answered(answers: seq<Call> -> bool, before: seq<Call>, ids: seq<string>, n: nat, good: bool): seq<string>
    requires n <= |ids|
  {
    if n == 0 then []
    else Answered(answers, before, ids, n - 1, good) + (if answers(before + CallsOf(ids[..n])) == good then [ids[n - 1]] else [])
  }

  function Report(answers: seq<Call> -> bool, before: seq<Call>, index: nat, ids: seq<string>): EntryStop {
    EntryStop(index, Answered(answers, before, ids, |ids|, true), Answered(answers, before, ids, |ids|, false))
  }

  /** No target is reported twice or lost. */
  lemma {:induction false} ReportsPartition(answers: seq<Call> -> bool, before: seq<Call>, ids: seq<string>, n: nat)
    requires n <= |ids|
    ensures multiset(Answered(answers, before, ids, n, true)) + multiset(Answered(answers, before, ids, n, false)) == multiset(ids[..n])
  {
    hide Answered;
    if n > 0 {
      ReportsPartition(answers, before, ids, n - 1);
      AnsweredNext(answers, before, ids, n, true);
      AnsweredNext(answers, before, ids, n, false);
      assert ids[..n] == ids[..n - 1] + [ids[n - 1]];
      Appended(ids[..n - 1], ids[n - 1]);
    } else {
      NothingAnswered(answers, before, ids, true);
      NothingAnswered(answers, before, ids, false);
    }
  }

  lemma NothingAnswered(answers: seq<Call> -> bool, before: seq<Call>, ids: seq<string>, good: bool)
    ensures Answered(answers, before, ids, 0, good) == []
  {
  }

  lemma Appended(ids: seq<string>, id: string)
    ensures multiset(ids + [id]) == multiset(ids) + multiset{id}
  {
  }

  lemma AnsweredNext(answers: seq<Call> -> bool, before: seq<Call>, ids: seq<string>, n: nat, good: bool)
    requires 0 < n <= |ids|
    ensures multiset(Answered(answers, before, ids, n, good)) ==
              multiset(Answered(answers, before, ids, n - 1, good))
              + (if answers(before + CallsOf(ids[..n])) == good then multiset{ids[n - 1]} else multiset{})
  {
    var fewer := Answered(answers, before, ids, n - 1, good);
    Appended(fewer, ids[n - 1]);
    assert fewer + [] == fewer;
  }

  /** The reports of the entries from the last down to i, in that order. */
  ghost predicate Reported(answers: seq<Call> -> bool, before: seq<Call>, targets: seq<seq<string>>, i: nat, results: seq<EntryStop>)
    requires i <= |targets|
  {
    && |results| == |targets| - i
    && forall k :: 0 <= k < |results| ==>
         var j := |targets| - 1 - k; results[k] == Report(answers, before + StopCalls(targets, j + 1), j, targets[j])
  }

  lemma NothingReported(answers: seq<Call> -> bool, before: seq<Call>, targets: seq<seq<string>>)
    ensures Reported(answers, before, targets, |targets|, []) && NoneFailed([]) && before == before + StopCalls(targets, |targets|)
  {
  }

  lemma ReportedNext(answers: seq<Call> -> bool, before: seq<Call>, targets: seq<seq<string>>, i: nat, results: seq<EntryStop>, out: EntryStop)
    requires i < |targets| && Reported(answers, before, targets, i + 1, results)
    requires out == Report(answers, before + StopCalls(targets, i + 1), i, targets[i])
    ensures Reported(answers, before, targets, i, results + [out])
    ensures before + StopCalls(targets, i) == before + StopCalls(targets, i + 1) + CallsOf(targets[i])
  {
    hide Report;
  }

  predicate NoneFailed(results: seq<EntryStop>) { forall k :: 0 <= k < |results| ==> results[k].failed == [] }

  lemma NoneFailedMore(results: seq<EntryStop>, out: EntryStop)
    ensures NoneFailed(results + [out]) <==> NoneFailed(results) && out.failed == []
  {
    if NoneFailed(results + [out]) {
      forall k | 0 <= k < |results| ensures results[k].failed == [] { assert (results + [out])[k].failed == []; }
      assert (results + [out])[|results|].failed == [];
    }
  }

  /** Every call of the list, made after `before`, was answered well. */
  predicate AllGood(answers: seq<Call> -> bool, before: seq<Call>, calls: seq<Call>) {
    forall n :: 0 < n <= |calls| ==> answers(before + calls[..n])
  }

  lemma {:induction false} NothingFailed(answers: seq<Call> -> bool, before: seq<Call>, ids: seq<string>, n: nat)
    requires n <= |ids|
    ensures Answered(answers, before, ids, n, false) == [] <==> AllGood(answers, before, CallsOf(ids[..n]))
  {
    if n > 0 {
      NothingFailed(answers, before, ids, n - 1);
      var calls, fewer := CallsOf(ids[..n]), CallsOf(ids[..n - 1]);
      assert calls[..n] == calls;
      forall m | 0 < m < n ensures calls[..m] == fewer[..m] { }
      if AllGood(answers, before, calls) {
        forall m | 0 < m <= n - 1 ensures answers(before + fewer[..m]) { assert calls[..m] == fewer[..m]; }
        assert answers(before + calls[..n]);
      }
    }
  }

  lemma AllGoodConcat(answers: seq<Call> -> bool, before: seq<Call>, a: seq<Call>, b: seq<Call>)
    ensures AllGood(answers, before, a + b) <==> AllGood(answers, before, a) && AllGood(answers, before + a, b)
  {
    forall n | 0 < n <= |a| ensures (a + b)[..n] == a[..n] { }
    forall n | 0 < n <= |b| ensures before + (a + b)[..|a| + n] == (before + a) + b[..n] { assert (a + b)[..|a| + n] == a + b[..n]; }
    if AllGood(answers, before, a + b) {
      forall n | 0 < n <= |a| ensures answers(before + a[..n]) { assert (a + b)[..n] == a[..n]; }
      forall n | 0 < n <= |b| ensures answers((before + a) + b[..n]) { assert answers(before + (a + b)[..|a| + n]); }
    }
    if AllGood(answers, before, a) && AllGood(answers, before + a, b) {
      forall n | 0 < n <= |a + b| ensures answers(before + (a + b)[..n]) {
        if n > |a| { assert answers((before + a) + b[..n - |a|]); }
      }
    }
  }

  /** A group stop reports a failure exactly when one of the calls it made failed. */
  lemma {:induction false} FailuresAreReported(answers: seq<Call> -> bool, before: seq<Call>, targets: seq<seq<string>>, i: nat, results: seq<EntryStop>)
    requires i <= |targets| && Reported(answers, before, targets, i, results)
    ensures NoneFailed(results) <==> AllGood(answers, before, StopCalls(targets, i))
    decreases |results|
  {
    if i < |targets| {
      var n := |results| - 1;
      FailuresAreReported(answers, before, targets, i + 1, results[..n]);
      assert results == results[..n] + [results[n]];
      NoneFailedMore(results[..n], results[n]);
      assert targets[i][..|targets[i]|] == targets[i];
      NothingFailed(answers, before + StopCalls(targets, i + 1), targets[i], |targets[i]|);
      AllGoodConcat(answers, before, StopCalls(targets, i + 1), CallsOf(targets[i]));
    }
  }

  /** The entries, among the first n, whose start shutdown refused. */
  function Refused(answers: seq<Call> -> bool, before: seq<Call>, n: nat): seq<nat> {
    if n == 0 then [] else Refused(answers, before, n - 1) + (if answers(before + StartCalls(n)) then [] else [n - 1])
  }

  class PipelineService {
    var calls: seq<Call>
    const answers: seq<Call> -> bool

    constructor (answers: seq<Call> -> bool)
      ensures this.answers == answers && calls == []
    {
      this.answers := answers;
      calls := [];
    }

    /** A failed stop is recorded and the remaining targets are still stopped. */
    method StopEntry(index: nat, targets: seq<string>) returns (out: EntryStop)
      modifies this
      ensures calls == old(calls) + CallsOf(targets)
      ensures out == Report(answers, old(calls), index, targets)
    {
      var stopped, failed: seq<string> := [], [];
      for n := 0 to |targets|
        invariant calls == old(calls) + CallsOf(targets[..n])
        invariant stopped == Answered(answers, old(calls), targets, n, true) && failed == Answered(answers, old(calls), targets, n, false)
      {
        assert CallsOf(targets[..n + 1]) == CallsOf(targets[..n]) + [Stop(targets[n])];
        assert calls + [Stop(targets[n])] == old(calls) + CallsOf(targets[..n + 1]);
        calls := calls + [Stop(targets[n])];
        if answers(calls) { stopped := stopped + [targets[n]]; } else { failed := failed + [targets[n]]; }
      }
      assert targets[..|targets|] == targets;
      out := EntryStop(index, stopped, failed);
    }

    /** Entries are stopped in reverse order; the group succeeds exactly when no stop failed. */
    method StopAll(targets: seq<seq<string>>) returns (results: seq<EntryStop>, ok: bool)
      modifies this
      ensures calls == old(calls) + StopCalls(targets, 0)
      ensures Reported(answers, old(calls), targets, 0, results)
      ensures ok <==> NoneFailed(results)
    {
      hide Report, Reported, StopCalls, NoneFailed;
      results, ok := [], true;
      var i := |targets|;
      NothingReported(answers, calls, targets);
      while i > 0
        invariant 0 <= i <= |targets|
        invariant calls == old(calls) + StopCalls(targets, i)
        invariant Reported(answers, old(calls), targets, i, results)
        invariant ok <==> NoneFailed(results)
      {
        i := i - 1;
        var out := StopEntry(i, targets[i]);
        NoneFailedMore(results, out);
        ReportedNext(answers, old(calls), targets, i, results, out);
        results := results + [out];
        if out.failed != [] { ok := false; }
      }
    }

    method StopPipeline(entries: seq<Entry>, pipelineId: string, insts: seq<Instance>) returns (results: seq<EntryStop>, ok: bool, ghost targets: seq<seq<string>>)
      modifies this
      ensures AreTargets(targets, entries, pipelineId, insts)
      ensures calls == old(calls) + StopCalls(targets, 0)
      ensures Reported(answers, old(calls), targets, 0, results)
      ensures ok <==> AllGood(answers, old(calls), StopCalls(targets, 0))
    {
      var t := StopTargets(entries, pipelineId, insts);
      targets := t;
      results, ok := StopAll(t);
      FailuresAreReported(answers, old(calls), t, 0, results);
    }

    /** All stops in reverse order, then all starts in order, whatever the stops answered. */
    method RestartPipeline(entries: seq<Entry>, pipelineId: string, insts: seq<Instance>)
        returns (stops: seq<EntryStop>, refused: seq<nat>, ok: bool, ghost targets: seq<seq<string>>)
      modifies this
      ensures AreTargets(targets, entries, pipelineId, insts)
      ensures calls == old(calls) + StopCalls(targets, 0) + StartCalls(|entries|)
      ensures Reported(answers, old(calls), targets, 0, stops)
      ensures refused == Refused(answers, old(calls) + StopCalls(targets, 0), |entries|)
      ensures ok <==> AllGood(answers, old(calls), StopCalls(targets, 0)) && refused == []
    {
      hide Reported, AllGood, AreTargets, StopCalls;
      stops, ok, targets := StopPipeline(entries, pipelineId, insts);
      ghost var stopped := calls;
      refused := [];
      for i := 0 to |entries|
        invariant calls == stopped + StartCalls(i)
        invariant refused == Refused(answers, stopped, i)
        invariant ok <==> AllGood(answers, old(calls), StopCalls(targets, 0)) && refused == []
      {
        assert StartCalls(i + 1) == StartCalls(i) + [Start(i)];
        assert calls + [Start(i)] == stopped + StartCalls(i + 1);
        calls := calls + [Start(i)];
        if !answers(calls) {
          refused := refused + [i];
          ok := false;
        }
      }
    }
  }
}
