/** The snapshot of a plan stage whose digest is the stage's fingerprint. */
module Snapshot {
  import opened Dag
  import opened Tasks
  import opened PlanSchema
  import opened PlanDocument
  import opened Text
  import opened Wrappers

  // ---- the snapshot ----

  datatype StageTask = StageTask(
    id: Id, kind: string, dependsOn: seq<Id>, outputs: seq<string>, parameterKeys: seq<string>)

  datatype StageSnapshot = StageSnapshot(stage: string, tasks: seq<StageTask>)

  ghost predicate Indexed(tasks: map<Id, Task>) {
    forall id :: id in tasks ==> tasks[id].id == id
  }

  /** `dependsOn` keeps exactly the dependencies inside the stage, with their multiplicity. */
  ghost predicate InsideStage(dependsOn: seq<Id>, task: Task, members: set<Id>) {
    forall d :: multiset(dependsOn)[d] == if d in members then multiset(task.dependsOn)[d] else 0
  }

  ghost predicate IsEntry(e: StageTask, task: Task, members: set<Id>) {
    && e.id == task.id && e.kind == task.kind
    && Sorted(e.dependsOn) && InsideStage(e.dependsOn, task, members)
    && Sorted(e.outputs) && multiset(e.outputs) == multiset(task.outputs)
    && Sorted(e.parameterKeys) && multiset(e.parameterKeys) == multiset(task.parameterKeys)
  }

  function IdsOf(entries: seq<StageTask>): (ids: seq<Id>)
    ensures |ids| == |entries| && forall i :: 0 <= i < |ids| ==> ids[i] == entries[i].id
  {
    seq(|entries|, i requires 0 <= i < |entries| => entries[i].id)
  }

  ghost predicate AreEntries(entries: seq<StageTask>, members: set<Id>, tasks: map<Id, Task>) {
    forall e :: e in entries ==> e.id in tasks && IsEntry(e, tasks[e.id], members)
  }

  /** One entry for every recognised id of the stage, ordered by id. */
  ghost predicate IsSnapshot(snap: StageSnapshot, stage: Stage, tasks: map<Id, Task>) {
    && snap.stage == stage.name
    && AreEntries(snap.tasks, Elems(stage.tasks), tasks)
    && Sorted(IdsOf(snap.tasks))
    && Recognised(IdsOf(snap.tasks), stage.tasks, tasks)
  }

  ghost predicate Recognised(ids: seq<Id>, listed: seq<Id>, tasks: map<Id, Task>) {
    forall d :: multiset(ids)[d] == if d in tasks then multiset(listed)[d] else 0
  }

  method FilterInside(dependsOn: seq<Id>, members: set<Id>) returns (kept: seq<Id>)
    ensures forall d :: multiset(kept)[d] == if d in members then multiset(dependsOn)[d] else 0
  {
    kept := [];
    for i := 0 to |dependsOn|
      invariant forall d :: multiset(kept)[d] == if d in members then multiset(dependsOn[..i])[d] else 0
    {
      assert dependsOn[..i + 1] == dependsOn[..i] + [dependsOn[i]];
      if dependsOn[i] in members {
        kept := kept + [dependsOn[i]];
      }
    }
    assert dependsOn[..|dependsOn|] == dependsOn;
  }

  method MakeEntry(task: Task, members: set<Id>) returns (e: StageTask)
    ensures IsEntry(e, task, members)
  {
    var depends := FilterInside(task.dependsOn, members);
    var keys := ListKeys(task.parameterKeys);
    return StageTask(task.id, task.kind, Sort(depends), Sort(task.outputs), Sort(keys));
  }

  function InsertEntry(x: StageTask, s: seq<StageTask>): seq<StageTask> {
    if s == [] || Le(x.id, s[0].id) then [x] + s else [s[0]] + InsertEntry(x, s[1..])
  }

  lemma {:induction false} InsertedEntry(x: StageTask, s: seq<StageTask>)
    ensures multiset(InsertEntry(x, s)) == multiset(s) + multiset{x}
  {
    if s != [] {
      assert s == [s[0]] + s[1..];
      if !Le(x.id, s[0].id) {
        InsertedEntry(x, s[1..]);
      }
    }
  }

  lemma {:induction false} InsertedId(x: StageTask, s: seq<StageTask>)
    ensures IdsOf(InsertEntry(x, s)) == Insert(x.id, IdsOf(s))
  {
    if s == [] {
      assert IdsOf(s) == [];
    } else if Le(x.id, s[0].id) {
      assert IdsOf(s) != [] && IdsOf(s)[0] == s[0].id;
      IdsOfCons(x, s);
    } else {
      assert IdsOf(s)[0] == s[0].id && IdsOf(s)[1..] == IdsOf(s[1..]);
      InsertedId(x, s[1..]);
      IdsOfCons(s[0], InsertEntry(x, s[1..]));
    }
  }

  lemma IdsOfCons(e: StageTask, s: seq<StageTask>)
    ensures IdsOf([e] + s) == [e.id] + IdsOf(s)
  {
  }

  function SortEntries(s: seq<StageTask>): (r: seq<StageTask>)
    ensures multiset(r) == multiset(s) && IdsOf(r) == Sort(IdsOf(s))
  {
    if s == [] then []
    else
      assert s == [s[0]] + s[1..];
      assert IdsOf(s)[1..] == IdsOf(s[1..]);
      InsertedEntry(s[0], SortEntries(s[1..]));
      InsertedId(s[0], SortEntries(s[1..]));
      InsertEntry(s[0], SortEntries(s[1..]))
  }

  method ComputeStageSnapshot(stage: Stage, tasks: map<Id, Task>) returns (r: Option<StageSnapshot>)
    requires Indexed(tasks)
    ensures r.None? <==> forall id :: id in stage.tasks ==> id !in tasks
    ensures r.Some? ==> IsSnapshot(r.value, stage, tasks)
  {
    var members := Elems(stage.tasks);
    var entries: seq<StageTask> := [];
    for i := 0 to |stage.tasks|
      invariant AreEntries(entries, members, tasks)
      invariant Recognised(IdsOf(entries), stage.tasks[..i], tasks)
    {
      var id := stage.tasks[i];
      assert stage.tasks[..i + 1] == stage.tasks[..i] + [id];
      if id in tasks {
        var e := MakeEntry(tasks[id], members);
        assert IdsOf(entries + [e]) == IdsOf(entries) + [id];
        entries := entries + [e];
      }
    }
    assert stage.tasks[..|stage.tasks|] == stage.tasks;
    NoneRecognised(entries, stage.tasks, tasks);
    if |entries| == 0 {
      return None;
    }
    var sorted := SortEntries(entries);
    assert forall e :: e in sorted ==> e in multiset(sorted);
    return Some(StageSnapshot(stage.name, sorted));
  }

  lemma NoneRecognised(entries: seq<StageTask>, listed: seq<Id>, tasks: map<Id, Task>)
    requires Recognised(IdsOf(entries), listed, tasks)
    ensures entries == [] <==> forall id :: id in listed ==> id !in tasks
  {
    if entries == [] {
      forall id | id in listed
        ensures id !in tasks
      {
        assert multiset(IdsOf(entries))[id] == 0 && multiset(listed)[id] > 0;
      }
    } else {
      var id := entries[0].id;
      assert id in multiset(IdsOf(entries)) by { assert IdsOf(entries)[0] == id; }
      assert id in tasks && id in multiset(listed);
    }
  }

  /** Entry by entry: one for each listed id that is a task, ordered by id, with the task's type, its outputs
      and parameter names sorted, and of its dependencies those on members of the stage, sorted. */
  lemma SnapshotMeans(snap: StageSnapshot, stage: Stage, tasks: map<Id, Task>, e: StageTask)
    requires IsSnapshot(snap, stage, tasks) && e in snap.tasks
    ensures snap.stage == stage.name && e.id in tasks && e.id in stage.tasks
    ensures e.id == tasks[e.id].id && e.kind == tasks[e.id].kind
    ensures Sorted(e.outputs) && multiset(e.outputs) == multiset(tasks[e.id].outputs)
    ensures Sorted(e.parameterKeys) && multiset(e.parameterKeys) == multiset(tasks[e.id].parameterKeys)
    ensures Sorted(e.dependsOn)
    ensures forall d :: multiset(e.dependsOn)[d] == if d in stage.tasks then multiset(tasks[e.id].dependsOn)[d] else 0
    ensures forall i, j :: 0 <= i < j < |snap.tasks| ==> Le(snap.tasks[i].id, snap.tasks[j].id)
  {
    EntryInLayer(e, snap, stage, tasks);
    assert forall i, j :: 0 <= i < j < |snap.tasks| ==> Le(IdsOf(snap.tasks)[i], IdsOf(snap.tasks)[j]);
  }

  // ---- the snapshot does not depend on listing order ----

  /** Tasks that differ at most in the order of their lists and in dependencies on other stages. */
  ghost predicate SameInside(t: Task, u: Task, members: set<Id>) {
    && t.id == u.id && t.kind == u.kind && t.parameterKeys == u.parameterKeys
    && (forall d :: d in members ==> multiset(t.dependsOn)[d] == multiset(u.dependsOn)[d])
    && multiset(t.outputs) == multiset(u.outputs)
  }

  lemma EntryUnique(e: StageTask, f: StageTask, t: Task, u: Task, members: set<Id>)
    requires SameInside(t, u, members) && IsEntry(e, t, members) && IsEntry(f, u, members)
    ensures e == f
  {
    assert multiset(e.dependsOn) == multiset(f.dependsOn);
    SortedUnique(e.dependsOn, f.dependsOn);
    SortedUnique(e.outputs, f.outputs);
    SortedUnique(e.parameterKeys, f.parameterKeys);
  }

  /** Reordering a stage's tasks, or the outputs, dependencies and parameters of its tasks, or changing how
      they depend on other stages, leaves its snapshot, and so its fingerprint, as it is. */
  lemma SnapshotIgnoresOrder(s: Stage, tasks: map<Id, Task>, s': Stage, tasks': map<Id, Task>,
                             snap: StageSnapshot, snap': StageSnapshot)
    requires s.name == s'.name && multiset(s.tasks) == multiset(s'.tasks)
    requires tasks.Keys == tasks'.Keys
    requires forall id :: id in tasks && id in s.tasks ==> SameInside(tasks[id], tasks'[id], Elems(s.tasks))
    requires IsSnapshot(snap, s, tasks) && IsSnapshot(snap', s', tasks')
    ensures snap == snap'
  {
    var ids, ids' := IdsOf(snap.tasks), IdsOf(snap'.tasks);
    SameRecognised(ids, ids', s, s', tasks, tasks');
    SortedUnique(ids, ids');
    SameElems(s.tasks, s'.tasks);
    forall i | 0 <= i < |snap.tasks|
      ensures snap.tasks[i] == snap'.tasks[i]
    {
      var e, f := snap.tasks[i], snap'.tasks[i];
      assert e in snap.tasks && f in snap'.tasks && ids[i] == ids'[i];
      EntryInLayer(e, snap, s, tasks);
      EntryUnique(e, f, tasks[e.id], tasks'[f.id], Elems(s.tasks));
    }
  }

  lemma SameRecognised(ids: seq<Id>, ids': seq<Id>, s: Stage, s': Stage, tasks: map<Id, Task>, tasks': map<Id, Task>)
    requires multiset(s.tasks) == multiset(s'.tasks) && tasks.Keys == tasks'.Keys
    requires Recognised(ids, s.tasks, tasks) && Recognised(ids', s'.tasks, tasks')
    ensures multiset(ids) == multiset(ids')
  {
    forall d
      ensures multiset(ids)[d] == multiset(ids')[d]
    {
      assert d in tasks <==> d in tasks.Keys;
    }
  }

  lemma SameElems(s: seq<Id>, t: seq<Id>)
    requires multiset(s) == multiset(t)
    ensures Elems(s) == Elems(t)
  {
    forall d
      ensures d in s <==> d in t
    {
      assert d in s <==> d in multiset(s);
      assert d in t <==> d in multiset(t);
    }
  }

  // ---- stages are layers, so no dependency survives in a snapshot ----

  lemma NoDependencyInsideLayer(g: Graph, k: nat, v: Id)
    requires v in Level(g, k)
    ensures forall d :: d in g[v] ==> d !in Level(g, k)
  {
    if k > 0 {
      assert v in Ready(g, Peel(g, k));
    }
  }

  /** In a normalised document no snapshot mentions a dependency. */
  lemma SnapshotsHaveNoDependencies(input: Document, out: Document, k: nat, tasks: map<Id, Task>, snap: StageSnapshot)
    requires UniqueIds(input.tasks) && IsNormalized(input, out) && k < |out.executionLayers|
    requires forall id :: id in tasks ==> tasks[id] in input.tasks && tasks[id].id == id
    requires IsSnapshot(snap, out.executionLayers[k], tasks)
    ensures forall e :: e in snap.tasks ==> e.dependsOn == []
  {
    var g := GraphOf(input.tasks);
    var layers :| IsHints(g, IndexOf(input.tasks), out.executionOrder, layers)
      && out == input.(version := Version(input), executionOrder := out.executionOrder,
                       executionLayers := StagesOf(layers));
    assert IsLayer(g, IndexOf(input.tasks), k, layers[k]);
    GraphOfUnique(input.tasks);
    forall e | e in snap.tasks
      ensures e.dependsOn == []
    {
      EntryInLayer(e, snap, out.executionLayers[k], tasks);
      NoDependencyInsideLayer(g, k, e.id);
      NothingInside(e.dependsOn, tasks[e.id], Elems(layers[k]));
    }
  }

  lemma NothingInside(dependsOn: seq<Id>, task: Task, members: set<Id>)
    requires InsideStage(dependsOn, task, members)
    requires forall d :: d in task.dependsOn ==> d !in members
    ensures dependsOn == []
  {
    forall d
      ensures multiset(dependsOn)[d] == 0
    {
      assert d in multiset(task.dependsOn) <==> d in task.dependsOn;
    }
    assert |dependsOn| == |multiset(dependsOn)|;
    assert multiset(dependsOn) == multiset{};
  }

  lemma EntryInLayer(e: StageTask, snap: StageSnapshot, stage: Stage, tasks: map<Id, Task>)
    requires IsSnapshot(snap, stage, tasks) && e in snap.tasks
    ensures e.id in Elems(stage.tasks) && e.id in tasks
  {
    var i :| 0 <= i < |snap.tasks| && snap.tasks[i] == e;
    assert IdsOf(snap.tasks)[i] in multiset(IdsOf(snap.tasks));
    assert e.id in multiset(stage.tasks);
  }
}
