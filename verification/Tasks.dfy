/** Plan tasks as decoded from a plan document, and the dependency graph a task list denotes. */
module Tasks {
  import opened Dag

  /** `timeoutOk` and `estimatedTimeOk` say whether the two optional duration strings are absent or parse. */
  datatype Task = Task(
    id: Id, kind: string, dependsOn: seq<Id>, outputs: seq<string>, parameterKeys: set<string>,
    timeoutOk: bool, estimatedTimeOk: bool)

  function Ids(tasks: seq<Task>): set<Id> {
    set t | t in tasks :: t.id
  }

  ghost predicate UniqueIds(tasks: seq<Task>) {
    forall i, j :: 0 <= i < j < |tasks| ==> tasks[i].id != tasks[j].id
  }

  /** The dependencies of all tasks listed under one id, in listing order. */
  function DepsOf(tasks: seq<Task>, v: Id): seq<Id> {
    if tasks == [] then []
    else
      var last := tasks[|tasks| - 1];
      DepsOf(tasks[..|tasks| - 1], v) + if last.id == v then last.dependsOn else []
  }

  function GraphOf(tasks: seq<Task>): Graph {
    map v | v in Ids(tasks) :: DepsOf(tasks, v)
  }

  lemma {:induction false} DepsOfAbsent(tasks: seq<Task>, v: Id)
    requires v !in Ids(tasks)
    ensures DepsOf(tasks, v) == []
  {
    if tasks != [] {
      assert tasks[|tasks| - 1] in tasks;
      DepsOfAbsent(tasks[..|tasks| - 1], v);
    }
  }

  /** With unique ids the graph is the obvious one. */
  lemma {:induction false} DepsOfUnique(tasks: seq<Task>, i: nat)
    requires UniqueIds(tasks) && i < |tasks|
    ensures DepsOf(tasks, tasks[i].id) == tasks[i].dependsOn
  {
    var front := tasks[..|tasks| - 1];
    if i == |tasks| - 1 {
      DepsOfAbsent(front, tasks[i].id);
    } else {
      DepsOfUnique(front, i);
    }
  }

  lemma GraphOfUnique(tasks: seq<Task>)
    requires UniqueIds(tasks)
    ensures forall i :: 0 <= i < |tasks| ==>
      tasks[i].id in GraphOf(tasks) && GraphOf(tasks)[tasks[i].id] == tasks[i].dependsOn
  {
    forall i | 0 <= i < |tasks|
      ensures tasks[i].id in GraphOf(tasks) && GraphOf(tasks)[tasks[i].id] == tasks[i].dependsOn
    {
      assert tasks[i] in tasks;
      DepsOfUnique(tasks, i);
    }
  }

  lemma IdsOfPrefix(tasks: seq<Task>, n: nat)
    requires n < |tasks|
    ensures Ids(tasks[..n + 1]) == Ids(tasks[..n]) + {tasks[n].id}
  {
    assert tasks[..n + 1] == tasks[..n] + [tasks[n]];
  }

  lemma {:induction false} UniqueIffCount(tasks: seq<Task>)
    ensures |Ids(tasks)| <= |tasks|
    ensures UniqueIds(tasks) <==> |Ids(tasks)| == |tasks|
  {
    if tasks == [] {
      assert Ids(tasks) == {};
    } else {
      var front, last := tasks[..|tasks| - 1], tasks[|tasks| - 1];
      UniqueIffCount(front);
      IdsOfPrefix(tasks, |front|);
      assert tasks[..|front| + 1] == tasks;
      RepeatedId(tasks);
    }
  }

  lemma RepeatedId(tasks: seq<Task>)
    requires tasks != []
    ensures UniqueIds(tasks) <==>
      UniqueIds(tasks[..|tasks| - 1]) && tasks[|tasks| - 1].id !in Ids(tasks[..|tasks| - 1])
  {
    var front, last := tasks[..|tasks| - 1], tasks[|tasks| - 1];
    if last.id in Ids(front) {
      var i :| 0 <= i < |front| && front[i].id == last.id;
      assert tasks[i].id == tasks[|front|].id;
    } else {
      forall i | 0 <= i < |front|
        ensures tasks[i].id != last.id
      {
        assert front[i] in front;
      }
    }
  }
}
