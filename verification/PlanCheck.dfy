/** The planner's own plan validation: a depth-first search for cycles and the mandatory-phase checks. */
module PlanCheck {
  import opened Dag
  import opened Tasks

  /** The dependency map of the search: a repeated id keeps the dependencies of its last task. */
  function LastDeps(tasks: seq<Task>): Graph {
    if tasks == [] then map[]
    else LastDeps(tasks[..|tasks| - 1])[tasks[|tasks| - 1].id := tasks[|tasks| - 1].dependsOn]
  }

  lemma {:induction false} LastDepsKeys(tasks: seq<Task>)
    ensures LastDeps(tasks).Keys == Ids(tasks)
  {
    if tasks != [] {
      LastDepsKeys(tasks[..|tasks| - 1]);
      IdsOfPrefix(tasks, |tasks| - 1);
      assert tasks[..|tasks|] == tasks;
    }
  }

  /** Of several tasks of one id the search only knows the last. */
  lemma {:induction false} LastDepsMeans(tasks: seq<Task>, i: nat)
    requires i < |tasks| && forall j :: i < j < |tasks| ==> tasks[j].id != tasks[i].id
    ensures tasks[i].id in LastDeps(tasks) && LastDeps(tasks)[tasks[i].id] == tasks[i].dependsOn
  {
    if i < |tasks| - 1 {
      LastDepsMeans(tasks[..|tasks| - 1], i);
    }
  }

  lemma {:induction false} LastDepsUnique(tasks: seq<Task>)
    requires UniqueIds(tasks)
    ensures LastDeps(tasks) == GraphOf(tasks)
  {
    LastDepsKeys(tasks);
    GraphOfUnique(tasks);
    forall i | 0 <= i < |tasks|
      ensures tasks[i].id in LastDeps(tasks) && LastDeps(tasks)[tasks[i].id] == tasks[i].dependsOn
    {
      LastDepsMeans(tasks, i);
    }
  }

  // ---- the graph the search walks: unknown ids are leaves ----

  ghost function Universe(g: Graph): set<Id> {
    g.Keys + set v, d | v in g && d in g[v] :: d
  }

  ghost function WithLeaves(g: Graph): Graph {
    map v | v in Universe(g) :: Deps(g, v)
  }

  lemma LeavesKeepPaths(g: Graph)
    ensures Known(WithLeaves(g))
    ensures forall v :: Deps(WithLeaves(g), v) == Deps(g, v)
    ensures Acyclic(WithLeaves(g)) <==> Acyclic(g)
  {
    forall p
      ensures Cycle(WithLeaves(g), p) <==> Cycle(g, p)
    {
      assert forall v :: Deps(WithLeaves(g), v) == Deps(g, v);
    }
  }

  predicate IsSet(m: map<Id, bool>, v: Id) {
    v in m && m[v]
  }

  ghost function SetIn(m: map<Id, bool>): set<Id> {
    set v | v in m && m[v]
  }

  /** The grey tasks form a dependency path from a root down to the task being entered. */
  ghost predicate StackLeadsTo(g: Graph, stack: seq<Id>, v: Id) {
    stack != [] ==> Path(g, stack) && v in Deps(g, stack[|stack| - 1])
  }

  lemma BackEdgeIsCycle(g: Graph, stack: seq<Id>, v: Id)
    requires StackLeadsTo(g, stack, v) && v in stack
    ensures !Acyclic(g)
  {
    var i :| 0 <= i < |stack| && stack[i] == v;
    var c := stack[i..] + [v];
    SlicePath(g, stack, i, |stack|);
    forall k | 0 <= k < |c| - 1
      ensures c[k + 1] in Deps(g, c[k])
    {
      if k < |c| - 2 {
        assert c[k] == stack[i..][k] && c[k + 1] == stack[i..][k + 1];
      }
    }
    assert Cycle(g, c);
  }

  lemma Descend(g: Graph, stack: seq<Id>, v: Id)
    requires StackLeadsTo(g, stack, v) && v in Universe(g)
    ensures forall d :: d in Deps(g, v) ==> d in Universe(g) && StackLeadsTo(g, stack + [v], d)
    ensures Elems(stack + [v]) == Elems(stack) + {v}
  {
    var s := stack + [v];
    forall i | 0 <= i < |s| - 1
      ensures s[i + 1] in Deps(g, s[i])
    {
      assert s[i] == stack[i];
      assert i + 1 < |stack| ==> s[i + 1] == stack[i + 1];
    }
  }

  /** The colour invariant: grey tasks are those on the stack, black ones (visited, not grey) can
      never be part of a cycle. */
  ghost predicate Coloured(g: Graph, visited: set<Id>, grey: set<Id>, stack: seq<Id>) {
    && grey == Elems(stack) && grey <= visited && visited <= Universe(g)
    && visited - grey <= Resolved(WithLeaves(g))
  }

  lemma TurnGrey(g: Graph, visited: set<Id>, grey: set<Id>, stack: seq<Id>, v: Id)
    requires Coloured(g, visited, grey, stack) && v in Universe(g) && v !in visited
    ensures Coloured(g, visited + {v}, grey + {v}, stack + [v])
    ensures (visited + {v}) - (grey + {v}) == visited - grey
  {
    assert Elems(stack + [v]) == Elems(stack) + {v};
  }

  lemma TurnBlack(g: Graph, visited: set<Id>, grey: set<Id>, stack: seq<Id>, v: Id)
    requires Coloured(g, visited, grey, stack + [v]) && v !in stack
    requires AllIn(Deps(g, v), visited - grey)
    ensures Coloured(g, visited, grey - {v}, stack)
    ensures visited - (grey - {v}) == visited - grey + {v}
  {
    assert Elems(stack + [v]) == Elems(stack) + {v};
    ReadyIsResolved(WithLeaves(g), visited - grey, v);
  }

  /** The variables captured by the recursive closure. */
  class CycleFinder {
    const deps: Graph
    var visited: map<Id, bool>
    var recStack: map<Id, bool>

    constructor (deps: Graph)
      ensures this.deps == deps && visited == map[] && recStack == map[]
      ensures Valid([])
    {
      this.deps := deps;
      visited, recStack := map[], map[];
    }

    /** Finished tasks: visited and no longer on the recursion stack. */
    ghost function Black(): set<Id>
      reads this
    {
      SetIn(visited) - SetIn(recStack)
    }

    ghost predicate Valid(stack: seq<Id>)
      reads this
    {
      Coloured(deps, SetIn(visited), SetIn(recStack), stack)
    }

    method HasCycle(taskID: Id, ghost stack: seq<Id>) returns (found: bool)
      requires Valid(stack) && taskID in Universe(deps) && StackLeadsTo(deps, stack, taskID)
      modifies this
      ensures found ==> !Acyclic(deps)
      ensures !found ==> Valid(stack) && taskID in Black() && old(Black()) <= Black()
      ensures old(SetIn(visited)) <= SetIn(visited)
      decreases Universe(deps) - SetIn(visited)
    {
      if IsSet(recStack, taskID) {
        assert taskID in SetIn(recStack) && taskID in Elems(stack);
        BackEdgeIsCycle(deps, stack, taskID);
        return true;
      }
      if IsSet(visited, taskID) {
        return false;
      }
      TurnGrey(deps, SetIn(visited), SetIn(recStack), stack, taskID);
      visited := visited[taskID := true];
      recStack := recStack[taskID := true];
      Descend(deps, stack, taskID);
      var ds := if taskID in deps then deps[taskID] else [];
      for i := 0 to |ds|
        invariant Valid(stack + [taskID]) && old(Black()) <= Black()
        invariant AllIn(ds[..i], Black())
        invariant old(SetIn(visited)) + {taskID} <= SetIn(visited)
      {
        assert ds[..i + 1] == ds[..i] + [ds[i]];
        var inner := HasCycle(ds[i], stack + [taskID]);
        if inner {
          return true;
        }
      }
      assert ds[..|ds|] == ds;
      assert taskID !in Elems(stack);
      TurnBlack(deps, SetIn(visited), SetIn(recStack), stack, taskID);
      recStack := recStack[taskID := false];
      return false;
    }
  }

  method CheckCircularDependencies(tasks: seq<Task>) returns (circular: bool)
    ensures circular <==> !Acyclic(LastDeps(tasks))
  {
    var deps := LastDeps(tasks);
    LastDepsKeys(tasks);
    var finder := new CycleFinder(deps);
    for i := 0 to |tasks|
      invariant finder.deps == deps && finder.Valid([])
      invariant forall k :: 0 <= k < i ==> tasks[k].id in finder.Black()
    {
      assert tasks[i] in tasks;
      if !IsSet(finder.visited, tasks[i].id) {
        var found := finder.HasCycle(tasks[i].id, []);
        if found {
          return true;
        }
      }
    }
    LeavesKeepPaths(deps);
    forall v | v in Universe(deps)
      ensures v in Resolved(WithLeaves(deps))
    {
      if v in deps {
        assert v in finder.Black();
      } else {
        ReadyIsResolved(WithLeaves(deps), {}, v);
      }
    }
    PeelGrows(WithLeaves(deps), 0, |WithLeaves(deps)|);
    AllResolvedIffSchedulable(WithLeaves(deps));
    return false;
  }

  datatype PlanError =
    | NoTasks | Circular | Missing(task: Id, dep: Id) | InvalidType(kind: string) | NoSynthesis | NoKnowledgeGraph

  ghost predicate DependenciesListed(tasks: seq<Task>) {
    forall t :: t in tasks ==> AllIn(t.dependsOn, Ids(tasks))
  }

  /** The first dependency, in listing order, that is no task id. */
  ghost predicate FirstMissing(tasks: seq<Task>, i: nat, j: nat) {
    && i < |tasks| && j < |tasks[i].dependsOn| && tasks[i].dependsOn[j] !in Ids(tasks)
    && AllIn(tasks[i].dependsOn[..j], Ids(tasks))
    && forall k :: 0 <= k < i ==> AllIn(tasks[k].dependsOn, Ids(tasks))
  }

  ghost predicate NamesFirstMissing(tasks: seq<Task>, task: Id, dep: Id) {
    exists i: nat, j: nat :: FirstMissing(tasks, i, j) && tasks[i].id == task && tasks[i].dependsOn[j] == dep
  }

  method CheckMissingDependencies(tasks: seq<Task>) returns (missing: bool, task: Id, dep: Id)
    ensures missing <==> !DependenciesListed(tasks)
    ensures missing ==> NamesFirstMissing(tasks, task, dep)
  {
    var taskIDs := Ids(tasks);
    for i := 0 to |tasks|
      invariant forall k :: 0 <= k < i ==> AllIn(tasks[k].dependsOn, taskIDs)
    {
      var ds := tasks[i].dependsOn;
      for j := 0 to |ds|
        invariant AllIn(ds[..j], taskIDs)
      {
        if ds[j] !in taskIDs {
          assert tasks[i] in tasks && !AllIn(tasks[i].dependsOn, taskIDs) && FirstMissing(tasks, i, j);
          return true, tasks[i].id, ds[j];
        }
      }
      assert ds[..|ds|] == ds;
    }
    return false, "", "";
  }

  ghost predicate PlanOk(tasks: seq<Task>, validTypes: set<string>) {
    && tasks != [] && Acyclic(LastDeps(tasks)) && DependenciesListed(tasks)
    && TypesValid(tasks, validTypes) && HasKind(tasks, "synthesis") && HasKind(tasks, "knowledge_graph")
  }

  datatype Validation = Valid | Rejected(error: PlanError)

  ghost predicate TypesValid(tasks: seq<Task>, validTypes: set<string>) {
    forall t :: t in tasks ==> t.kind in validTypes
  }

  ghost predicate HasKind(tasks: seq<Task>, kind: string) {
    exists t :: t in tasks && t.kind == kind
  }

  /** The first task of a type that is not valid. */
  ghost predicate FirstInvalid(tasks: seq<Task>, validTypes: set<string>, i: nat) {
    && i < |tasks| && tasks[i].kind !in validTypes
    && forall k :: 0 <= k < i ==> tasks[k].kind in validTypes
  }

  /** What each error says: every earlier check passes, and this one does not. */
  ghost predicate Explains(tasks: seq<Task>, validTypes: set<string>, error: PlanError) {
    match error
    case NoTasks => tasks == []
    case Circular => tasks != [] && !Acyclic(LastDeps(tasks))
    case Missing(task, dep) => Acyclic(LastDeps(tasks)) && NamesFirstMissing(tasks, task, dep)
    case InvalidType(kind) =>
      && Acyclic(LastDeps(tasks)) && DependenciesListed(tasks)
      && exists i: nat :: FirstInvalid(tasks, validTypes, i) && tasks[i].kind == kind
    case NoSynthesis =>
      && tasks != [] && Acyclic(LastDeps(tasks)) && DependenciesListed(tasks) && TypesValid(tasks, validTypes)
      && !HasKind(tasks, "synthesis")
    case NoKnowledgeGraph =>
      && Acyclic(LastDeps(tasks)) && DependenciesListed(tasks) && TypesValid(tasks, validTypes)
      && HasKind(tasks, "synthesis") && !HasKind(tasks, "knowledge_graph")
  }

  method ValidatePlan(tasks: seq<Task>, validTypes: set<string>) returns (v: Validation)
    ensures v.Valid? <==> PlanOk(tasks, validTypes)
    ensures v.Valid? <==>
      && tasks != [] && Acyclic(LastDeps(tasks))
      && (forall t, d :: t in tasks && d in t.dependsOn ==> d in Ids(tasks))
      && (forall t :: t in tasks ==> t.kind in validTypes)
      && (exists t :: t in tasks && t.kind == "synthesis") && exists t :: t in tasks && t.kind == "knowledge_graph"
    ensures v.Rejected? ==> Explains(tasks, validTypes, v.error)
  {
    if |tasks| == 0 {
      return Rejected(NoTasks);
    }
    var circular := CheckCircularDependencies(tasks);
    if circular {
      return Rejected(Circular);
    }
    var missing, task, dep := CheckMissingDependencies(tasks);
    if missing {
      return Rejected(Missing(task, dep));
    }
    for i := 0 to |tasks|
      invariant forall k :: 0 <= k < i ==> tasks[k].kind in validTypes
    {
      if tasks[i].kind !in validTypes {
        assert tasks[i] in tasks && FirstInvalid(tasks, validTypes, i);
        return Rejected(InvalidType(tasks[i].kind));
      }
    }
    var hasSynth, hasKG := false, false;
    for i := 0 to |tasks|
      invariant hasSynth <==> exists k :: 0 <= k < i && tasks[k].kind == "synthesis"
      invariant hasKG <==> exists k :: 0 <= k < i && tasks[k].kind == "knowledge_graph"
    {
      if tasks[i].kind == "synthesis" {
        hasSynth := true;
      }
      if tasks[i].kind == "knowledge_graph" {
        hasKG := true;
      }
    }
    if !hasSynth {
      return Rejected(NoSynthesis);
    }
    if !hasKG {
      return Rejected(NoKnowledgeGraph);
    }
    return Valid;
  }

  /** A plan that passes the search and the dependency check, with unique ids, can be scheduled. */
  lemma OkPlanIsSchedulable(tasks: seq<Task>)
    requires UniqueIds(tasks)
    ensures Acyclic(LastDeps(tasks)) && DependenciesListed(tasks) <==> Schedulable(GraphOf(tasks))
  {
    LastDepsUnique(tasks);
    GraphOfUnique(tasks);
    if Schedulable(GraphOf(tasks)) {
      forall t | t in tasks
        ensures AllIn(t.dependsOn, Ids(tasks))
      {
        var i :| 0 <= i < |tasks| && tasks[i] == t;
        assert GraphOf(tasks)[tasks[i].id] == t.dependsOn;
        assert GraphOf(tasks).Keys == Ids(tasks);
      }
    }
    if DependenciesListed(tasks) {
      forall v, d | v in GraphOf(tasks) && d in GraphOf(tasks)[v]
        ensures d in GraphOf(tasks)
      {
        var i :| 0 <= i < |tasks| && tasks[i].id == v;
        assert tasks[i] in tasks;
      }
    }
  }
}
