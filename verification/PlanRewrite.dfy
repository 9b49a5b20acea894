/** The dependency rewriting the planner applies after validation: the last synthesis task is made to
    depend on everything else, and knowledge-graph tasks on all research and analysis tasks. */
module PlanRewrite {
  import opened Dag
  import opened Tasks
  import PlanCheck

  predicate IsResearch(t: Task) {
    t.kind == "research" || t.kind == "analysis"
  }

  predicate IsKnowledgeGraph(t: Task) {
    t.kind == "knowledge_graph"
  }

  /** The position of the last synthesis task, or -1. */
  function LastSynthesis(tasks: seq<Task>): (i: int)
    ensures -1 <= i < |tasks|
    ensures i >= 0 ==> tasks[i].kind == "synthesis"
    ensures forall j :: i < j < |tasks| ==> tasks[j].kind != "synthesis"
  {
    if tasks == [] then -1
    else if tasks[|tasks| - 1].kind == "synthesis" then |tasks| - 1
    else LastSynthesis(tasks[..|tasks| - 1])
  }

  /** The entries of `ids` that `have` lacks, in order. */
  function Lacking(ids: seq<Id>, have: seq<Id>): (r: seq<Id>)
    ensures forall d :: d in r <==> d in ids && d !in have
  {
    if ids == [] then []
    else Lacking(ids[..|ids| - 1], have) + if ids[|ids| - 1] in have then [] else [ids[|ids| - 1]]
  }

  function AddDeps(t: Task, ids: seq<Id>): Task {
    t.(dependsOn := t.dependsOn + Lacking(ids, t.dependsOn))
  }

  function IdsExcept(tasks: seq<Task>, skip: int): (r: seq<Id>)
    ensures forall d :: d in r <==> exists i :: 0 <= i < |tasks| && i != skip && tasks[i].id == d
  {
    if tasks == [] then []
    else
      var n := |tasks| - 1;
      IdsExcept(tasks[..n], skip) + if n == skip then [] else [tasks[n].id]
  }

  function ResearchIds(tasks: seq<Task>): (r: seq<Id>)
    ensures forall d :: d in r <==> exists i :: 0 <= i < |tasks| && IsResearch(tasks[i]) && tasks[i].id == d
  {
    if tasks == [] then []
    else
      var n := |tasks| - 1;
      ResearchIds(tasks[..n]) + if IsResearch(tasks[n]) then [tasks[n].id] else []
  }

  function WithSynthesisLast(tasks: seq<Task>): (r: seq<Task>)
    ensures |r| == |tasks|
  {
    var s := LastSynthesis(tasks);
    if s < 0 then tasks else tasks[s := AddDeps(tasks[s], IdsExcept(tasks, s))]
  }

  function WithGraphAfterResearch(tasks: seq<Task>, research: seq<Id>): (r: seq<Task>)
    ensures |r| == |tasks|
  {
    seq(|tasks|, i requires 0 <= i < |tasks| =>
      if IsKnowledgeGraph(tasks[i]) then AddDeps(tasks[i], research) else tasks[i])
  }

  function Rewritten(tasks: seq<Task>): (r: seq<Task>)
    ensures |r| == |tasks|
  {
    WithGraphAfterResearch(WithSynthesisLast(tasks), ResearchIds(WithSynthesisLast(tasks)))
  }

  /** `deps` extended in place by the ids it does not list yet. */
  method AppendMissing(dependsOn: seq<Id>, ids: seq<Id>) returns (deps: seq<Id>)
    ensures deps == dependsOn + Lacking(ids, dependsOn)
  {
    deps := dependsOn;
    var have := Elems(deps);
    for i := 0 to |ids|
      invariant deps == dependsOn + Lacking(ids[..i], dependsOn)
    {
      assert ids[..i + 1][..i] == ids[..i];
      assert ids[i] in have <==> ids[i] in dependsOn;
      if ids[i] !in have {
        deps := deps + [ids[i]];
      }
    }
    assert ids[..|ids|] == ids;
  }

  method RewriteSynthesis(tasks: array<Task>)
    modifies tasks
    ensures tasks[..] == WithSynthesisLast(old(tasks[..]))
  {
    var synthIndex := -1;
    for i := 0 to tasks.Length
      invariant synthIndex == LastSynthesis(tasks[..i])
    {
      assert tasks[..i + 1][..i] == tasks[..i];
      if tasks[i].kind == "synthesis" {
        synthIndex := i;
      }
    }
    assert tasks[..tasks.Length] == tasks[..];
    if synthIndex >= 0 {
      var others: seq<Id> := [];
      for i := 0 to tasks.Length
        invariant others == IdsExcept(tasks[..i], synthIndex)
      {
        assert tasks[..i + 1][..i] == tasks[..i];
        if i != synthIndex {
          others := others + [tasks[i].id];
        }
      }
      assert tasks[..tasks.Length] == tasks[..];
      var deps := AppendMissing(tasks[synthIndex].dependsOn, others);
      tasks[synthIndex] := tasks[synthIndex].(dependsOn := deps);
    }
  }

  method RewriteKnowledgeGraph(tasks: array<Task>)
    modifies tasks
    ensures tasks[..] == WithGraphAfterResearch(old(tasks[..]), ResearchIds(old(tasks[..])))
  {
    var ra: seq<Id> := [];
    for i := 0 to tasks.Length
      invariant ra == ResearchIds(tasks[..i])
    {
      assert tasks[..i + 1][..i] == tasks[..i];
      if tasks[i].kind == "research" || tasks[i].kind == "analysis" {
        ra := ra + [tasks[i].id];
      }
    }
    assert tasks[..tasks.Length] == tasks[..];
    ghost var target := WithGraphAfterResearch(tasks[..], ra);
    for i := 0 to tasks.Length
      invariant forall k :: 0 <= k < i ==> tasks[k] == target[k]
      invariant forall k :: i <= k < tasks.Length ==> tasks[k] == old(tasks[..])[k]
    {
      if tasks[i].kind != "knowledge_graph" {
        continue;
      }
      var deps := AppendMissing(tasks[i].dependsOn, ra);
      tasks[i] := tasks[i].(dependsOn := deps);
    }
  }

  /** The rewriting as the planner runs it, in place. */
  method NormalizeDependencies(tasks: array<Task>)
    modifies tasks
    ensures tasks[..] == Rewritten(old(tasks[..]))
  {
    if tasks.Length > 0 {
      RewriteSynthesis(tasks);
      RewriteKnowledgeGraph(tasks);
    }
  }

  // ---- what is added to a task ----

  /** The ids of the tasks at the positions `at`. */
  function IdsAt(tasks: seq<Task>, at: seq<nat>): seq<Id>
    requires forall k :: 0 <= k < |at| ==> at[k] < |tasks|
  {
    seq(|at|, k requires 0 <= k < |at| => tasks[at[k]].id)
  }

  /** Positions in listing order. */
  ghost predicate Ascending(tasks: seq<Task>, at: seq<nat>) {
    && (forall k :: 0 <= k < |at| ==> at[k] < |tasks|)
    && forall k, l :: 0 <= k < l < |at| ==> at[k] < at[l]
  }

  lemma AscendingPush(tasks: seq<Task>, at: seq<nat>, n: nat)
    requires Ascending(tasks, at) && n < |tasks| && forall k :: 0 <= k < |at| ==> at[k] < n
    ensures Ascending(tasks, at + [n]) && IdsAt(tasks, at + [n]) == IdsAt(tasks, at) + [tasks[n].id]
  {
  }

  lemma {:induction false} ExceptPositions(tasks: seq<Task>, n: nat, skip: int) returns (at: seq<nat>)
    requires n <= |tasks|
    ensures Ascending(tasks, at) && IdsExcept(tasks[..n], skip) == IdsAt(tasks, at)
    ensures forall i: nat :: i in at <==> i < n && i != skip
  {
    at := [];
    if n > 0 {
      at := ExceptPositions(tasks, n - 1, skip);
      assert tasks[..n][..n - 1] == tasks[..n - 1];
      if n - 1 != skip {
        assert forall k :: 0 <= k < |at| ==> at[k] in at;
        AscendingPush(tasks, at, n - 1);
        at := at + [n - 1];
      }
    }
  }

  lemma {:induction false} ResearchPositions(tasks: seq<Task>, n: nat) returns (at: seq<nat>)
    requires n <= |tasks|
    ensures Ascending(tasks, at) && ResearchIds(tasks[..n]) == IdsAt(tasks, at)
    ensures forall i: nat :: i in at <==> i < n && (tasks[i].kind == "research" || tasks[i].kind == "analysis")
  {
    at := [];
    if n > 0 {
      at := ResearchPositions(tasks, n - 1);
      assert tasks[..n][..n - 1] == tasks[..n - 1];
      if IsResearch(tasks[n - 1]) {
        AscendingPush(tasks, at, n - 1);
        at := at + [n - 1];
      }
    }
  }

  /** Leaving out what is listed already keeps the rest in order. */
  lemma {:induction false} LackingPositions(tasks: seq<Task>, from: seq<nat>, have: seq<Id>) returns (at: seq<nat>)
    requires Ascending(tasks, from)
    ensures Ascending(tasks, at) && Lacking(IdsAt(tasks, from), have) == IdsAt(tasks, at)
    ensures forall i: nat :: i in at <==> i in from && tasks[i].id !in have
  {
    at := [];
    if from != [] {
      var front, last := from[..|from| - 1], from[|from| - 1];
      at := LackingPositions(tasks, front, have);
      assert IdsAt(tasks, from)[..|from| - 1] == IdsAt(tasks, front);
      assert forall i :: i in from <==> i in front || i == last;
      if tasks[last].id !in have {
        assert forall k :: 0 <= k < |at| ==> at[k] in front;
        AscendingPush(tasks, at, last);
        at := at + [last];
      }
    }
  }

  /** The tasks whose ids the rewriting wants among the dependencies of task `i`: for the last synthesis
      task all others, for a knowledge-graph task the research and analysis tasks. */
  ghost predicate Wanted(tasks: seq<Task>, i: nat, j: nat)
    requires i < |tasks| && j < |tasks|
  {
    || (tasks[i].kind == "synthesis" && j != i && forall k :: i < k < |tasks| ==> tasks[k].kind != "synthesis")
    || (tasks[i].kind == "knowledge_graph" && (tasks[j].kind == "research" || tasks[j].kind == "analysis"))
  }

  /** Each task keeps its dependencies and gains, in listing order and once each, the ids of the tasks wanted
      there that it did not list; everything else about it stays. */
  lemma AddedInOrder(tasks: seq<Task>, i: nat) returns (at: seq<nat>)
    requires i < |tasks|
    ensures Ascending(tasks, at)
    ensures Rewritten(tasks)[i] == tasks[i].(dependsOn := tasks[i].dependsOn + IdsAt(tasks, at))
    ensures forall j: nat :: j in at <==> j < |tasks| && Wanted(tasks, i, j) && tasks[j].id !in tasks[i].dependsOn
  {
    var mid, s, all := WithSynthesisLast(tasks), LastSynthesis(tasks), |tasks|;
    assert tasks[..all] == tasks && mid[..all] == mid;
    if i == s {
      var others := ExceptPositions(tasks, all, s);
      at := LackingPositions(tasks, others, tasks[i].dependsOn);
    } else if IsKnowledgeGraph(tasks[i]) {
      var research := ResearchPositions(mid, all);
      assert IdsAt(mid, research) == IdsAt(tasks, research);
      at := LackingPositions(tasks, research, tasks[i].dependsOn);
    } else {
      at := [];
      assert tasks[i].dependsOn + IdsAt(tasks, at) == tasks[i].dependsOn;
    }
  }

  /** With unique ids no task is given a dependency twice, so a plan without repeated dependencies stays one. */
  lemma StaysWithoutRepeats(tasks: seq<Task>, i: nat)
    requires UniqueIds(tasks) && i < |tasks| && Distinct(tasks[i].dependsOn)
    ensures Distinct(Rewritten(tasks)[i].dependsOn)
  {
    var at := AddedInOrder(tasks, i);
    var added := IdsAt(tasks, at);
    forall k | 0 <= k < |added|
      ensures added[k] !in tasks[i].dependsOn
    {
      assert at[k] in at;
    }
  }

  // ---- what the rewriting does to the graph ----

  ghost predicate IsSynthesisId(tasks: seq<Task>, v: Id) {
    LastSynthesis(tasks) >= 0 && tasks[LastSynthesis(tasks)].id == v
  }

  ghost predicate ResearchTask(tasks: seq<Task>, v: Id) {
    exists i :: 0 <= i < |tasks| && tasks[i].id == v && IsResearch(tasks[i])
  }

  ghost predicate GraphTask(tasks: seq<Task>, v: Id) {
    exists i :: 0 <= i < |tasks| && tasks[i].id == v && IsKnowledgeGraph(tasks[i])
  }

  /** The dependencies the rewriting may add. */
  ghost predicate AddedEdge(tasks: seq<Task>, v: Id, d: Id) {
    || (IsSynthesisId(tasks, v) && d in Ids(tasks) && d != v)
    || (GraphTask(tasks, v) && ResearchTask(tasks, d))
  }

  lemma RewrittenTask(tasks: seq<Task>, i: nat)
    requires UniqueIds(tasks) && i < |tasks|
    ensures Rewritten(tasks)[i].id == tasks[i].id && tasks[i].dependsOn <= Rewritten(tasks)[i].dependsOn
    ensures forall d ::
      d in Rewritten(tasks)[i].dependsOn <==> d in tasks[i].dependsOn || AddedEdge(tasks, tasks[i].id, d)
  {
    var mid, s := WithSynthesisLast(tasks), LastSynthesis(tasks);
    assert forall k :: 0 <= k < |tasks| ==> mid[k].id == tasks[k].id && mid[k].kind == tasks[k].kind;
    forall d
      ensures d in ResearchIds(mid) <==> ResearchTask(tasks, d)
    {
    }
    forall d
      ensures d in IdsExcept(tasks, s) && i == s
        <==> IsSynthesisId(tasks, tasks[i].id) && d in Ids(tasks) && d != tasks[i].id
    {
      ExceptSelf(tasks, s, d);
      if IsSynthesisId(tasks, tasks[i].id) {
        assert tasks[s].id == tasks[i].id;
      }
    }
    assert GraphTask(tasks, tasks[i].id) <==> IsKnowledgeGraph(tasks[i]);
  }

  lemma ExceptSelf(tasks: seq<Task>, s: int, d: Id)
    requires UniqueIds(tasks)
    ensures 0 <= s < |tasks| ==> (d in IdsExcept(tasks, s) <==> d in Ids(tasks) && d != tasks[s].id)
  {
    if 0 <= s < |tasks| && d in Ids(tasks) && d != tasks[s].id {
      var t :| t in tasks && t.id == d;
      var k :| 0 <= k < |tasks| && tasks[k] == t;
    }
  }

  /** The rewriting keeps the tasks and every dependency, and adds exactly the two kinds of edges. */
  lemma RewrittenGraph(tasks: seq<Task>)
    requires UniqueIds(tasks)
    ensures UniqueIds(Rewritten(tasks)) && Ids(Rewritten(tasks)) == Ids(tasks)
    ensures forall v :: v in GraphOf(tasks) ==> GraphOf(tasks)[v] <= GraphOf(Rewritten(tasks))[v]
    ensures forall v, d :: v in GraphOf(tasks) ==>
      (d in GraphOf(Rewritten(tasks))[v] <==> d in GraphOf(tasks)[v] || AddedEdge(tasks, v, d))
  {
    var out := Rewritten(tasks);
    forall i | 0 <= i < |tasks| {
      RewrittenTask(tasks, i);
    }
    assert Ids(out) == Ids(tasks) by {
      forall v
        ensures v in Ids(out) <==> v in Ids(tasks)
      {
        if v in Ids(out) {
          var i :| 0 <= i < |out| && out[i].id == v;
          assert tasks[i] in tasks;
        }
        if v in Ids(tasks) {
          var i :| 0 <= i < |tasks| && tasks[i].id == v;
          assert out[i] in out;
        }
      }
    }
    GraphOfUnique(tasks);
    GraphOfUnique(out);
  }

  // ---- when the rewriting keeps the plan schedulable ----

  /** `g` and `g2` are the graphs before and after rewriting. */
  ghost predicate Edges(tasks: seq<Task>, g: Graph, g2: Graph) {
    && g.Keys == g2.Keys == Ids(tasks)
    && (forall v, d :: d in Deps(g2, v) <==> d in Deps(g, v) || AddedEdge(tasks, v, d))
    && (forall t :: t in tasks ==> t.id in g && g[t.id] == t.dependsOn)
  }

  lemma RewritingEdges(tasks: seq<Task>)
    requires UniqueIds(tasks)
    ensures Edges(tasks, GraphOf(tasks), GraphOf(Rewritten(tasks)))
  {
    RewrittenGraph(tasks);
    GraphOfUnique(tasks);
    forall v, d
      ensures d in Deps(GraphOf(Rewritten(tasks)), v) <==> d in Deps(GraphOf(tasks), v) || AddedEdge(tasks, v, d)
    {
      AddedFromTask(tasks, v, d);
      assert v in GraphOf(tasks) <==> v in GraphOf(Rewritten(tasks));
    }
    forall t | t in tasks
      ensures t.id in GraphOf(tasks) && GraphOf(tasks)[t.id] == t.dependsOn
    {
      var i :| 0 <= i < |tasks| && tasks[i] == t;
    }
  }

  lemma AddedFromTask(tasks: seq<Task>, v: Id, d: Id)
    ensures AddedEdge(tasks, v, d) ==> v in Ids(tasks) && d in Ids(tasks)
  {
    assert forall i :: 0 <= i < |tasks| ==> tasks[i] in tasks;
  }

  /** No task depends on the last synthesis task, and no research task depends, directly or not, on a
      knowledge-graph task: both can be checked before rewriting. */
  ghost predicate SafeToRewrite(tasks: seq<Task>) {
    && (forall t, d :: t in tasks && d in t.dependsOn ==> !IsSynthesisId(tasks, d))
    && (forall a, k :: ResearchTask(tasks, a) && GraphTask(tasks, k) ==> !Reaches(GraphOf(tasks), a, k))
  }

  lemma KindsExclude(tasks: seq<Task>, v: Id)
    requires UniqueIds(tasks) && IsSynthesisId(tasks, v)
    ensures !ResearchTask(tasks, v) && !GraphTask(tasks, v)
  {
  }

  /** Nothing depends on the last synthesis task, before or after. */
  lemma SynthesisIsTop(tasks: seq<Task>, g: Graph, g2: Graph, v: Id, d: Id)
    requires UniqueIds(tasks) && Edges(tasks, g, g2) && SafeToRewrite(tasks) && d in Deps(g2, v)
    ensures !IsSynthesisId(tasks, d)
  {
    if d in Deps(g, v) {
      var t :| t in tasks && t.id == v;
      assert g[v] == t.dependsOn;
    } else if IsSynthesisId(tasks, d) {
      KindsExclude(tasks, d);
    }
  }

  ghost predicate BelowResearch(tasks: seq<Task>, g: Graph, v: Id) {
    exists a :: ResearchTask(tasks, a) && Reaches(g, a, v)
  }

  lemma BelowNext(tasks: seq<Task>, g: Graph, v: Id, d: Id)
    requires BelowResearch(tasks, g, v) && d in Deps(g, v)
    ensures BelowResearch(tasks, g, d)
  {
    var a :| ResearchTask(tasks, a) && Reaches(g, a, v);
    var p :| PathFromTo(g, p, a, v);
    ExtendPath(g, p, d);
    assert PathFromTo(g, p + [d], a, d);
  }

  lemma ExtendPath(g: Graph, p: seq<Id>, d: Id)
    requires Path(g, p) && d in Deps(g, p[|p| - 1])
    ensures Path(g, p + [d])
  {
    var q := p + [d];
    forall i | 0 <= i < |q| - 1
      ensures q[i + 1] in Deps(g, q[i])
    {
      assert q[i] == p[i];
      assert i + 1 < |p| ==> q[i + 1] == p[i + 1];
    }
  }

  /** From a research task downwards no added edge can be taken. */
  lemma OnlyOriginalBelow(tasks: seq<Task>, g: Graph, g2: Graph, v: Id, d: Id)
    requires UniqueIds(tasks) && Edges(tasks, g, g2) && SafeToRewrite(tasks) && g == GraphOf(tasks)
    requires BelowResearch(tasks, g, v) && d in Deps(g2, v)
    ensures d in Deps(g, v)
  {
    var a :| ResearchTask(tasks, a) && Reaches(g, a, v);
    if IsSynthesisId(tasks, v) {
      KindsExclude(tasks, v);
      var p :| PathFromTo(g, p, a, v);
      assert v in Deps(g, p[|p| - 2]);
      SynthesisIsTop(tasks, g, g2, p[|p| - 2], v);
    }
  }

  lemma {:induction false} PathBelowIsOriginal(tasks: seq<Task>, g: Graph, g2: Graph, p: seq<Id>)
    requires UniqueIds(tasks) && Edges(tasks, g, g2) && SafeToRewrite(tasks) && g == GraphOf(tasks)
    requires Path(g2, p) && BelowResearch(tasks, g, p[0])
    ensures Path(g, p)
  {
    if |p| > 1 {
      StepBelow(tasks, g, g2, p[0], p[1]) by {
        assert p[0 + 1] in Deps(g2, p[0]);
      }
      var rest := p[1..];
      assert Path(g2, rest) by {
        SlicePath(g2, p, 1, |p|);
      }
      PathBelowIsOriginal(tasks, g, g2, rest);
      assert p == [p[0]] + rest;
      PrependPath(g, p[0], rest);
    }
  }

  lemma StepBelow(tasks: seq<Task>, g: Graph, g2: Graph, v: Id, d: Id)
    requires UniqueIds(tasks) && Edges(tasks, g, g2) && SafeToRewrite(tasks) && g == GraphOf(tasks)
    requires BelowResearch(tasks, g, v) && d in Deps(g2, v)
    ensures d in Deps(g, v) && BelowResearch(tasks, g, d)
  {
    OnlyOriginalBelow(tasks, g, g2, v, d);
    BelowNext(tasks, g, v, d);
  }

  lemma PrependPath(g: Graph, v: Id, p: seq<Id>)
    requires Path(g, p) && p[0] in Deps(g, v)
    ensures Path(g, [v] + p)
  {
  }

  /** The cycle `c` entered through its `i`-th edge. */
  function Rotated(c: seq<Id>, i: nat): seq<Id>
    requires i < |c| - 1
  {
    c[i + 1..] + c[1..i + 2]
  }

  lemma RotatedIsCycle(g: Graph, c: seq<Id>, i: nat)
    requires Cycle(g, c) && i < |c| - 1
    ensures var r := Rotated(c, i);
      Cycle(g, r) && r[0] == c[i + 1] && r[|r| - 1] == c[i + 1] && r[|r| - 2] == c[i]
  {
    var r, n := Rotated(c, i), |c| - i - 1;
    forall k | 0 <= k < |r| - 1
      ensures r[k + 1] in Deps(g, r[k])
    {
      if k < n - 1 {
        assert r[k] == c[i + 1 + k] && r[k + 1] == c[i + 2 + k];
      } else if k == n - 1 {
        assert r[k] == c[|c| - 1] == c[0] && r[k + 1] == c[1];
      } else {
        assert r[k] == c[k - n + 1] && r[k + 1] == c[k - n + 2];
      }
    }
  }

  /** A cycle of the rewritten plan was there before, if rewriting is safe. */
  lemma CycleWasThere(tasks: seq<Task>, g: Graph, g2: Graph, c: seq<Id>)
    requires UniqueIds(tasks) && Edges(tasks, g, g2) && SafeToRewrite(tasks) && g == GraphOf(tasks)
    requires Cycle(g2, c)
    ensures !Acyclic(g)
  {
    if i :| 0 <= i < |c| - 1 && c[i + 1] !in Deps(g, c[i]) {
      var r := Rotated(c, i);
      RotatedIsCycle(g2, c, i);
      ResearchOnCycle(tasks, g, g2, r);
      PathBelowIsOriginal(tasks, g, g2, r);
    } else {
      assert Cycle(g, c);
    }
  }

  /** The head of a cycle entered through an added edge is a research task. */
  lemma ResearchOnCycle(tasks: seq<Task>, g: Graph, g2: Graph, r: seq<Id>)
    requires UniqueIds(tasks) && Edges(tasks, g, g2) && SafeToRewrite(tasks)
    requires Cycle(g2, r) && r[0] !in Deps(g, r[|r| - 2])
    ensures BelowResearch(tasks, g, r[0])
  {
    var v := r[|r| - 2];
    assert r[|r| - 1] in Deps(g2, v);
    if IsSynthesisId(tasks, v) && |r| > 2 {
      assert v in Deps(g2, r[|r| - 3]);
      SynthesisIsTop(tasks, g, g2, r[|r| - 3], v);
    }
    assert PathFromTo(g, [r[0]], r[0], r[0]);
  }

  lemma UnsafeMakesCycle(tasks: seq<Task>, g: Graph, g2: Graph)
    requires UniqueIds(tasks) && Edges(tasks, g, g2) && !SafeToRewrite(tasks) && g == GraphOf(tasks)
    ensures !Acyclic(g2)
  {
    if t, d :| t in tasks && d in t.dependsOn && IsSynthesisId(tasks, d) {
      assert d in Deps(g2, t.id);
      SynthesisCycle(tasks, g, g2, t.id, d);
    } else {
      var a, k :| ResearchTask(tasks, a) && GraphTask(tasks, k) && Reaches(g, a, k);
      var p :| PathFromTo(g, p, a, k);
      ResearchCycle(tasks, g, g2, p);
    }
  }

  lemma SynthesisCycle(tasks: seq<Task>, g: Graph, g2: Graph, v: Id, d: Id)
    requires Edges(tasks, g, g2) && IsSynthesisId(tasks, d) && v in Ids(tasks) && d in Deps(g2, v)
    ensures !Acyclic(g2)
  {
    if v == d {
      assert Cycle(g2, [d, d]);
    } else {
      assert AddedEdge(tasks, d, v);
      assert Cycle(g2, [d, v, d]);
    }
  }

  lemma ResearchCycle(tasks: seq<Task>, g: Graph, g2: Graph, p: seq<Id>)
    requires Edges(tasks, g, g2) && Path(g, p)
    requires ResearchTask(tasks, p[0]) && GraphTask(tasks, p[|p| - 1])
    ensures !Acyclic(g2)
  {
    assert AddedEdge(tasks, p[|p| - 1], p[0]);
    assert Path(g2, p);
    ExtendPath(g2, p, p[0]);
    assert Cycle(g2, p + [p[0]]);
  }

  /** Rewriting a schedulable plan keeps it schedulable exactly when it is safe to rewrite. */
  lemma RewritingKeepsSchedulable(tasks: seq<Task>)
    requires UniqueIds(tasks) && Schedulable(GraphOf(tasks))
    ensures Schedulable(GraphOf(Rewritten(tasks))) <==> SafeToRewrite(tasks)
  {
    var g, g2 := GraphOf(tasks), GraphOf(Rewritten(tasks));
    RewritingEdges(tasks);
    forall v, d | v in g2 && d in g2[v]
      ensures d in g2
    {
      assert d in Deps(g2, v);
      if d !in Deps(g, v) && GraphTask(tasks, v) && ResearchTask(tasks, d) {
        var i :| 0 <= i < |tasks| && tasks[i].id == d;
        assert tasks[i] in tasks;
      }
    }
    if SafeToRewrite(tasks) {
      if c :| Cycle(g2, c) {
        CycleWasThere(tasks, g, g2, c);
      }
    } else {
      UnsafeMakesCycle(tasks, g, g2);
    }
  }

  /** After rewriting, every topological order ends with the last synthesis task. */
  lemma SynthesisRunsLast(tasks: seq<Task>, order: seq<Id>)
    requires UniqueIds(tasks) && LastSynthesis(tasks) >= 0
    requires Topological(GraphOf(Rewritten(tasks)), order)
    ensures order != [] && IsSynthesisId(tasks, order[|order| - 1])
  {
    var s := tasks[LastSynthesis(tasks)].id;
    var g2 := GraphOf(Rewritten(tasks));
    RewritingEdges(tasks);
    assert tasks[LastSynthesis(tasks)] in tasks && s in Elems(order);
    var i :| 0 <= i < |order| && order[i] == s;
    forall j | 0 <= j < |order| && order[j] != s
      ensures j < i
    {
      assert order[j] in Elems(order);
      assert AddedEdge(tasks, s, order[j]) && order[j] in Deps(g2, s);
      assert order[j] in Elems(order[..i]);
      var k :| 0 <= k < i && order[k] == order[j];
    }
  }

  /** A knowledge-graph task that depends on the synthesis task. */
  function GraphAfterSynthesis(): seq<Task> {
    [Task("r", "research", [], [], {}, true, true),
     Task("s", "synthesis", ["r"], [], {}, true, true),
     Task("k", "knowledge_graph", ["s"], [], {}, true, true)]
  }

  lemma GraphAfterSynthesisOk()
    ensures UniqueIds(GraphAfterSynthesis()) && Schedulable(GraphOf(GraphAfterSynthesis()))
  {
    var tasks := GraphAfterSynthesis();
    GraphOfUnique(tasks);
    assert tasks[0].id == "r" && tasks[1].id == "s" && tasks[2].id == "k";
    ChainOfThree(GraphOf(tasks), "r", "s", "k");
  }

  lemma ChainOfThree(g: Graph, a: Id, b: Id, c: Id)
    requires a != b && b != c && a != c && g.Keys == {a, b, c}
    requires g[a] == [] && g[b] == [a] && g[c] == [b]
    ensures Schedulable(g)
  {
    var order := [a, b, c];
    assert order[..1] == [a] && order[..2] == [a, b];
    assert AllIn(g[b], Elems(order[..1])) && AllIn(g[c], Elems(order[..2]));
    assert Elems(order) == {a, b, c};
    assert Topological(g, order);
    TopologicalImpliesSchedulable(g, order);
  }

  lemma GraphAfterSynthesisUnsafe()
    ensures !SafeToRewrite(GraphAfterSynthesis())
  {
    var tasks := GraphAfterSynthesis();
    assert tasks[2] in tasks && "s" in tasks[2].dependsOn;
    assert tasks[..2][|tasks[..2]| - 1] == tasks[1];
    assert LastSynthesis(tasks[..2]) == 1;
    assert LastSynthesis(tasks) == 1 && IsSynthesisId(tasks, "s");
  }

  lemma GraphAfterSynthesisAccepted()
    ensures PlanCheck.PlanOk(GraphAfterSynthesis(), {"research", "synthesis", "knowledge_graph"})
  {
    var tasks := GraphAfterSynthesis();
    assert PlanCheck.DependenciesListed(tasks) && Acyclic(PlanCheck.LastDeps(tasks)) by {
      GraphAfterSynthesisOk();
      PlanCheck.OkPlanIsSchedulable(tasks);
    }
    assert tasks[1] in tasks && tasks[2] in tasks;
  }

  /** The planner accepts such a plan and then makes it unschedulable. */
  lemma AcceptedThenBroken()
    ensures PlanCheck.PlanOk(GraphAfterSynthesis(), {"research", "synthesis", "knowledge_graph"})
    ensures !Schedulable(GraphOf(Rewritten(GraphAfterSynthesis())))
  {
    GraphAfterSynthesisAccepted();
    GraphAfterSynthesisOk();
    GraphAfterSynthesisUnsafe();
    RewritingKeepsSchedulable(GraphAfterSynthesis());
  }
}
