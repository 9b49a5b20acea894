/** Counting unmet dependencies: the indegree and adjacency maps kept by both queue-driven schedulers. */
module Indegree {
  import opened Dag

  function Count(s: seq<Id>, x: Id): nat {
    if s == [] then 0 else Count(s[..|s| - 1], x) + if s[|s| - 1] == x then 1 else 0
  }

  /** How many entries of a dependency list are still to be run. */
  function Pending(ds: seq<Id>, done: set<Id>): nat {
    if ds == [] then 0 else Pending(ds[..|ds| - 1], done) + if ds[|ds| - 1] in done then 0 else 1
  }

  lemma CountPrefix(s: seq<Id>, j: nat, x: Id)
    requires j < |s|
    ensures Count(s[..j + 1], x) == Count(s[..j], x) + if s[j] == x then 1 else 0
  {
    assert s[..j + 1] == s[..j] + [s[j]];
  }

  lemma {:induction false} CountGrows(s: seq<Id>, j: nat, x: Id)
    requires j <= |s|
    ensures Count(s[..j], x) <= Count(s, x)
    decreases |s| - j
  {
    if j < |s| {
      CountPrefix(s, j, x);
      CountGrows(s, j + 1, x);
    } else {
      assert s[..j] == s;
    }
  }

  lemma {:induction false} PendingZero(ds: seq<Id>, done: set<Id>)
    ensures Pending(ds, done) == 0 <==> AllIn(ds, done)
  {
    if ds != [] {
      PendingZero(ds[..|ds| - 1], done);
      assert forall d :: d in ds <==> d == ds[|ds| - 1] || d in ds[..|ds| - 1];
    }
  }

  lemma {:induction false} PendingDrops(ds: seq<Id>, done: set<Id>, x: Id)
    requires x !in done
    ensures Pending(ds, done + {x}) + Count(ds, x) == Pending(ds, done)
  {
    if ds != [] {
      PendingDrops(ds[..|ds| - 1], done, x);
    }
  }

  lemma {:induction false} PendingNone(ds: seq<Id>)
    ensures Pending(ds, {}) == |ds|
  {
    if ds != [] {
      PendingNone(ds[..|ds| - 1]);
    }
  }

  function Successors(adjacency: map<Id, seq<Id>>, d: Id): seq<Id> {
    if d in adjacency then adjacency[d] else []
  }

  /** `adjacency` inverts the graph, keeping multiplicities. */
  ghost predicate Inverts(adjacency: map<Id, seq<Id>>, g: Graph) {
    forall d, v :: Count(Successors(adjacency, d), v) == Count(Deps(g, v), d)
  }

  ghost predicate Counts(indegree: map<Id, int>, g: Graph, done: set<Id>) {
    indegree.Keys == g.Keys && forall v :: v in g ==> indegree[v] == Pending(g[v], done)
  }

  /** `indegree` counts the dependencies listed in `g`. */
  ghost predicate CountsAll(indegree: map<Id, int>, g: Graph) {
    indegree.Keys == g.Keys && forall v :: v in g ==> indegree[v] == |g[v]|
  }

  lemma CountsNothingRun(indegree: map<Id, int>, g: Graph)
    requires CountsAll(indegree, g)
    ensures Counts(indegree, g, {})
  {
    forall v | v in g {
      PendingNone(g[v]);
    }
  }

  /** Recording the edge from `v` to its dependency `d` in both maps. */
  lemma EdgeAdded(indegree: map<Id, int>, adjacency: map<Id, seq<Id>>, g: Graph, v: Id, d: Id)
    requires v in g && CountsAll(indegree, g) && Inverts(adjacency, g)
    ensures CountsAll(indegree[v := indegree[v] + 1], g[v := g[v] + [d]])
    ensures Inverts(adjacency[d := Successors(adjacency, d) + [v]], g[v := g[v] + [d]])
  {
    var adjacency', g' := adjacency[d := Successors(adjacency, d) + [v]], g[v := g[v] + [d]];
    forall x, y
      ensures Count(Successors(adjacency', x), y) == Count(Deps(g', y), x)
    {
      assert Count(Successors(adjacency, x), y) == Count(Deps(g, y), x);
    }
  }

  method AddDependencies(v: Id, dependsOn: seq<Id>, indegree0: map<Id, int>, adjacency0: map<Id, seq<Id>>,
                         ghost g: Graph)
    returns (indegree: map<Id, int>, adjacency: map<Id, seq<Id>>)
    requires v in g && CountsAll(indegree0, g) && Inverts(adjacency0, g)
    ensures CountsAll(indegree, g[v := g[v] + dependsOn]) && Inverts(adjacency, g[v := g[v] + dependsOn])
  {
    indegree, adjacency := indegree0, adjacency0;
    ghost var now := g;
    assert g[v] + dependsOn[..0] == g[v];
    for j := 0 to |dependsOn|
      invariant now == g[v := g[v] + dependsOn[..j]]
      invariant CountsAll(indegree, now) && Inverts(adjacency, now)
    {
      var dep := dependsOn[j];
      EdgeAdded(indegree, adjacency, now, v, dep);
      assert now[v] + [dep] == g[v] + dependsOn[..j + 1];
      now := now[v := now[v] + [dep]];
      indegree := indegree[v := indegree[v] + 1];
      adjacency := adjacency[dep := Successors(adjacency, dep) + [v]];
    }
    assert dependsOn[..|dependsOn|] == dependsOn;
  }

  /** The tasks whose counter has reached zero since `indegree0`. */
  ghost function Emptied(indegree0: map<Id, int>, indegree: map<Id, int>): set<Id> {
    set v | v in indegree0 && v in indegree && indegree0[v] > 0 && indegree[v] == 0
  }

  ghost predicate Decremented(indegree0: map<Id, int>, indegree: map<Id, int>, ds: seq<Id>) {
    indegree.Keys == indegree0.Keys && forall v :: v in indegree ==> indegree[v] == indegree0[v] - Count(ds, v)
  }

  ghost predicate Enough(indegree0: map<Id, int>, ds: seq<Id>) {
    forall v :: Count(ds, v) > 0 ==> v in indegree0 && Count(ds, v) <= indegree0[v]
  }

  /** Decrements the counters of `dependents`, queueing each task whose counter reaches zero. */
  method DecrementAll(dependents: seq<Id>, indegree0: map<Id, int>, queue0: seq<Id>)
    returns (indegree: map<Id, int>, queue: seq<Id>)
    requires Enough(indegree0, dependents)
    requires Distinct(queue0) && forall v :: v in queue0 ==> v in indegree0 && indegree0[v] == 0
    ensures Decremented(indegree0, indegree, dependents)
    ensures Distinct(queue) && Elems(queue) == Elems(queue0) + Emptied(indegree0, indegree)
  {
    indegree, queue := indegree0, queue0;
    for j := 0 to |dependents|
      invariant Decremented(indegree0, indegree, dependents[..j])
      invariant Distinct(queue) && Elems(queue) == Elems(queue0) + Emptied(indegree0, indegree)
    {
      var next := dependents[j];
      DecrementStep(indegree0, indegree, dependents, j);
      if indegree[next] - 1 == 0 {
        assert next !in queue by {
          assert next in queue ==> next in Elems(queue);
        }
        PushElems(queue, next);
        queue := queue + [next];
      }
      indegree := indegree[next := indegree[next] - 1];
    }
    assert dependents[..|dependents|] == dependents;
  }

  lemma PushElems(s: seq<Id>, x: Id)
    ensures Elems(s + [x]) == Elems(s) + {x}
    ensures Distinct(s) && x !in s ==> Distinct(s + [x])
  {
  }

  lemma DecrementStep(indegree0: map<Id, int>, indegree: map<Id, int>, ds: seq<Id>, j: nat)
    requires j < |ds| && Enough(indegree0, ds) && Decremented(indegree0, indegree, ds[..j])
    ensures ds[j] in indegree && indegree0[ds[j]] > 0 && indegree[ds[j]] > 0
    ensures var indegree' := indegree[ds[j] := indegree[ds[j]] - 1];
      Decremented(indegree0, indegree', ds[..j + 1])
      && Emptied(indegree0, indegree') == Emptied(indegree0, indegree) + if indegree[ds[j]] == 1 then {ds[j]} else {}
  {
    CountGrows(ds, j + 1, ds[j]);
    forall v {
      CountPrefix(ds, j, v);
    }
  }

  /** Running `id` releases exactly the tasks whose last unmet dependency it was. */
  method Release(id: Id, dependents: seq<Id>, indegree0: map<Id, int>, queue0: seq<Id>, ghost g: Graph,
                 ghost done: set<Id>)
    returns (indegree: map<Id, int>, queue: seq<Id>)
    requires id !in done
    requires forall v :: Count(dependents, v) == Count(Deps(g, v), id)
    requires Counts(indegree0, g, done)
    requires Distinct(queue0) && Elems(queue0) <= Ready(g, done)
    ensures Counts(indegree, g, done + {id})
    ensures Distinct(queue)
    ensures Elems(queue) == Elems(queue0) + (Ready(g, done + {id}) - Ready(g, done))
  {
    Drops(id, dependents, g, done);
    assert forall v :: v in queue0 ==> v in Elems(queue0);
    indegree, queue := DecrementAll(dependents, indegree0, queue0);
    assert Emptied(indegree0, indegree) == Ready(g, done + {id}) - Ready(g, done);
  }

  lemma Drops(id: Id, dependents: seq<Id>, g: Graph, done: set<Id>)
    requires id !in done
    requires forall v :: Count(dependents, v) == Count(Deps(g, v), id)
    ensures forall v :: v in g ==>
      && Pending(g[v], done + {id}) + Count(dependents, v) == Pending(g[v], done)
      && (Pending(g[v], done) == 0 <==> v in Ready(g, done))
      && (Pending(g[v], done + {id}) == 0 <==> v in Ready(g, done + {id}))
  {
    forall v | v in g
      ensures Pending(g[v], done + {id}) + Count(dependents, v) == Pending(g[v], done)
      ensures Pending(g[v], done) == 0 <==> v in Ready(g, done)
      ensures Pending(g[v], done + {id}) == 0 <==> v in Ready(g, done + {id})
    {
      PendingDrops(g[v], done, id);
      PendingZero(g[v], done);
      PendingZero(g[v], done + {id});
      assert Count(dependents, v) == Count(Deps(g, v), id);
    }
  }

  lemma ReadyGrows(g: Graph, a: set<Id>, b: set<Id>)
    requires a <= b
    ensures Ready(g, a) <= Ready(g, b)
  {
  }

  /** Collects the tasks without dependencies; the map is iterated in an arbitrary order. */
  method InitialQueue(indegree: map<Id, int>) returns (queue: seq<Id>)
    ensures Distinct(queue)
    ensures Elems(queue) == set v | v in indegree && indegree[v] == 0
  {
    queue := [];
    var unseen := indegree.Keys;
    while unseen != {}
      invariant unseen <= indegree.Keys
      invariant Distinct(queue)
      invariant Elems(queue) == set v | v in indegree && v !in unseen && indegree[v] == 0
    {
      var id :| id in unseen;
      if indegree[id] == 0 {
        assert id !in Elems(queue);
        PushElems(queue, id);
        queue := queue + [id];
      }
      unseen := unseen - {id};
    }
  }

  lemma ZeroIsReady(indegree: map<Id, int>, g: Graph, done: set<Id>)
    requires Counts(indegree, g, done)
    ensures Ready(g, done) == set v | v in indegree && indegree[v] == 0
    ensures g.Keys - Ready(g, done) == set v | v in indegree && indegree[v] > 0
  {
    forall v | v in g {
      PendingZero(g[v], done);
    }
  }
}
