/** The abstract view of a plan that every scheduler of the repository is measured against:
    a map from task id to the ids it depends on, the paths and cycles of that relation, and
    the sets obtained by repeatedly peeling off tasks whose dependencies are already peeled. */
module Dag {

  type Id = string

  /** `g[v]` lists what `v` depends on. Listed ids need not be keys of the map. */
  type Graph = map<Id, seq<Id>>

  function Deps(g: Graph, v: Id): seq<Id> {
    if v in g then g[v] else []
  }

  ghost predicate Known(g: Graph) {
    forall v, d :: v in g && d in g[v] ==> d in g
  }

  ghost predicate Path(g: Graph, p: seq<Id>) {
    |p| > 0 && forall i :: 0 <= i < |p| - 1 ==> p[i + 1] in Deps(g, p[i])
  }

  ghost predicate Cycle(g: Graph, p: seq<Id>) {
    Path(g, p) && |p| > 1 && p[0] == p[|p| - 1]
  }

  ghost predicate Acyclic(g: Graph) {
    forall p :: !Cycle(g, p)
  }

  ghost predicate PathFromTo(g: Graph, p: seq<Id>, a: Id, b: Id) {
    Path(g, p) && p[0] == a && p[|p| - 1] == b
  }

  ghost predicate Reaches(g: Graph, a: Id, b: Id) {
    exists p :: PathFromTo(g, p, a, b)
  }

  /** `v` can never run: following dependencies from it leads to an unknown id or into a cycle. */
  ghost predicate Blocked(g: Graph, v: Id) {
    exists p :: Path(g, p) && p[0] == v && (p[|p| - 1] !in g || OnCycle(g, p[|p| - 1]))
  }

  ghost predicate OnCycle(g: Graph, v: Id) {
    exists q :: Cycle(g, q) && q[0] == v
  }

  /** Tasks that can have run after `n` rounds of running everything that is ready. */
  ghost function Peel(g: Graph, n: nat): set<Id> {
    if n == 0 then {} else Ready(g, Peel(g, n - 1))
  }

  ghost function Ready(g: Graph, done: set<Id>): set<Id> {
    set v | v in g && AllIn(g[v], done)
  }

  predicate AllIn(ds: seq<Id>, done: set<Id>) {
    forall d :: d in ds ==> d in done
  }

  ghost function Level(g: Graph, k: nat): set<Id> {
    Peel(g, k + 1) - Peel(g, k)
  }

  ghost function Resolved(g: Graph): set<Id> {
    Peel(g, |g|)
  }

  ghost predicate Schedulable(g: Graph) {
    Known(g) && Acyclic(g)
  }

  function Elems(s: seq<Id>): set<Id> {
    set x | x in s
  }

  ghost predicate Distinct(s: seq<Id>) {
    forall i, j :: 0 <= i < j < |s| ==> s[i] != s[j]
  }

  /** A permutation of the tasks in which every dependency stands before its dependents. */
  ghost predicate Topological(g: Graph, order: seq<Id>) {
    && Distinct(order)
    && Elems(order) == g.Keys
    && forall i :: 0 <= i < |order| ==> AllIn(g[order[i]], Elems(order[..i]))
  }

  // ---- peeling ----

  lemma {:induction false} PeelGrows(g: Graph, m: nat, n: nat)
    requires m <= n
    ensures Peel(g, m) <= Peel(g, n) <= g.Keys
    decreases n
  {
    if m > 0 {
      PeelGrows(g, m - 1, n - 1);
    }
  }

  lemma {:induction false} PeelStays(g: Graph, m: nat, n: nat)
    requires m <= n && Peel(g, m) == Peel(g, m + 1)
    ensures Peel(g, n) == Peel(g, m)
    decreases n
  {
    if m < n {
      PeelStays(g, m, n - 1);
    }
  }

  lemma {:induction false} PeelSize(g: Graph, n: nat)
    ensures Peel(g, n) == Peel(g, n + 1) || |Peel(g, n + 1)| >= n + 1
  {
    PeelGrows(g, n, n + 1);
    if n == 0 {
      if Peel(g, 1) != {} {
        var x :| x in Peel(g, 1);
        SubsetSize({x}, Peel(g, 1));
      }
    } else if Peel(g, n) != Peel(g, n + 1) {
      PeelSize(g, n - 1);
      var x :| x in Peel(g, n + 1) && x !in Peel(g, n);
      SubsetSize(Peel(g, n) + {x}, Peel(g, n + 1));
    }
  }

  lemma {:induction false} SubsetSize<T>(a: set<T>, b: set<T>)
    requires a <= b
    ensures |a| <= |b|
    ensures |a| == |b| ==> a == b
  {
    var rest := b - a;
    assert b == a + rest;
    assert |b| == |a| + |rest|;
  }

  /** Nothing becomes ready once every resolved task has run. */
  lemma ResolvedIsFixpoint(g: Graph, n: nat)
    requires n >= |g|
    ensures Peel(g, n) == Resolved(g) == Ready(g, Resolved(g))
  {
    PeelSize(g, |g|);
    PeelGrows(g, 0, |g| + 1);
    SubsetSize(Peel(g, |g| + 1), g.Keys);
    PeelStays(g, |g|, n);
  }

  lemma PeelInResolved(g: Graph, n: nat)
    ensures Peel(g, n) <= Resolved(g)
  {
    PeelGrows(g, n, n + |g|);
    ResolvedIsFixpoint(g, n + |g|);
  }

  /** Whatever order ready tasks are run in, running until nothing is ready runs exactly the
      resolved tasks. */
  lemma GreedyRunsResolved(g: Graph, done: set<Id>)
    requires done <= Resolved(g)
    requires Ready(g, done) <= done
    ensures done == Resolved(g)
  {
    PeelBelowClosed(g, done, |g|);
  }

  lemma {:induction false} PeelBelowClosed(g: Graph, done: set<Id>, n: nat)
    requires Ready(g, done) <= done
    ensures Peel(g, n) <= done
  {
    if n > 0 {
      PeelBelowClosed(g, done, n - 1);
    }
  }

  lemma ReadyIsResolved(g: Graph, done: set<Id>, v: Id)
    requires done <= Resolved(g) && v in g && AllIn(g[v], done)
    ensures v in Resolved(g)
  {
    ResolvedIsFixpoint(g, |g|);
  }

  /** When no task is released any more, the tasks run are the resolved ones. */
  lemma ExhaustedIsResolved(g: Graph, k: nat)
    requires Level(g, k) == {}
    ensures Peel(g, k) == Resolved(g)
  {
    PeelGrows(g, k, k + 1);
    var n := k + |g|;
    forall v | v in Peel(g, k + 1)
      ensures v in Peel(g, k)
    {
      assert v !in Level(g, k);
    }
    PeelStays(g, k, n);
    ResolvedIsFixpoint(g, n);
  }

  // ---- peeling and dependency chains ----

  /** A task is peeled within `n` rounds exactly when every dependency chain from it stays
      among the known tasks and has at most `n` tasks: rounds count the longest chain. */
  lemma {:induction false} PeelIsLongestChain(g: Graph, n: nat, v: Id)
    ensures v in Peel(g, n) <==> v in g && forall p :: Path(g, p) && p[0] == v ==> Elems(p) <= g.Keys && |p| <= n
  {
    if v in Peel(g, n) {
      forall p | Path(g, p) && p[0] == v
        ensures Elems(p) <= g.Keys && |p| <= n
      {
        ChainFromPeeled(g, n, p);
      }
    }
    if v in g && forall p :: Path(g, p) && p[0] == v ==> Elems(p) <= g.Keys && |p| <= n {
      assert Path(g, [v]) && [v][0] == v;
      assert n > 0;
      forall d | d in g[v]
        ensures d in Peel(g, n - 1)
      {
        assert Path(g, [v, d]) && d in Elems([v, d]);
        forall p | Path(g, p) && p[0] == d
          ensures Elems(p) <= g.Keys && |p| <= n - 1
        {
          var q := [v] + p;
          assert Path(g, q) && q[0] == v;
          assert Elems(p) <= Elems(q);
        }
        PeelIsLongestChain(g, n - 1, d);
      }
    }
  }

  lemma {:induction false} ChainFromPeeled(g: Graph, n: nat, p: seq<Id>)
    requires Path(g, p) && p[0] in Peel(g, n)
    ensures Elems(p) <= Peel(g, n) && Elems(p) <= g.Keys && |p| <= n
  {
    PeelGrows(g, n - 1, n);
    if |p| > 1 {
      var q := p[1..];
      assert p[1] in Deps(g, p[0]);
      SlicePath(g, p, 1, |p|);
      ChainFromPeeled(g, n - 1, q);
      assert forall x :: x in p ==> x == p[0] || x in q;
    }
  }

  /** Resolved tasks are exactly those from which no cycle and no unknown id can be reached. */
  lemma ResolvedIffNotBlocked(g: Graph, v: Id)
    requires v in g
    ensures v in Resolved(g) <==> !Blocked(g, v)
  {
    if v in Resolved(g) && Blocked(g, v) {
      var p :| Path(g, p) && p[0] == v && (p[|p| - 1] !in g || OnCycle(g, p[|p| - 1]));
      ChainFromPeeled(g, |g|, p);
      assert p[|p| - 1] in Elems(p);
      var q :| Cycle(g, q) && q[0] == p[|p| - 1];
      CycleNeverPeeled(g, |g|, q);
    }
    if !Blocked(g, v) {
      forall p | Path(g, p) && p[0] == v
        ensures Elems(p) <= g.Keys && |p| <= |g|
      {
        UnblockedChain(g, p);
      }
      PeelIsLongestChain(g, |g|, v);
    }
  }

  lemma {:induction false} CycleNeverPeeled(g: Graph, n: nat, q: seq<Id>)
    requires Cycle(g, q)
    ensures q[0] !in Peel(g, n)
  {
    if q[0] in Peel(g, n) {
      ChainFromPeeled(g, n, q);
      var r := q[1..] + [q[1]];
      assert q[1] in Deps(g, q[0]);
      assert q[1] in Peel(g, n - 1);
      forall i | 0 <= i < |r| - 1
        ensures r[i + 1] in Deps(g, r[i])
      {
        assert r[i] == q[i + 1];
        if i < |r| - 2 {
          assert r[i + 1] == q[i + 2];
        }
      }
      CycleNeverPeeled(g, n - 1, r);
    }
  }

  lemma UnblockedChain(g: Graph, p: seq<Id>)
    requires Path(g, p) && !Blocked(g, p[0])
    ensures Elems(p) <= g.Keys && |p| <= |g|
  {
    forall i | 0 <= i < |p|
      ensures p[i] in g && !OnCycle(g, p[i])
    {
      var q := p[..i + 1];
      assert Path(g, q) && q[0] == p[0] && q[|q| - 1] == p[i];
    }
    if |p| > |g| {
      var i := LongChainMeetsCycle(g, p);
    }
  }

  lemma LongChainMeetsCycle(g: Graph, p: seq<Id>) returns (i: nat)
    requires Path(g, p) && Elems(p) <= g.Keys && |p| > |g|
    ensures i < |p| && OnCycle(g, p[i])
  {
    assert forall x :: x in p ==> x in Elems(p);
    var j;
    i, j := Pigeonhole(p, g.Keys);
    SlicePath(g, p, i, j + 1);
    assert Cycle(g, p[i..j + 1]);
  }

  lemma SlicePath(g: Graph, p: seq<Id>, i: nat, j: nat)
    requires Path(g, p) && i < j <= |p|
    ensures Path(g, p[i..j])
  {
    var q := p[i..j];
    forall k | 0 <= k < |q| - 1
      ensures q[k + 1] in Deps(g, q[k])
    {
      assert q[k] == p[i + k] && q[k + 1] == p[i + k + 1];
    }
  }

  lemma {:induction false} Pigeonhole(p: seq<Id>, holes: set<Id>) returns (i: nat, j: nat)
    requires |p| > |holes| && forall x :: x in p ==> x in holes
    ensures i < j < |p| && p[i] == p[j]
  {
    var last := |p| - 1;
    if k :| 0 <= k < last && p[k] == p[last] {
      return k, last;
    }
    i, j := Pigeonhole(p[..last], holes - {p[last]});
  }

  /** The whole graph resolves exactly when it can be scheduled at all. */
  lemma AllResolvedIffSchedulable(g: Graph)
    ensures Resolved(g) == g.Keys <==> Schedulable(g)
  {
    PeelGrows(g, 0, |g|);
    if Resolved(g) == g.Keys {
      forall v, d | v in g && d in g[v]
        ensures d in g
      {
        ResolvedIffNotBlocked(g, v);
        assert Path(g, [v, d]) && [v, d][|[v, d]| - 1] == d;
      }
      forall p
        ensures !Cycle(g, p)
      {
        if Cycle(g, p) {
          assert p[1] in Deps(g, p[0]);
          CycleNeverPeeled(g, |g|, p);
        }
      }
    }
    if Schedulable(g) {
      forall v | v in g
        ensures v in Resolved(g)
      {
        if Blocked(g, v) {
          var p :| Path(g, p) && p[0] == v && (p[|p| - 1] !in g || OnCycle(g, p[|p| - 1]));
          KnownPathStays(g, p);
          assert p[|p| - 1] in Elems(p);
        }
        ResolvedIffNotBlocked(g, v);
      }
    }
  }

  lemma {:induction false} KnownPathStays(g: Graph, p: seq<Id>)
    requires Known(g) && Path(g, p) && p[0] in g
    ensures Elems(p) <= g.Keys
  {
    if |p| > 1 {
      var q := p[..|p| - 1];
      KnownPathStays(g, q);
      assert q[|q| - 1] in Elems(q);
      assert p[|q|] in Deps(g, p[|q| - 1]);
      assert forall x :: x in p ==> x in q || x == p[|q|];
    }
  }

  // ---- topological orders ----

  /** An order that respects dependencies is itself a witness that the graph can be scheduled. */
  lemma TopologicalImpliesSchedulable(g: Graph, order: seq<Id>)
    requires Topological(g, order)
    ensures Schedulable(g)
  {
    PrefixResolved(g, order, |order|);
    assert order[..|order|] == order;
    PeelGrows(g, 0, |g|);
    AllResolvedIffSchedulable(g);
  }

  lemma {:induction false} PrefixResolved(g: Graph, order: seq<Id>, n: nat)
    requires n <= |order| && Elems(order) <= g.Keys
    requires forall i :: 0 <= i < |order| ==> AllIn(g[order[i]], Elems(order[..i]))
    ensures Elems(order[..n]) <= Resolved(g)
  {
    if n > 0 {
      PrefixResolved(g, order, n - 1);
      var v := order[n - 1];
      assert v in Elems(order);
      ReadyIsResolved(g, Elems(order[..n - 1]), v);
      assert forall x :: x in order[..n] ==> x in order[..n - 1] || x == v;
    }
  }

  lemma {:induction false} DistinctSize(s: seq<Id>)
    requires Distinct(s)
    ensures |Elems(s)| == |s|
  {
    if s != [] {
      var t := s[..|s| - 1];
      DistinctSize(t);
      assert Elems(s) == Elems(t) + {s[|s| - 1]};
      assert s[|s| - 1] !in Elems(t);
    } else {
      assert Elems(s) == {};
    }
  }
}
