/** The layered topological sort that turns a task list into execution hints. */
module PlanSchema {
  import opened Dag
  import opened Tasks
  import opened Indegree

  // ---- counting the dependencies of a task list ----

  /** The graph of the tasks before the `i`-th, over the ids of all tasks. */
  ghost function GraphTo(tasks: seq<Task>, i: nat): Graph
    requires i <= |tasks|
  {
    map v | v in Ids(tasks) :: DepsOf(tasks[..i], v)
  }

  lemma GraphToNext(tasks: seq<Task>, i: nat)
    requires i < |tasks|
    ensures tasks[i].id in GraphTo(tasks, i)
    ensures var t := tasks[i]; GraphTo(tasks, i + 1) == GraphTo(tasks, i)[t.id := GraphTo(tasks, i)[t.id] + t.dependsOn]
  {
    assert tasks[i] in tasks;
    assert tasks[..i + 1][..i] == tasks[..i];
    forall v
      ensures DepsOf(tasks[..i + 1], v) == DepsOf(tasks[..i], v) + if v == tasks[i].id then tasks[i].dependsOn else []
    {
    }
    var next := GraphTo(tasks, i)[tasks[i].id := GraphTo(tasks, i)[tasks[i].id] + tasks[i].dependsOn];
    assert GraphTo(tasks, i + 1).Keys == next.Keys;
    assert forall v :: v in next ==> GraphTo(tasks, i + 1)[v] == next[v];
  }

  method BuildIndegree(tasks: seq<Task>) returns (indegree: map<Id, int>, adjacency: map<Id, seq<Id>>)
    ensures Inverts(adjacency, GraphOf(tasks))
    ensures Counts(indegree, GraphOf(tasks), {})
  {
    adjacency := map[];
    indegree := map v | v in Ids(tasks) :: 0;
    for i := 0 to |tasks|
      invariant CountsAll(indegree, GraphTo(tasks, i)) && Inverts(adjacency, GraphTo(tasks, i))
    {
      var t := tasks[i];
      GraphToNext(tasks, i);
      indegree, adjacency := AddDependencies(t.id, t.dependsOn, indegree, adjacency, GraphTo(tasks, i));
    }
    assert tasks[..|tasks|] == tasks;
    CountsNothingRun(indegree, GraphOf(tasks));
  }

  // ---- ordering one layer by position in the task list ----

  /** The position of each id in the task list; a repeated id keeps its last position. */
  function IndexOf(tasks: seq<Task>): (index: map<Id, nat>)
    ensures index.Keys == Ids(tasks)
    ensures forall v, w :: v in index && w in index && v != w ==> index[v] != index[w]
    ensures forall v :: v in index ==> index[v] < |tasks| && tasks[index[v]].id == v
  {
    if tasks == [] then map[]
    else
      IdsOfPrefix(tasks, |tasks| - 1);
      assert tasks[..|tasks|] == tasks;
      IndexOf(tasks[..|tasks| - 1])[tasks[|tasks| - 1].id := |tasks| - 1]
  }

  /** `s` lists ids strictly by increasing position. */
  ghost predicate Listed(index: map<Id, nat>, s: seq<Id>) {
    && Elems(s) <= index.Keys
    && forall i, j :: 0 <= i < j < |s| ==> s[i] in index && s[j] in index && index[s[i]] < index[s[j]]
  }

  function InsertByIndex(x: Id, s: seq<Id>, index: map<Id, nat>): seq<Id>
    requires x in index && forall y :: y in s ==> y in index
  {
    if s == [] || index[x] < index[s[0]] then [x] + s else [s[0]] + InsertByIndex(x, s[1..], index)
  }

  function SortByIndex(s: seq<Id>, index: map<Id, nat>): (r: seq<Id>)
    requires forall y :: y in s ==> y in index
    ensures Elems(r) == Elems(s)
  {
    if s == [] then []
    else
      var rest := SortByIndex(s[1..], index);
      assert forall y :: y in rest ==> y in Elems(rest);
      InsertElems(s[0], rest, index);
      InsertByIndex(s[0], rest, index)
  }

  lemma {:induction false} InsertElems(x: Id, s: seq<Id>, index: map<Id, nat>)
    requires x in index && forall y :: y in s ==> y in index
    ensures Elems(InsertByIndex(x, s, index)) == Elems(s) + {x}
  {
    if s == [] || index[x] < index[s[0]] {
      assert Elems([x] + s) == {x} + Elems(s);
    } else {
      InsertElems(x, s[1..], index);
      var rest := InsertByIndex(x, s[1..], index);
      assert Elems([s[0]] + rest) == {s[0]} + Elems(rest);
      assert Elems(s) == {s[0]} + Elems(s[1..]);
    }
  }

  lemma {:induction false} InsertListed(x: Id, s: seq<Id>, index: map<Id, nat>)
    requires x in index && Listed(index, s)
    requires forall y :: y in s ==> y in index && index[y] != index[x]
    ensures Listed(index, InsertByIndex(x, s, index))
  {
    InsertElems(x, s, index);
    if s == [] {
    } else if index[x] < index[s[0]] {
      assert forall i :: 0 < i < |s| ==> index[s[0]] < index[s[i]];
    } else {
      InsertListed(x, s[1..], index);
      InsertElems(x, s[1..], index);
      var r := InsertByIndex(x, s[1..], index);
      forall j | 0 <= j < |r|
        ensures r[j] in index && index[s[0]] < index[r[j]]
      {
        assert r[j] in Elems(r);
      }
    }
  }

  lemma {:induction false} SortListed(s: seq<Id>, index: map<Id, nat>)
    requires Distinct(s) && forall y :: y in s ==> y in index
    requires forall v, w :: v in index && w in index && v != w ==> index[v] != index[w]
    ensures Listed(index, SortByIndex(s, index))
  {
    if s != [] {
      SortListed(s[1..], index);
      var rest := SortByIndex(s[1..], index);
      assert forall y :: y in rest ==> y in Elems(rest);
      InsertListed(s[0], rest, index);
    }
  }

  /** A listing is determined by the set it lists. */
  lemma {:induction false} ListedUnique(index: map<Id, nat>, s: seq<Id>, t: seq<Id>)
    requires Listed(index, s) && Listed(index, t) && Elems(s) == Elems(t)
    ensures s == t
  {
    assert s != [] ==> s[0] in Elems(t);
    assert t != [] ==> t[0] in Elems(s);
    if s != [] {
      var i :| 0 <= i < |s| && s[i] == t[0];
      var j :| 0 <= j < |t| && t[j] == s[0];
      assert Elems(s[1..]) == Elems(s) - {s[0]};
      assert Elems(t[1..]) == Elems(t) - {t[0]};
      ListedUnique(index, s[1..], t[1..]);
    }
  }

  // ---- computeExecutionHints ----

  datatype HintsResult = Hints(order: seq<Id>, layers: seq<seq<Id>>) | CycleDetected(stuck: set<Id>)

  function Flatten(layers: seq<seq<Id>>): seq<Id> {
    if layers == [] then [] else Flatten(layers[..|layers| - 1]) + layers[|layers| - 1]
  }

  /** Layer `k` lists, by position, the tasks whose longest dependency chain has `k + 1` tasks. */
  ghost predicate LayersTo(g: Graph, index: map<Id, nat>, layers: seq<seq<Id>>) {
    forall k :: 0 <= k < |layers| ==> IsLayer(g, index, k, layers[k])
  }

  ghost predicate IsLayer(g: Graph, index: map<Id, nat>, k: nat, layer: seq<Id>) {
    layer != [] && Elems(layer) == Level(g, k) && Listed(index, layer)
  }

  ghost predicate IsHints(g: Graph, index: map<Id, nat>, order: seq<Id>, layers: seq<seq<Id>>) {
    order == Flatten(layers) && LayersTo(g, index, layers) && Peel(g, |layers|) == g.Keys
  }

  /** Runs one layer: every task of `current` is appended to the order and its dependents released. */
  method RunLayer(current: seq<Id>, order0: seq<Id>, indegree0: map<Id, int>, adjacency: map<Id, seq<Id>>,
                  ghost g: Graph, ghost k: nat)
    returns (order: seq<Id>, indegree: map<Id, int>, queue: seq<Id>)
    requires Inverts(adjacency, g) && Counts(indegree0, g, Peel(g, k))
    requires Distinct(current) && Elems(current) == Level(g, k)
    ensures order == order0 + current
    ensures Counts(indegree, g, Peel(g, k + 1))
    ensures Distinct(queue) && Elems(queue) == Level(g, k + 1)
  {
    order, indegree, queue := order0, indegree0, [];
    ghost var start := Peel(g, k);
    assert start + Elems(current[..0]) == start;
    PeelGrows(g, k, k + 1);
    PeelGrows(g, k + 1, k + 2);
    for i := 0 to |current|
      invariant order == order0 + current[..i]
      invariant Counts(indegree, g, start + Elems(current[..i]))
      invariant Distinct(queue) && Elems(queue) == Ready(g, start + Elems(current[..i])) - Ready(g, start)
    {
      var id := current[i];
      ghost var done := start + Elems(current[..i]);
      assert current[..i + 1] == current[..i] + [id];
      assert id in Elems(current);
      PushElems(current[..i], id);
      assert done + {id} == start + Elems(current[..i + 1]);
      ReadyGrows(g, start, done);
      ReadyGrows(g, done, done + {id});
      order := order + [id];
      indegree, queue := Release(id, Successors(adjacency, id), indegree, queue, g, done);
    }
    assert current[..|current|] == current;
    assert start + Elems(current) == Peel(g, k + 1);
  }

  lemma ListedDistinct(index: map<Id, nat>, s: seq<Id>)
    requires Listed(index, s)
    ensures Distinct(s)
  {
  }

  lemma FlattenPush(layers: seq<seq<Id>>, layer: seq<Id>)
    ensures Flatten(layers + [layer]) == Flatten(layers) + layer
  {
    assert (layers + [layer])[..|layers|] == layers;
  }

  lemma LayerDone(g: Graph, k: nat, layer: seq<Id>)
    requires Distinct(layer) && Elems(layer) == Level(g, k)
    ensures |Peel(g, k + 1)| == |Peel(g, k)| + |layer|
  {
    PeelGrows(g, k, k + 1);
    DistinctSize(layer);
    assert Peel(g, k + 1) == Peel(g, k) + Elems(layer);
  }

  lemma CompleteIffSchedulable(tasks: seq<Task>)
    ensures |Resolved(GraphOf(tasks))| == |tasks| <==> UniqueIds(tasks) && Schedulable(GraphOf(tasks))
  {
    var g := GraphOf(tasks);
    assert g.Keys == Ids(tasks);
    PeelGrows(g, 0, |g|);
    SubsetSize(Resolved(g), Ids(tasks));
    UniqueIffCount(tasks);
    AllResolvedIffSchedulable(g);
  }

  /** What holds between layers: the first `|layers|` layers have run and the next one is queued. */
  ghost predicate Layered(g: Graph, index: map<Id, nat>, order: seq<Id>, layers: seq<seq<Id>>,
                          indegree: map<Id, int>, queue: seq<Id>) {
    var k := |layers|;
    && order == Flatten(layers) && LayersTo(g, index, layers)
    && Counts(indegree, g, Peel(g, k)) && |order| == |Peel(g, k)|
    && Distinct(queue) && Elems(queue) == Level(g, k)
  }

  lemma LayerAdded(g: Graph, index: map<Id, nat>, layers: seq<seq<Id>>, order: seq<Id>, layer: seq<Id>)
    requires order == Flatten(layers) && LayersTo(g, index, layers)
    requires |order| == |Peel(g, |layers|)|
    requires IsLayer(g, index, |layers|, layer)
    ensures order + layer == Flatten(layers + [layer]) && LayersTo(g, index, layers + [layer])
    ensures |order + layer| == |Peel(g, |layers| + 1)| <= |g|
  {
    var k := |layers|;
    ListedDistinct(index, layer);
    LayerDone(g, k, layer);
    FlattenPush(layers, layer);
    PeelGrows(g, k + 1, k + 1);
    SubsetSize(Peel(g, k + 1), g.Keys);
  }

  /** When the queue runs dry, the counters above zero are those of blocked tasks. */
  lemma DryQueue(g: Graph, index: map<Id, nat>, order: seq<Id>, layers: seq<seq<Id>>, indegree: map<Id, int>)
    requires Layered(g, index, order, layers, indegree, [])
    ensures |order| == |Resolved(g)|
    ensures Schedulable(g) ==> IsHints(g, index, order, layers)
    ensures (set v | v in indegree && indegree[v] > 0) == set v | v in g && Blocked(g, v)
  {
    ExhaustedIsResolved(g, |layers|);
    AllResolvedIffSchedulable(g);
    ResolvedIsFixpoint(g, |g|);
    ZeroIsReady(indegree, g, Resolved(g));
    forall v | v in g {
      ResolvedIffNotBlocked(g, v);
    }
  }

  /** The main loop: runs layer after layer until nothing is queued. */
  method RunLayers(index: map<Id, nat>, indegree0: map<Id, int>, adjacency: map<Id, seq<Id>>, ghost g: Graph)
    returns (order: seq<Id>, layers: seq<seq<Id>>, indegree: map<Id, int>)
    requires Inverts(adjacency, g) && Counts(indegree0, g, {})
    requires index.Keys == g.Keys
    requires forall v, w :: v in index && w in index && v != w ==> index[v] != index[w]
    ensures Layered(g, index, order, layers, indegree, [])
  {
    indegree := indegree0;
    var queue := InitialQueue(indegree);
    ZeroIsReady(indegree, g, {});
    order, layers := [], [];
    while |queue| > 0
      invariant Layered(g, index, order, layers, indegree, queue)
      decreases |g| - |order|
    {
      var current := SortQueue(queue, index, g, |layers|);
      LayerAdded(g, index, layers, order, current);
      order, indegree, queue := RunLayer(current, order, indegree, adjacency, g, |layers|);
      layers := layers + [current];
    }
  }

  method ComputeExecutionHints(tasks: seq<Task>) returns (r: HintsResult)
    ensures r.Hints? <==> UniqueIds(tasks) && Schedulable(GraphOf(tasks))
    ensures r.Hints? ==> IsHints(GraphOf(tasks), IndexOf(tasks), r.order, r.layers)
    ensures r.CycleDetected? ==> r.stuck == set v | v in Ids(tasks) && Blocked(GraphOf(tasks), v)
  {
    ghost var g := GraphOf(tasks);
    var index := IndexOf(tasks);
    var indegree, adjacency := BuildIndegree(tasks);
    var order, layers;
    order, layers, indegree := RunLayers(index, indegree, adjacency, g);
    DryQueue(g, index, order, layers, indegree);
    CompleteIffSchedulable(tasks);
    if |order| != |tasks| {
      return CycleDetected(set v | v in indegree && indegree[v] > 0);
    }
    return Hints(order, layers);
  }

  /** The queue sorted by position before it becomes a layer. */
  function SortQueue(queue: seq<Id>, index: map<Id, nat>, ghost g: Graph, ghost k: nat): (layer: seq<Id>)
    requires index.Keys == g.Keys && Distinct(queue) && Elems(queue) == Level(g, k)
    requires forall v, w :: v in index && w in index && v != w ==> index[v] != index[w]
    ensures Elems(layer) == Level(g, k) && Listed(index, layer) && Distinct(layer)
    ensures queue != [] ==> layer != []
  {
    PeelGrows(g, k + 1, k + 1);
    assert forall y :: y in queue ==> y in Elems(queue);
    SortListed(queue, index);
    assert queue != [] ==> queue[0] in Elems(queue);
    SortByIndex(queue, index)
  }

  // ---- what the hints mean ----

  /** A task in layer `k` has a dependency chain of `k + 1` tasks and none longer. */
  lemma LayerIsLongestChain(g: Graph, index: map<Id, nat>, order: seq<Id>, layers: seq<seq<Id>>, k: nat, v: Id)
    requires IsHints(g, index, order, layers) && k < |layers|
    ensures v in layers[k] <==>
      && v in g
      && (exists p :: Path(g, p) && p[0] == v && |p| == k + 1)
      && forall p :: Path(g, p) && p[0] == v ==> |p| <= k + 1
  {
    PeelGrows(g, k + 1, |layers|);
    PeelIsLongestChain(g, k + 1, v);
    PeelIsLongestChain(g, k, v);
    PeelIsLongestChain(g, |layers|, v);
    assert v in layers[k] <==> v in Elems(layers[k]);
    assert IsLayer(g, index, k, layers[k]);
  }

  lemma {:induction false} FlattenLayers(g: Graph, index: map<Id, nat>, layers: seq<seq<Id>>)
    requires LayersTo(g, index, layers)
    ensures Distinct(Flatten(layers)) && Elems(Flatten(layers)) == Peel(g, |layers|)
    ensures forall i :: 0 <= i < |Flatten(layers)| ==>
      Flatten(layers)[i] in g && AllIn(g[Flatten(layers)[i]], Elems(Flatten(layers)[..i]))
  {
    if layers != [] {
      var k := |layers| - 1;
      var front, layer := layers[..k], layers[k];
      FlattenLayers(g, index, front);
      PeelGrows(g, k, k + 1);
      assert IsLayer(g, index, k, layer);
      JoinLayer(g, Flatten(front), layer, k);
    }
  }

  lemma JoinLayer(g: Graph, a: seq<Id>, layer: seq<Id>, k: nat)
    requires Distinct(a) && Elems(a) == Peel(g, k)
    requires forall i :: 0 <= i < |a| ==> a[i] in g && AllIn(g[a[i]], Elems(a[..i]))
    requires Distinct(layer) && Elems(layer) == Level(g, k)
    ensures Distinct(a + layer) && Elems(a + layer) == Peel(g, k + 1)
    ensures forall i :: 0 <= i < |a + layer| ==>
      (a + layer)[i] in g && AllIn(g[(a + layer)[i]], Elems((a + layer)[..i]))
  {
    var s := a + layer;
    PeelGrows(g, k, k + 1);
    assert Elems(s) == Elems(a) + Elems(layer);
    forall i, j | 0 <= i < j < |s|
      ensures s[i] != s[j]
    {
      assert i < |a| ==> s[i] in Elems(a);
      assert j >= |a| ==> s[j] in Elems(layer);
    }
    forall i | 0 <= i < |s|
      ensures s[i] in g && AllIn(g[s[i]], Elems(s[..i]))
    {
      if i < |a| {
        assert s[..i] == a[..i];
      } else {
        assert s[i] in Elems(layer);
        assert s[..i] == a + layer[..i - |a|];
        assert Elems(a) <= Elems(s[..i]);
      }
    }
  }

  /** The computed order runs every task once, each after all of its dependencies. */
  lemma HintsTopological(g: Graph, index: map<Id, nat>, order: seq<Id>, layers: seq<seq<Id>>)
    requires IsHints(g, index, order, layers)
    ensures Topological(g, order)
  {
    FlattenLayers(g, index, layers);
  }

  /** The hints are a function of the task list: map iteration order cannot be observed. */
  lemma HintsUnique(g: Graph, index: map<Id, nat>, order: seq<Id>, layers: seq<seq<Id>>, order': seq<Id>,
                    layers': seq<seq<Id>>)
    requires IsHints(g, index, order, layers) && IsHints(g, index, order', layers')
    ensures order == order' && layers == layers'
  {
    LayerCount(g, index, layers, layers');
    LayerCount(g, index, layers', layers);
    forall k | 0 <= k < |layers|
      ensures layers[k] == layers'[k]
    {
      assert IsLayer(g, index, k, layers[k]) && IsLayer(g, index, k, layers'[k]);
      ListedUnique(index, layers[k], layers'[k]);
    }
    assert layers == layers';
  }

  lemma LayerCount(g: Graph, index: map<Id, nat>, layers: seq<seq<Id>>, layers': seq<seq<Id>>)
    requires LayersTo(g, index, layers) && LayersTo(g, index, layers')
    requires Peel(g, |layers'|) == g.Keys
    ensures |layers| <= |layers'|
  {
    if |layers| > |layers'| {
      var k := |layers'|;
      assert IsLayer(g, index, k, layers[k]);
      PeelGrows(g, k + 1, k + 1);
      NonemptyElems(layers[k]);
    }
  }

  lemma NonemptyElems(s: seq<Id>)
    ensures s == [] <==> Elems(s) == {}
  {
    if s != [] {
      assert s[0] in Elems(s);
    }
  }
}
