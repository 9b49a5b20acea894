/** Structural validation and normalisation of whole plan documents. */
module PlanDocument {
  import opened Dag
  import opened Tasks
  import opened Indegree
  import opened PlanSchema

  datatype Edge = Edge(from: Id, to: Id)
  datatype Stage = Stage(name: string, tasks: seq<Id>, checkpointToken: string)

  /** `durationsOk` says whether the budget and estimate durations of the document are absent or parse. */
  datatype Document = Document(
    version: string, tasks: seq<Task>, edges: seq<Edge>, durationsOk: bool,
    executionOrder: seq<Id>, executionLayers: seq<Stage>)

  datatype ValidationError =
    | NoTasks
    | DuplicateTaskId(task: nat, first: nat)
    | SelfDependency(task: nat, dep: nat)
    | UnknownDependency(task: nat, dep: nat)
    | DuplicateDependency(task: nat, dep: nat)
    | InvalidTimeout(task: nat)
    | InvalidEstimatedTime(task: nat)
    | UnknownEdgeEnd(edge: nat, id: Id)
    | LoopEdge(edge: nat)
    | InvalidDuration
    | OrderUnknownTask(pos: nat)
    | OrderRepeats(pos: nat, first: nat)
    | OrderTooEarly(pos: nat, missing: Id)
    | OrderMissing(ids: set<Id>)
    | OrderExtras(unknown: seq<Id>)
    | CyclicPlan(stuck: set<Id>)

  // ---- what each error says ----

  ghost predicate IdDefect(tasks: seq<Task>, e: ValidationError) {
    e.DuplicateTaskId? && e.first < e.task < |tasks| && tasks[e.task].id == tasks[e.first].id
  }

  /** A defect of the `i`-th task `t` in a plan with these ids. */
  ghost predicate TaskDefect(i: nat, t: Task, ids: set<Id>, e: ValidationError) {
    match e
    case SelfDependency(n, j) => n == i && j < |t.dependsOn| && t.dependsOn[j] == t.id
    case UnknownDependency(n, j) => n == i && j < |t.dependsOn| && t.dependsOn[j] !in ids
    case DuplicateDependency(n, j) => n == i && j < |t.dependsOn| && t.dependsOn[j] in t.dependsOn[..j]
    case InvalidTimeout(n) => n == i && !t.timeoutOk
    case InvalidEstimatedTime(n) => n == i && !t.estimatedTimeOk
    case _ => false
  }

  ghost predicate SomeTaskDefect(tasks: seq<Task>, ids: set<Id>, e: ValidationError) {
    exists i: nat :: i < |tasks| && TaskDefect(i, tasks[i], ids, e)
  }

  ghost predicate EdgeDefect(edges: seq<Edge>, ids: set<Id>, e: ValidationError) {
    match e
    case UnknownEdgeEnd(n, id) => n < |edges| && id in {edges[n].from, edges[n].to} && id != "" && id !in ids
    case LoopEdge(n) => n < |edges| && edges[n].from == edges[n].to != ""
    case _ => false
  }

  /** A defect of an execution order; with repeated ids a task is the first one listed. */
  ghost predicate OrderDefect(tasks: seq<Task>, order: seq<Id>, e: ValidationError) {
    match e
    case OrderUnknownTask(pos) => pos < |order| && order[pos] !in Ids(tasks)
    case OrderRepeats(pos, first) => first < pos < |order| && order[first] == order[pos]
    case OrderTooEarly(pos, dep) =>
      && pos < |order| && dep !in Elems(order[..pos]) * Ids(tasks)
      && exists t :: t in tasks && t.id == order[pos] && dep in t.dependsOn
    case OrderMissing(ids) => ids == Ids(tasks) - Elems(order) && |Elems(order) * Ids(tasks)| != |tasks|
    case OrderExtras(unknown) => |order| > |tasks| && Elems(unknown) == Elems(order) - Ids(tasks) != {}
    case _ => false
  }

  ghost predicate OrderDefects(tasks: seq<Task>, order: seq<Id>, errs: seq<ValidationError>) {
    forall e :: e in errs ==> OrderDefect(tasks, order, e)
  }

  lemma OrderDefectsPush(tasks: seq<Task>, order: seq<Id>, errs: seq<ValidationError>, e: ValidationError)
    requires OrderDefects(tasks, order, errs) && OrderDefect(tasks, order, e)
    ensures OrderDefects(tasks, order, errs + [e])
  {
  }

  /** The document has the defect that the error names. */
  ghost predicate Defect(doc: Document, e: ValidationError) {
    || (e.NoTasks? && doc.tasks == [])
    || IdDefect(doc.tasks, e) || SomeTaskDefect(doc.tasks, Ids(doc.tasks), e)
    || EdgeDefect(doc.edges, Ids(doc.tasks), e)
    || (e.InvalidDuration? && !doc.durationsOk)
    || (doc.executionOrder != [] && OrderDefect(doc.tasks, doc.executionOrder, e))
  }

  // ---- validateExecutionOrder ----

  /** The first position of each id: later repetitions are skipped when the index is built. */
  ghost predicate FirstIndex(tasks: seq<Task>, index: map<Id, nat>) {
    && index.Keys == Ids(tasks)
    && forall v :: v in index ==> index[v] < |tasks| && tasks[index[v]].id == v
  }

  ghost predicate OrderedTo(g: Graph, order: seq<Id>, n: nat)
    requires n <= |order|
  {
    && (forall i, j :: 0 <= i < j < n ==> order[i] != order[j])
    && forall i :: 0 <= i < n ==> order[i] in g && AllIn(g[order[i]], Elems(order[..i]))
  }

  /** Reports the first dependency of a task that has not been scheduled before it. */
  method CheckScheduled(pos: nat, dependsOn: seq<Id>, scheduled: map<Id, nat>) returns (errs: seq<ValidationError>)
    ensures errs == [] <==> AllIn(dependsOn, scheduled.Keys)
    ensures errs != [] ==> exists j :: 0 <= j < |dependsOn| && errs == [OrderTooEarly(pos, dependsOn[j])]
                                    && dependsOn[j] !in scheduled && AllIn(dependsOn[..j], scheduled.Keys)
  {
    for j := 0 to |dependsOn|
      invariant AllIn(dependsOn[..j], scheduled.Keys)
    {
      if dependsOn[j] !in scheduled {
        return [OrderTooEarly(pos, dependsOn[j])];
      }
    }
    return [];
  }

  function FirstDeps(tasks: seq<Task>, index: map<Id, nat>): Graph
    requires FirstIndex(tasks, index)
  {
    map v | v in index :: tasks[index[v]].dependsOn
  }

  /** Walks the order, reporting unknown, repeated and too early tasks. */
  method ScheduleAll(order: seq<Id>, tasks: seq<Task>, index: map<Id, nat>)
    returns (errs: seq<ValidationError>, scheduled: map<Id, nat>)
    requires FirstIndex(tasks, index)
    ensures scheduled.Keys == Elems(order) * index.Keys
    ensures errs == [] <==> OrderedTo(FirstDeps(tasks, index), order, |order|)
    ensures OrderDefects(tasks, order, errs)
  {
    errs := [];
    scheduled := map[];
    assert Elems(order[..0]) == {};
    for pos := 0 to |order|
      invariant ScheduledTo(order, index, pos, scheduled)
      invariant errs == [] <==> OrderedTo(FirstDeps(tasks, index), order, pos)
      invariant OrderDefects(tasks, order, errs)
    {
      errs, scheduled := ScheduleOne(order, tasks, index, pos, errs, scheduled);
    }
    assert order[..|order|] == order;
  }

  /** What has been scheduled of an order, each task where it first stands. */
  ghost predicate ScheduledTo(order: seq<Id>, index: map<Id, nat>, pos: nat, scheduled: map<Id, nat>)
    requires pos <= |order|
  {
    && scheduled.Keys == Elems(order[..pos]) * index.Keys
    && forall id :: id in scheduled ==> scheduled[id] < pos && order[scheduled[id]] == id
  }

  lemma ScheduledNext(order: seq<Id>, index: map<Id, nat>, pos: nat, scheduled: map<Id, nat>)
    requires pos < |order| && ScheduledTo(order, index, pos, scheduled)
    ensures ScheduledTo(order, index, pos + 1,
                        if order[pos] in index && order[pos] !in scheduled then scheduled[order[pos] := pos]
                        else scheduled)
  {
    assert order[..pos + 1] == order[..pos] + [order[pos]];
    PushElems(order[..pos], order[pos]);
  }

  method ScheduleOne(order: seq<Id>, tasks: seq<Task>, index: map<Id, nat>, pos: nat, errs0: seq<ValidationError>,
                     scheduled0: map<Id, nat>)
    returns (errs: seq<ValidationError>, scheduled: map<Id, nat>)
    requires FirstIndex(tasks, index) && pos < |order| && ScheduledTo(order, index, pos, scheduled0)
    requires errs0 == [] <==> OrderedTo(FirstDeps(tasks, index), order, pos)
    requires OrderDefects(tasks, order, errs0)
    ensures ScheduledTo(order, index, pos + 1, scheduled)
    ensures errs == [] <==> OrderedTo(FirstDeps(tasks, index), order, pos + 1)
    ensures OrderDefects(tasks, order, errs)
  {
    var id := order[pos];
    OrderStep(FirstDeps(tasks, index), order, pos);
    ScheduledNext(order, index, pos, scheduled0);
    if id !in index {
      OrderDefectsPush(tasks, order, errs0, OrderUnknownTask(pos));
      return errs0 + [OrderUnknownTask(pos)], scheduled0;
    }
    if id in scheduled0 {
      OrderDefectsPush(tasks, order, errs0, OrderRepeats(pos, scheduled0[id]));
      return errs0 + [OrderRepeats(pos, scheduled0[id])], scheduled0;
    }
    var late := CheckScheduled(pos, tasks[index[id]].dependsOn, scheduled0);
    LateIsDefect(tasks, order, pos, index[id], scheduled0.Keys, errs0, late);
    return errs0 + late, scheduled0[id := pos];
  }

  lemma LateIsDefect(tasks: seq<Task>, order: seq<Id>, pos: nat, i: nat, scheduled: set<Id>,
                     errs: seq<ValidationError>, late: seq<ValidationError>)
    requires pos < |order| && i < |tasks| && tasks[i].id == order[pos]
    requires scheduled == Elems(order[..pos]) * Ids(tasks) && OrderDefects(tasks, order, errs)
    requires late != [] ==> exists j :: 0 <= j < |tasks[i].dependsOn| && tasks[i].dependsOn[j] !in scheduled
                                     && late == [OrderTooEarly(pos, tasks[i].dependsOn[j])]
    ensures OrderDefects(tasks, order, errs + late)
  {
    if late != [] {
      assert tasks[i] in tasks && tasks[i].id == order[pos];
      var j :| 0 <= j < |tasks[i].dependsOn| && tasks[i].dependsOn[j] !in scheduled
            && late == [OrderTooEarly(pos, tasks[i].dependsOn[j])];
      OrderDefectsPush(tasks, order, errs, OrderTooEarly(pos, tasks[i].dependsOn[j]));
    }
  }

  lemma OrderStep(g: Graph, order: seq<Id>, pos: nat)
    requires pos < |order|
    ensures OrderedTo(g, order, pos + 1) <==>
      && OrderedTo(g, order, pos)
      && order[pos] in g && order[pos] !in Elems(order[..pos])
      && AllIn(g[order[pos]], Elems(order[..pos]))
    ensures OrderedTo(g, order, pos) && order[pos] in g ==>
      (AllIn(g[order[pos]], Elems(order[..pos])) <==> AllIn(g[order[pos]], Elems(order[..pos]) * g.Keys))
  {
    if OrderedTo(g, order, pos) {
      assert Elems(order[..pos]) <= g.Keys;
      assert order[pos] in Elems(order[..pos]) <==> exists i :: 0 <= i < pos && order[i] == order[pos];
    }
  }

  lemma FirstDepsIsGraph(tasks: seq<Task>, index: map<Id, nat>)
    requires FirstIndex(tasks, index) && UniqueIds(tasks)
    ensures FirstDeps(tasks, index) == GraphOf(tasks)
  {
    GraphOfUnique(tasks);
  }

  /** A clean walk over as many ids as there are tasks is a topological permutation. */
  lemma CleanWalk(order: seq<Id>, tasks: seq<Task>, index: map<Id, nat>, scheduled: set<Id>)
    requires FirstIndex(tasks, index) && scheduled == Elems(order) * index.Keys
    requires OrderedTo(FirstDeps(tasks, index), order, |order|) && |scheduled| == |tasks|
    ensures UniqueIds(tasks) && Topological(GraphOf(tasks), order)
  {
    UniqueIffCount(tasks);
    SubsetSize(scheduled, Ids(tasks));
    FirstDepsIsGraph(tasks, index);
    assert forall i :: 0 <= i < |order| ==> order[i] in index;
    assert Elems(order) == Ids(tasks);
  }

  lemma TopologicalWalk(order: seq<Id>, tasks: seq<Task>, index: map<Id, nat>)
    requires FirstIndex(tasks, index)
    requires UniqueIds(tasks) && Topological(GraphOf(tasks), order)
    ensures OrderedTo(FirstDeps(tasks, index), order, |order|)
    ensures |order| == |tasks| == |Elems(order) * index.Keys|
  {
    TopologicalIsOrdered(GraphOf(tasks), order);
    FirstDepsIsGraph(tasks, index);
    UniqueIffCount(tasks);
    KeysOfGraph(tasks);
    assert Elems(order) * index.Keys == index.Keys;
  }

  lemma KeysOfGraph(tasks: seq<Task>)
    ensures GraphOf(tasks).Keys == Ids(tasks)
  {
  }

  lemma TopologicalIsOrdered(g: Graph, order: seq<Id>)
    requires Topological(g, order)
    ensures OrderedTo(g, order, |order|) && |order| == |g.Keys|
  {
    DistinctSize(order);
    assert forall i :: 0 <= i < |order| ==> order[i] in Elems(order);
  }

  method ValidateExecutionOrder(order: seq<Id>, tasks: seq<Task>, index: map<Id, nat>)
    returns (errs: seq<ValidationError>)
    requires FirstIndex(tasks, index)
    ensures errs == [] <==> UniqueIds(tasks) && Topological(GraphOf(tasks), order)
    ensures OrderDefects(tasks, order, errs)
  {
    var scheduled;
    errs, scheduled := ScheduleAll(order, tasks, index);
    if UniqueIds(tasks) && Topological(GraphOf(tasks), order) {
      TopologicalWalk(order, tasks, index);
    }
    if errs == [] && |scheduled| == |tasks| {
      CleanWalk(order, tasks, index, scheduled.Keys);
    }
    if |scheduled| != |tasks| {
      assert index.Keys - scheduled.Keys == Ids(tasks) - Elems(order) && |scheduled| == |scheduled.Keys|;
      OrderDefectsPush(tasks, order, errs, OrderMissing(index.Keys - scheduled.Keys));
      errs := errs + [OrderMissing(index.Keys - scheduled.Keys)];
    }
    if |order| > |tasks| {
      var extras := FindExtras(order, index);
      if |extras| > 0 {
        assert extras[0] in Elems(extras);
        OrderDefectsPush(tasks, order, errs, OrderExtras(extras));
        errs := errs + [OrderExtras(extras)];
      }
    }
  }

  method FindExtras(order: seq<Id>, index: map<Id, nat>) returns (extras: seq<Id>)
    ensures Elems(extras) == Elems(order) - index.Keys
  {
    extras := [];
    assert Elems(order[..0]) == {};
    for i := 0 to |order|
      invariant Elems(extras) == Elems(order[..i]) - index.Keys
    {
      assert order[..i + 1] == order[..i] + [order[i]];
      PushElems(order[..i], order[i]);
      if order[i] !in index {
        PushElems(extras, order[i]);
        extras := extras + [order[i]];
      }
    }
    assert order[..|order|] == order;
  }

  // ---- validatePlanStructure ----

  ghost predicate DependencyOk(t: Task, j: nat, ids: set<Id>)
    requires j < |t.dependsOn|
  {
    t.dependsOn[j] != t.id && t.dependsOn[j] in ids && t.dependsOn[j] !in t.dependsOn[..j]
  }

  ghost predicate TaskOk(t: Task, ids: set<Id>) {
    (forall j :: 0 <= j < |t.dependsOn| ==> DependencyOk(t, j, ids)) && t.timeoutOk && t.estimatedTimeOk
  }

  ghost predicate EdgeOk(e: Edge, ids: set<Id>) {
    (e.from == "" || e.from in ids) && (e.to == "" || e.to in ids) && (e.from == "" || e.from != e.to)
  }

  ghost predicate StructurallyValid(doc: Document) {
    && doc.tasks != [] && UniqueIds(doc.tasks)
    && (forall t :: t in doc.tasks ==> TaskOk(t, Ids(doc.tasks)))
    && (forall e :: e in doc.edges ==> EdgeOk(e, Ids(doc.tasks)))
    && doc.durationsOk
    && (doc.executionOrder == [] || Topological(GraphOf(doc.tasks), doc.executionOrder))
  }

  lemma IndexStep(tasks: seq<Task>, i: nat, index: map<Id, nat>)
    requires i < |tasks| && FirstIndex(tasks[..i], index)
    ensures UniqueIds(tasks[..i + 1]) <==> UniqueIds(tasks[..i]) && tasks[i].id !in index
    ensures FirstIndex(tasks[..i + 1], if tasks[i].id in index then index else index[tasks[i].id := i])
  {
    IdsOfPrefix(tasks, i);
  }

  method IndexTasks(tasks: seq<Task>) returns (errs: seq<ValidationError>, index: map<Id, nat>)
    ensures FirstIndex(tasks, index)
    ensures errs == [] <==> UniqueIds(tasks)
    ensures forall e :: e in errs ==> IdDefect(tasks, e)
  {
    errs, index := [], map[];
    for i := 0 to |tasks|
      invariant FirstIndex(tasks[..i], index)
      invariant errs == [] <==> UniqueIds(tasks[..i])
      invariant forall e :: e in errs ==> IdDefect(tasks, e)
    {
      var id := tasks[i].id;
      IndexStep(tasks, i, index);
      if id in index {
        errs := errs + [DuplicateTaskId(i, index[id])];
        continue;
      }
      index := index[id := i];
    }
    assert tasks[..|tasks|] == tasks;
  }

  method CheckDependencies(i: nat, t: Task, index: map<Id, nat>) returns (errs: seq<ValidationError>)
    ensures errs == [] <==> forall j :: 0 <= j < |t.dependsOn| ==> DependencyOk(t, j, index.Keys)
    ensures forall e :: e in errs ==> TaskDefect(i, t, index.Keys, e)
  {
    errs := [];
    var seenDeps: set<Id> := {};
    for j := 0 to |t.dependsOn|
      invariant seenDeps <= Elems(t.dependsOn[..j])
      invariant errs == [] ==> seenDeps == Elems(t.dependsOn[..j])
      invariant errs == [] <==> forall k :: 0 <= k < j ==> DependencyOk(t, k, index.Keys)
      invariant forall e :: e in errs ==> TaskDefect(i, t, index.Keys, e)
    {
      var dep := t.dependsOn[j];
      assert t.dependsOn[..j + 1] == t.dependsOn[..j] + [dep];
      PushElems(t.dependsOn[..j], dep);
      assert DependencyOk(t, j, index.Keys) <==> dep != t.id && dep in index && dep !in Elems(t.dependsOn[..j]);
      if dep == t.id {
        errs := errs + [SelfDependency(i, j)];
        continue;
      }
      if dep !in index {
        errs := errs + [UnknownDependency(i, j)];
        continue;
      }
      if dep in seenDeps {
        errs := errs + [DuplicateDependency(i, j)];
        continue;
      }
      seenDeps := seenDeps + {dep};
    }
  }

  method CheckTasks(tasks: seq<Task>, index: map<Id, nat>) returns (errs: seq<ValidationError>)
    ensures errs == [] <==> forall t :: t in tasks ==> TaskOk(t, index.Keys)
    ensures forall e :: e in errs ==> SomeTaskDefect(tasks, index.Keys, e)
  {
    errs := [];
    for i := 0 to |tasks|
      invariant errs == [] <==> forall k :: 0 <= k < i ==> TaskOk(tasks[k], index.Keys)
      invariant forall e :: e in errs ==> SomeTaskDefect(tasks, index.Keys, e)
    {
      var t := tasks[i];
      var depErrs := CheckDependencies(i, t, index);
      errs := errs + depErrs;
      if !t.timeoutOk {
        errs := errs + [InvalidTimeout(i)];
      }
      if !t.estimatedTimeOk {
        errs := errs + [InvalidEstimatedTime(i)];
      }
    }
  }

  method CheckEdges(edges: seq<Edge>, index: map<Id, nat>) returns (errs: seq<ValidationError>)
    ensures errs == [] <==> forall e :: e in edges ==> EdgeOk(e, index.Keys)
    ensures forall e :: e in errs ==> EdgeDefect(edges, index.Keys, e)
  {
    errs := [];
    for i := 0 to |edges|
      invariant errs == [] <==> forall k :: 0 <= k < i ==> EdgeOk(edges[k], index.Keys)
      invariant forall e :: e in errs ==> EdgeDefect(edges, index.Keys, e)
    {
      var e := edges[i];
      if e.from != "" && e.from !in index {
        errs := errs + [UnknownEdgeEnd(i, e.from)];
      }
      if e.to != "" && e.to !in index {
        errs := errs + [UnknownEdgeEnd(i, e.to)];
      }
      if e.from != "" && e.from == e.to {
        errs := errs + [LoopEdge(i)];
      }
    }
  }

  method ValidatePlanStructure(doc: Document) returns (errs: seq<ValidationError>)
    ensures errs == [] <==> StructurallyValid(doc)
    ensures forall e :: e in errs ==> Defect(doc, e)
  {
    if |doc.tasks| == 0 {
      return [NoTasks];
    }
    var index;
    errs, index := IndexTasks(doc.tasks);
    var taskErrs := CheckTasks(doc.tasks, index);
    var edgeErrs := CheckEdges(doc.edges, index);
    errs := errs + taskErrs + edgeErrs;
    if !doc.durationsOk {
      errs := errs + [InvalidDuration];
    }
    if |doc.executionOrder| > 0 {
      var orderErrs := ValidateExecutionOrder(doc.executionOrder, doc.tasks, index);
      errs := errs + orderErrs;
    }
  }

  /** A document is structurally valid exactly when it has none of the defects that errors name. */
  lemma ValidIffNoDefect(doc: Document)
    ensures StructurallyValid(doc) <==> forall e :: !Defect(doc, e)
  {
    if StructurallyValid(doc) {
      forall e
        ensures !Defect(doc, e)
      {
        ValidHasNoTaskDefect(doc, e);
        if doc.executionOrder != [] {
          ValidHasNoOrderDefect(doc, e);
        }
        ValidHasNoEdgeDefect(doc, e);
      }
    } else {
      var e := SomeDefect(doc);
    }
  }

  lemma ValidHasNoTaskDefect(doc: Document, e: ValidationError)
    requires StructurallyValid(doc)
    ensures !IdDefect(doc.tasks, e) && !SomeTaskDefect(doc.tasks, Ids(doc.tasks), e)
  {
    forall i: nat | i < |doc.tasks|
      ensures !TaskDefect(i, doc.tasks[i], Ids(doc.tasks), e)
    {
      assert doc.tasks[i] in doc.tasks;
      GoodTask(i, doc.tasks[i], Ids(doc.tasks), e);
    }
  }

  lemma GoodTask(i: nat, t: Task, ids: set<Id>, e: ValidationError)
    requires TaskOk(t, ids)
    ensures !TaskDefect(i, t, ids, e)
  {
    match e
    case SelfDependency(_, j) => assert j < |t.dependsOn| ==> DependencyOk(t, j, ids);
    case UnknownDependency(_, j) => assert j < |t.dependsOn| ==> DependencyOk(t, j, ids);
    case DuplicateDependency(_, j) => assert j < |t.dependsOn| ==> DependencyOk(t, j, ids);
    case _ =>
  }

  lemma ValidHasNoEdgeDefect(doc: Document, e: ValidationError)
    requires StructurallyValid(doc)
    ensures !EdgeDefect(doc.edges, Ids(doc.tasks), e)
  {
    assert forall n :: 0 <= n < |doc.edges| ==> EdgeOk(doc.edges[n], Ids(doc.tasks));
  }

  lemma ValidHasNoOrderDefect(doc: Document, e: ValidationError)
    requires StructurallyValid(doc) && doc.executionOrder != []
    ensures !OrderDefect(doc.tasks, doc.executionOrder, e)
  {
    var tasks, order := doc.tasks, doc.executionOrder;
    var g := GraphOf(tasks);
    TopologicalIsOrdered(g, order);
    KeysOfGraph(tasks);
    UniqueIffCount(tasks);
    GraphOfUnique(tasks);
    assert Elems(order) * Ids(tasks) == Ids(tasks);
    if e.OrderTooEarly? && e.pos < |order| {
      forall t | t in tasks && t.id == order[e.pos]
        ensures AllIn(t.dependsOn, Elems(order[..e.pos]) * Ids(tasks))
      {
        var i :| 0 <= i < |tasks| && tasks[i] == t;
      }
    }
  }

  /** The defect that an invalid document has. */
  lemma SomeDefect(doc: Document) returns (e: ValidationError)
    requires !StructurallyValid(doc)
    ensures Defect(doc, e)
  {
    if doc.tasks == [] {
      return NoTasks;
    }
    if !UniqueIds(doc.tasks) {
      var i, j :| 0 <= i < j < |doc.tasks| && doc.tasks[i].id == doc.tasks[j].id;
      return DuplicateTaskId(j, i);
    }
    if t :| t in doc.tasks && !TaskOk(t, Ids(doc.tasks)) {
      var i: nat :| i < |doc.tasks| && doc.tasks[i] == t;
      e := BadTask(i, t, Ids(doc.tasks));
      assert SomeTaskDefect(doc.tasks, Ids(doc.tasks), e);
      return;
    }
    if edge :| edge in doc.edges && !EdgeOk(edge, Ids(doc.tasks)) {
      var n: nat :| n < |doc.edges| && doc.edges[n] == edge;
      if edge.from != "" && edge.from !in Ids(doc.tasks) {
        return UnknownEdgeEnd(n, edge.from);
      } else if edge.to != "" && edge.to !in Ids(doc.tasks) {
        return UnknownEdgeEnd(n, edge.to);
      } else {
        return LoopEdge(n);
      }
    }
    if !doc.durationsOk {
      return InvalidDuration;
    }
    e := BadOrder(doc.tasks, doc.executionOrder);
  }

  lemma BadTask(i: nat, t: Task, ids: set<Id>) returns (e: ValidationError)
    requires !TaskOk(t, ids)
    ensures TaskDefect(i, t, ids, e)
  {
    if j: nat :| j < |t.dependsOn| && !DependencyOk(t, j, ids) {
      if t.dependsOn[j] == t.id {
        return SelfDependency(i, j);
      } else if t.dependsOn[j] !in ids {
        return UnknownDependency(i, j);
      } else {
        return DuplicateDependency(i, j);
      }
    }
    if !t.timeoutOk {
      return InvalidTimeout(i);
    } else {
      return InvalidEstimatedTime(i);
    }
  }

  lemma BadOrder(tasks: seq<Task>, order: seq<Id>) returns (e: ValidationError)
    requires UniqueIds(tasks) && !Topological(GraphOf(tasks), order)
    ensures OrderDefect(tasks, order, e)
  {
    var g := GraphOf(tasks);
    KeysOfGraph(tasks);
    if pos: nat :| pos < |order| && order[pos] !in g {
      return OrderUnknownTask(pos);
    }
    if !Distinct(order) {
      var i, j :| 0 <= i < j < |order| && order[i] == order[j];
      return OrderRepeats(j, i);
    }
    if Elems(order) != Ids(tasks) {
      e := OrderMissing(Ids(tasks) - Elems(order));
      MissingIsDefect(tasks, order);
    } else {
      e := TooEarly(tasks, order);
    }
  }

  lemma MissingIsDefect(tasks: seq<Task>, order: seq<Id>)
    requires UniqueIds(tasks) && Elems(order) != Ids(tasks) && forall i :: 0 <= i < |order| ==> order[i] in Ids(tasks)
    ensures OrderDefect(tasks, order, OrderMissing(Ids(tasks) - Elems(order)))
  {
    UniqueIffCount(tasks);
    SubsetSize(Elems(order), Ids(tasks));
    assert Elems(order) * Ids(tasks) == Elems(order);
  }

  lemma TooEarly(tasks: seq<Task>, order: seq<Id>) returns (e: ValidationError)
    requires UniqueIds(tasks) && forall i :: 0 <= i < |order| ==> order[i] in GraphOf(tasks)
    requires exists i :: 0 <= i < |order| && !AllIn(GraphOf(tasks)[order[i]], Elems(order[..i]))
    ensures OrderDefect(tasks, order, e)
  {
    var g := GraphOf(tasks);
    GraphOfUnique(tasks);
    var pos: nat :| pos < |order| && !AllIn(g[order[pos]], Elems(order[..pos]));
    var d :| d in g[order[pos]] && d !in Elems(order[..pos]);
    var i :| 0 <= i < |tasks| && tasks[i].id == order[pos];
    assert tasks[i] in tasks && tasks[i].dependsOn == g[order[pos]];
    return OrderTooEarly(pos, d);
  }

  // ---- NormalizePlanDocument ----

  datatype NormalizeResult = Normalized(doc: Document) | Invalid(errors: seq<ValidationError>)

  function Digits(n: nat): string {
    if n < 10 then [('0' as int + n) as char] else Digits(n / 10) + Digits(n % 10)
  }

  function StageName(i: nat): string {
    "stage-" + (if i + 1 < 10 then "0" else "") + Digits(i + 1)
  }

  function StagesOf(layers: seq<seq<Id>>): seq<Stage> {
    seq(|layers|, i requires 0 <= i < |layers| => Stage(StageName(i), layers[i], StageName(i)))
  }

  function Version(doc: Document): string {
    if doc.version == "" then "v1" else doc.version
  }

  /** `out` is `doc` with its version defaulted and its execution hints recomputed. */
  ghost predicate IsNormalized(doc: Document, out: Document) {
    exists layers ::
      && IsHints(GraphOf(doc.tasks), IndexOf(doc.tasks), out.executionOrder, layers)
      && out == doc.(version := Version(doc), executionOrder := out.executionOrder, executionLayers := StagesOf(layers))
  }

  method NormalizePlanDocument(input: Document) returns (r: NormalizeResult)
    ensures r.Normalized? <==> StructurallyValid(input) && Acyclic(GraphOf(input.tasks))
    ensures r.Normalized? ==> IsNormalized(input, r.doc)
    ensures r.Invalid? && StructurallyValid(input) ==>
      r.errors == [CyclicPlan(set v | v in Ids(input.tasks) && Blocked(GraphOf(input.tasks), v))]
    ensures r.Invalid? && !StructurallyValid(input) ==>
      r.errors != [] && forall e :: e in r.errors ==> Defect(input, e)
  {
    var doc := input.(version := Version(input));
    var validations := ValidatePlanStructure(doc);
    if |validations| > 0 {
      return Invalid(validations);
    }
    ValidIsKnown(input.tasks);
    var hints := ComputeExecutionHints(doc.tasks);
    match hints
    case CycleDetected(stuck) =>
      return Invalid([CyclicPlan(stuck)]);
    case Hints(order, layers) =>
      return Normalized(doc.(executionOrder := order, executionLayers := StagesOf(layers)));
  }

  lemma ValidIsKnown(tasks: seq<Task>)
    requires UniqueIds(tasks) && forall t :: t in tasks ==> TaskOk(t, Ids(tasks))
    ensures Known(GraphOf(tasks))
  {
    GraphOfUnique(tasks);
    forall v, d | v in GraphOf(tasks) && d in GraphOf(tasks)[v]
      ensures d in GraphOf(tasks)
    {
      var i :| 0 <= i < |tasks| && tasks[i].id == v;
      var j :| 0 <= j < |tasks[i].dependsOn| && tasks[i].dependsOn[j] == d;
      assert DependencyOk(tasks[i], j, Ids(tasks));
    }
  }

  // ---- what the normalised document says ----

  /** The number that a string of decimal digits spells. */
  function Value(s: string): int {
    if s == "" then 0 else 10 * Value(s[..|s| - 1]) + (s[|s| - 1] as int - '0' as int)
  }

  lemma {:induction false} DigitsSpell(n: nat)
    ensures Value(Digits(n)) == n && Digits(n) != ""
    ensures forall c :: c in Digits(n) ==> '0' <= c <= '9'
    ensures n > 0 ==> Digits(n)[0] != '0'
    ensures |Digits(n)| > 1 <==> n >= 10
  {
    if n >= 10 {
      DigitsSpell(n / 10);
      var front, last := Digits(n / 10), Digits(n % 10);
      assert last == [('0' as int + n % 10) as char];
      assert (front + last)[..|front + last| - 1] == front;
    } else {
      assert Digits(n)[..0] == "";
    }
  }

  /** A stage is named after its number, counted from 1 and written with two digits or more. */
  ghost predicate NamedAfter(name: string, number: nat) {
    && |name| >= 8 && name[..6] == "stage-"
    && (forall c :: c in name[6..] ==> '0' <= c <= '9') && Value(name[6..]) == number
    && (|name| > 8 <==> number >= 100) && (number >= 10 ==> name[6] != '0')
  }

  lemma StageNames(i: nat)
    ensures NamedAfter(StageName(i), i + 1)
  {
    var digits := Digits(i + 1);
    DigitsSpell(i + 1);
    if i + 1 < 10 {
      assert StageName(i)[6..] == "0" + digits;
      assert ("0" + digits)[..1] == "0" && "0"[..0] == "" && digits[..0] == "";
      assert Value("0") == 0;
    } else {
      DigitsSpell((i + 1) / 10);
      assert StageName(i)[6..] == digits;
    }
  }

  /** The tasks of all stages, one stage after another. */
  function TasksOf(stages: seq<Stage>): seq<Id> {
    if stages == [] then [] else TasksOf(stages[..|stages| - 1]) + stages[|stages| - 1].tasks
  }

  lemma {:induction false} TasksOfStages(layers: seq<seq<Id>>)
    ensures TasksOf(StagesOf(layers)) == Flatten(layers)
  {
    if layers != [] {
      var n := |layers| - 1;
      TasksOfStages(layers[..n]);
      assert StagesOf(layers)[..n] == StagesOf(layers[..n]);
    }
  }

  /** The normalised document is the given one with version "v1" unless it names one, an order that runs
      every task after its dependencies, and that order cut into stages. */
  lemma NormalizedMeans(input: Document, out: Document)
    requires IsNormalized(input, out)
    ensures out == Document(if input.version == "" then "v1" else input.version, input.tasks, input.edges,
                            input.durationsOk, out.executionOrder, out.executionLayers)
    ensures Topological(GraphOf(input.tasks), out.executionOrder)
    ensures TasksOf(out.executionLayers) == out.executionOrder
  {
    var g, index := GraphOf(input.tasks), IndexOf(input.tasks);
    var layers :| IsHints(g, index, out.executionOrder, layers)
      && out == input.(version := Version(input), executionOrder := out.executionOrder,
                       executionLayers := StagesOf(layers));
    HintsTopological(g, index, out.executionOrder, layers);
    TasksOfStages(layers);
  }

  /** The `k`-th stage holds exactly the tasks whose longest dependency chain has `k + 1` tasks, by position,
      under the number `k + 1` as its name and as its checkpoint token. */
  lemma StageMeans(input: Document, out: Document, k: nat)
    requires IsNormalized(input, out) && k < |out.executionLayers|
    ensures var stage := out.executionLayers[k];
      && stage.tasks != [] && Elems(stage.tasks) == Level(GraphOf(input.tasks), k)
      && Listed(IndexOf(input.tasks), stage.tasks)
      && stage.name == stage.checkpointToken && NamedAfter(stage.name, k + 1)
  {
    var g, index := GraphOf(input.tasks), IndexOf(input.tasks);
    var layers :| IsHints(g, index, out.executionOrder, layers)
      && out == input.(version := Version(input), executionOrder := out.executionOrder,
                       executionLayers := StagesOf(layers));
    StageNames(k);
    assert IsLayer(g, index, k, layers[k]);
  }

  /** Different stages have different names. */
  lemma StageNamesDiffer(i: nat, j: nat)
    requires i != j
    ensures StageName(i) != StageName(j)
  {
    StageNames(i);
    StageNames(j);
  }

  /** A normalised document is valid again, and normalising it changes nothing. */
  lemma NormalisedIsFixedPoint(input: Document, out: Document, again: Document)
    requires StructurallyValid(input) && IsNormalized(input, out)
    ensures StructurallyValid(out) && Acyclic(GraphOf(out.tasks))
    ensures IsNormalized(out, again) <==> again == out
  {
    var g, index := GraphOf(input.tasks), IndexOf(input.tasks);
    var layers :| IsHints(g, index, out.executionOrder, layers)
      && out == input.(version := Version(input), executionOrder := out.executionOrder,
                       executionLayers := StagesOf(layers));
    HintsTopological(g, index, out.executionOrder, layers);
    TopologicalImpliesSchedulable(g, out.executionOrder);
    assert out == out.(version := Version(out), executionOrder := out.executionOrder,
                       executionLayers := StagesOf(layers));
    assert IsNormalized(out, out);
    if IsNormalized(out, again) {
      var layers' :| IsHints(g, index, again.executionOrder, layers')
        && again == out.(version := Version(out), executionOrder := again.executionOrder,
                         executionLayers := StagesOf(layers'));
      HintsUnique(g, index, out.executionOrder, layers, again.executionOrder, layers');
    }
  }
}
