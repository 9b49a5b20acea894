/** The queue-driven executor: dependency order, retries and checkpoint calls, for every map
    iteration order and every pattern of task and checkpoint failures. */
module Executor {
  import opened Dag
  import opened Indegree

  /** The keys of the graph map identify tasks; `id` is the task's own name. */
  datatype ExecTask = ExecTask(id: Id, stage: string, dependsOn: seq<Id>, checkpointToken: string, maxRetries: int)

  function DepGraph(tasks: map<Id, ExecTask>): Graph {
    map v | v in tasks :: tasks[v].dependsOn
  }

  /** Everything observable about a run, in order. `key` is the key of the task in the graph. */
  datatype Event =
    | TaskStart(key: Id, attempt: nat)
    | Ran(key: Id, ok: bool)
    | TaskSuccess(key: Id, attempt: nat)
    | TaskFailure(key: Id, attempt: nat)

  function RetryLimit(t: ExecTask): nat {
    if t.maxRetries < 0 then 0 else t.maxRetries
  }

  // ---- what the retry loop leaves in the trace ----

  function FailedAttempts(key: Id, n: nat): seq<Event> {
    if n == 0 then []
    else FailedAttempts(key, n - 1) + [TaskStart(key, n - 1), Ran(key, false), TaskFailure(key, n)]
  }

  function SuccessLog(key: Id, retries: nat): seq<Event> {
    FailedAttempts(key, retries) + [TaskStart(key, retries), Ran(key, true), TaskSuccess(key, retries)]
  }

  /** The log of an attempt broken off by a checkpoint error: its last save is missing. */
  ghost predicate BrokenOff(key: Id, retries: nat, log: seq<Event>) {
    || log == FailedAttempts(key, retries)
    || exists ok :: log == FailedAttempts(key, retries) + [TaskStart(key, retries), Ran(key, ok)]
  }

  function RunLog(done: seq<Id>, retries: seq<nat>): seq<Event>
    requires |done| == |retries|
  {
    if done == [] then []
    else
      var n := |done| - 1;
      RunLog(done[..n], retries[..n]) + SuccessLog(done[n], retries[n])
  }

  /** What the calls of a run return: the call that opens the run and, for each attempt at each task, the
      call that saves its start, the task itself, and the call that saves its result. */
  datatype Environment = Environment(
    opens: bool, savesStart: (Id, nat) -> bool, succeeds: (Id, nat) -> bool, savesResult: (Id, nat) -> bool)

  predicate SavesBoth(env: Environment, key: Id, n: nat) {
    env.savesStart(key, n) && env.savesResult(key, n)
  }

  /** Attempts 0 to `n - 1` fail and are all recorded. */
  ghost predicate FailsUpTo(env: Environment, key: Id, n: nat) {
    forall m :: 0 <= m < n ==> SavesBoth(env, key, m) && !env.succeeds(key, m)
  }

  /** Attempt `n` succeeds, the ones before it fail, and every save up to it succeeds. */
  ghost predicate SucceedsAt(env: Environment, key: Id, n: nat) {
    && (forall m :: 0 <= m <= n ==> env.savesStart(key, m) && env.savesResult(key, m))
    && (forall m :: 0 <= m < n ==> !env.succeeds(key, m)) && env.succeeds(key, n)
  }

  lemma SucceedsAtMeans(env: Environment, key: Id, n: nat)
    ensures SucceedsAt(env, key, n) <==> FailsUpTo(env, key, n) && SavesBoth(env, key, n) && env.succeeds(key, n)
  {
    if SucceedsAt(env, key, n) {
      assert env.savesStart(key, n) && env.savesResult(key, n);
      forall m | 0 <= m < n
        ensures SavesBoth(env, key, m) && !env.succeeds(key, m)
      {
        assert env.savesStart(key, m) && env.savesResult(key, m);
      }
    }
    if FailsUpTo(env, key, n) && SavesBoth(env, key, n) {
      forall m | 0 <= m <= n
        ensures env.savesStart(key, m) && env.savesResult(key, m) && (m < n ==> !env.succeeds(key, m))
      {
        assert SavesBoth(env, key, m);
      }
    }
  }

  /** A task can be depended on when it succeeds at some attempt within its retries, and without retries
      when its one attempt and the two saves around it succeed. */
  lemma DependableMeans(env: Environment, key: Id, task: ExecTask)
    ensures Dependable(env, key, task) <==>
      exists n: nat :: n <= (if task.maxRetries > 0 then task.maxRetries else 0) && SucceedsAt(env, key, n)
    ensures task.maxRetries <= 0 ==>
      (Dependable(env, key, task) <==> env.savesStart(key, 0) && env.succeeds(key, 0) && env.savesResult(key, 0))
  {
    forall n: nat {
      SucceedsAtMeans(env, key, n);
    }
    if Dependable(env, key, task) {
      var n :| 0 <= n <= RetryLimit(task) && FailsUpTo(env, key, n) && SavesBoth(env, key, n) && env.succeeds(key, n);
      var at: nat := n;
      assert SucceedsAt(env, key, at);
    }
    assert FailsUpTo(env, key, 0);
  }

  // ---- events are what the calls returned ----

  /** One event of a trace, told from the two before it and from the calls behind it. */
  ghost predicate EventOk(env: Environment, t: seq<Event>, i: nat)
    requires i < |t|
  {
    match t[i]
    case TaskStart(k, n) => env.savesStart(k, n) && (n > 0 ==> i > 0 && t[i - 1] == TaskFailure(k, n))
    case Ran(k, ok) =>
      i > 0 && t[i - 1].TaskStart? && t[i - 1].key == k && ok == env.succeeds(k, t[i - 1].attempt)
    case TaskSuccess(k, n) =>
      i > 1 && t[i - 2] == TaskStart(k, n) && t[i - 1] == Ran(k, true) && env.savesResult(k, n)
    case TaskFailure(k, n) =>
      i > 1 && n > 0 && t[i - 2] == TaskStart(k, n - 1) && t[i - 1] == Ran(k, false) && env.savesResult(k, n - 1)
  }

  ghost predicate EventsOk(env: Environment, t: seq<Event>) {
    forall i :: 0 <= i < |t| ==> EventOk(env, t, i)
  }

  lemma EventsConcat(env: Environment, a: seq<Event>, b: seq<Event>)
    requires EventsOk(env, a) && EventsOk(env, b)
    ensures EventsOk(env, a + b)
  {
    forall i | 0 <= i < |a + b|
      ensures EventOk(env, a + b, i)
    {
      if i < |a| {
        assert EventOk(env, a, i);
      } else {
        assert EventOk(env, b, i - |a|);
      }
    }
  }

  /** One more event. */
  lemma EventsPush(env: Environment, t: seq<Event>, e: Event)
    requires EventsOk(env, t) && EventOk(env, t + [e], |t|)
    ensures EventsOk(env, t + [e])
  {
    forall i | 0 <= i < |t + [e]|
      ensures EventOk(env, t + [e], i)
    {
      if i < |t| {
        assert EventOk(env, t, i);
      }
    }
  }

  /** Some permitted attempt succeeds, and no save fails up to it. */
  ghost predicate Dependable(env: Environment, key: Id, task: ExecTask) {
    exists n :: 0 <= n <= RetryLimit(task) && FailsUpTo(env, key, n) && SavesBoth(env, key, n) && env.succeeds(key, n)
  }

  datatype TaskOutcome = Succeeded(retries: nat) | Exhausted | CheckpointBroke

  /** The retry loop for one task: what it comes to is settled by what its calls return. */
  method RunTask(key: Id, task: ExecTask, env: Environment) returns (outcome: TaskOutcome, log: seq<Event>)
    ensures outcome.Succeeded? <==> Dependable(env, key, task)
    ensures outcome.Succeeded? ==> outcome.retries <= RetryLimit(task) && log == SuccessLog(key, outcome.retries)
    ensures outcome.Exhausted? <==> FailsUpTo(env, key, RetryLimit(task) + 1)
    ensures outcome.Exhausted? ==> log == FailedAttempts(key, RetryLimit(task) + 1)
    ensures EventsOk(env, log)
    ensures outcome.CheckpointBroke? ==>
      exists n :: 0 <= n <= RetryLimit(task) && FailsUpTo(env, key, n) && !SavesBoth(env, key, n)
        && BrokenOff(key, n, log)
  {
    var maxRetries := if task.maxRetries < 0 then 0 else task.maxRetries;
    var attempt := 0;
    log := [];
    while true
      invariant 0 <= attempt <= maxRetries
      invariant log == FailedAttempts(key, attempt) && FailsUpTo(env, key, attempt) && EventsOk(env, log)
      decreases maxRetries - attempt
    {
      OneVerdict(env, key, attempt);
      if !env.savesStart(key, attempt) {
        assert BrokenOff(key, attempt, log);
        return CheckpointBroke, log;
      }
      EventsPush(env, log, TaskStart(key, attempt));
      log := log + [TaskStart(key, attempt)];
      var ran := env.succeeds(key, attempt);
      EventsPush(env, log, Ran(key, ran));
      log := log + [Ran(key, ran)];
      if !env.savesResult(key, attempt) {
        assert log == FailedAttempts(key, attempt) + [TaskStart(key, attempt), Ran(key, ran)];
        assert BrokenOff(key, attempt, log);
        return CheckpointBroke, log;
      }
      if ran {
        EventsPush(env, log, TaskSuccess(key, attempt));
        log := log + [TaskSuccess(key, attempt)];
        return Succeeded(attempt), log;
      }
      var nextAttempt := attempt + 1;
      EventsPush(env, log, TaskFailure(key, nextAttempt));
      log := log + [TaskFailure(key, nextAttempt)];
      if nextAttempt > maxRetries {
        return Exhausted, log;
      }
      attempt := nextAttempt;
    }
  }

  /** An attempt that is not a recorded failure is the last one there can be. */
  lemma OneVerdict(env: Environment, key: Id, n: nat)
    requires FailsUpTo(env, key, n)
    ensures !SavesBoth(env, key, n) || env.succeeds(key, n) ==> forall m: nat :: FailsUpTo(env, key, m) ==> m <= n
  {
    forall m: nat | FailsUpTo(env, key, m) && n < m
      ensures SavesBoth(env, key, n) && !env.succeeds(key, n)
    {
    }
  }

  // ---- Execute ----

  datatype Outcome =
    | Completed(order: seq<Id>)
    | UnknownDependency(task: Id, dep: Id)
    | StartFailed
    | CheckpointError(broken: Id)
    | TaskFailed(failed: Id)
    | CycleDetected

  /** Some tasks have succeeded, each once, after all of its dependencies and within its retries. */
  ghost predicate IsRun(tasks: map<Id, ExecTask>, done: seq<Id>, retries: seq<nat>) {
    && |done| == |retries| && Distinct(done) && Elems(done) <= tasks.Keys
    && forall i :: 0 <= i < |done| ==>
      done[i] in tasks && AllIn(tasks[done[i]].dependsOn, Elems(done[..i])) && retries[i] <= RetryLimit(tasks[done[i]])
  }

  ghost predicate MayStart(tasks: map<Id, ExecTask>, done: seq<Id>, key: Id) {
    key in tasks && key !in done && AllIn(tasks[key].dependsOn, Elems(done))
  }

  /** The trace of a run with the given outcome. */
  ghost predicate Explains(tasks: map<Id, ExecTask>, outcome: Outcome, trace: seq<Event>, done: seq<Id>,
                           retries: seq<nat>) {
    var g := DepGraph(tasks);
    && IsRun(tasks, done, retries)
    && match outcome
       case Completed(order) => order == done && trace == RunLog(done, retries) && Topological(g, order)
       case CycleDetected => trace == RunLog(done, retries) && Known(g) && Elems(done) == Resolved(g) < g.Keys
       case TaskFailed(key) =>
         && MayStart(tasks, done, key)
         && trace == RunLog(done, retries) + FailedAttempts(key, RetryLimit(tasks[key]) + 1)
       case CheckpointError(key) =>
         && MayStart(tasks, done, key)
         && exists n, log ::
           0 <= n <= RetryLimit(tasks[key]) && BrokenOff(key, n, log) && trace == RunLog(done, retries) + log
       case UnknownDependency(task, dep) => trace == [] && task in g && dep in g[task] && dep !in g
       case StartFailed => trace == [] && Known(g)
  }

  /** Records the dependencies of one task, stopping at the first unknown one. */
  method AddKnown(tasks: map<Id, ExecTask>, id: Id, indegree0: map<Id, int>, adjacency0: map<Id, seq<Id>>,
                  ghost g: Graph)
    returns (unknown: bool, dep: Id, indegree: map<Id, int>, adjacency: map<Id, seq<Id>>)
    requires id in tasks && id !in g && CountsAll(indegree0, g) && Inverts(adjacency0, g)
    ensures unknown ==> dep in tasks[id].dependsOn && dep !in tasks
    ensures !unknown ==> AllIn(tasks[id].dependsOn, tasks.Keys)
    ensures !unknown ==>
      CountsAll(indegree, g[id := tasks[id].dependsOn]) && Inverts(adjacency, g[id := tasks[id].dependsOn])
  {
    indegree, adjacency := indegree0, adjacency0;
    if id !in indegree {
      indegree := indegree[id := 0];
    }
    var ds := tasks[id].dependsOn;
    ghost var now := g[id := []];
    forall x, y
      ensures Count(Successors(adjacency, x), y) == Count(Deps(now, y), x)
    {
      assert Count(Successors(adjacency, x), y) == Count(Deps(g, y), x);
    }
    for j := 0 to |ds|
      invariant now == g[id := ds[..j]] && AllIn(ds[..j], tasks.Keys)
      invariant CountsAll(indegree, now) && Inverts(adjacency, now)
    {
      dep := ds[j];
      if dep !in tasks {
        return true, dep, indegree, adjacency;
      }
      EdgeAdded(indegree, adjacency, now, id, dep);
      assert ds[..j + 1] == ds[..j] + [dep];
      now := now[id := now[id] + [dep]];
      adjacency := adjacency[dep := Successors(adjacency, dep) + [id]];
      indegree := indegree[id := indegree[id] + 1];
    }
    assert ds[..|ds|] == ds;
    return false, "", indegree, adjacency;
  }

  ghost function GraphOn(tasks: map<Id, ExecTask>, seen: set<Id>): Graph
    requires seen <= tasks.Keys
  {
    map v | v in seen :: tasks[v].dependsOn
  }

  method BuildGraph(tasks: map<Id, ExecTask>)
    returns (unknown: bool, task: Id, dep: Id, indegree: map<Id, int>, adjacency: map<Id, seq<Id>>)
    ensures unknown ==> task in tasks && dep in tasks[task].dependsOn && dep !in tasks
    ensures !unknown ==> Known(DepGraph(tasks))
    ensures !unknown ==> Counts(indegree, DepGraph(tasks), {}) && Inverts(adjacency, DepGraph(tasks))
  {
    indegree, adjacency := map[], map[];
    var unseen := tasks.Keys;
    while unseen != {}
      invariant unseen <= tasks.Keys
      invariant CountsAll(indegree, GraphOn(tasks, tasks.Keys - unseen))
        && Inverts(adjacency, GraphOn(tasks, tasks.Keys - unseen))
      invariant forall v :: v in tasks.Keys - unseen ==> AllIn(tasks[v].dependsOn, tasks.Keys)
    {
      var id :| id in unseen;
      ghost var g := GraphOn(tasks, tasks.Keys - unseen);
      unknown, dep, indegree, adjacency := AddKnown(tasks, id, indegree, adjacency, g);
      if unknown {
        return true, id, dep, indegree, adjacency;
      }
      assert tasks.Keys - (unseen - {id}) == tasks.Keys - unseen + {id};
      assert GraphOn(tasks, tasks.Keys - (unseen - {id})) == g[id := tasks[id].dependsOn];
      unseen := unseen - {id};
    }
    assert GraphOn(tasks, tasks.Keys) == DepGraph(tasks);
    CountsNothingRun(indegree, DepGraph(tasks));
    return false, "", "", indegree, adjacency;
  }

  /** Between two tasks: what has run, and the queue holding exactly the tasks that may start. */
  ghost predicate Running(tasks: map<Id, ExecTask>, done: seq<Id>, retries: seq<nat>, trace: seq<Event>,
                          indegree: map<Id, int>, queue: seq<Id>) {
    var g := DepGraph(tasks);
    && IsRun(tasks, done, retries) && trace == RunLog(done, retries)
    && Counts(indegree, g, Elems(done))
    && Distinct(queue) && Elems(queue) == Ready(g, Elems(done)) - Elems(done)
  }

  lemma RunningAtStart(tasks: map<Id, ExecTask>, indegree: map<Id, int>, queue: seq<Id>)
    requires Counts(indegree, DepGraph(tasks), {})
    requires Distinct(queue) && Elems(queue) == set v | v in indegree && indegree[v] == 0
    ensures Running(tasks, [], [], [], indegree, queue)
  {
    assert Elems([]) == {};
    ZeroIsReady(indegree, DepGraph(tasks), {});
  }

  lemma QueuedMayStart(tasks: map<Id, ExecTask>, done: seq<Id>, queue: seq<Id>)
    requires Distinct(queue) && queue != []
    requires Elems(queue) == Ready(DepGraph(tasks), Elems(done)) - Elems(done)
    ensures MayStart(tasks, done, queue[0]) && queue[0] !in Elems(done)
    ensures Distinct(queue[1..])
    ensures Elems(queue[1..]) == Ready(DepGraph(tasks), Elems(done)) - Elems(done) - {queue[0]}
  {
    assert queue[0] in Elems(queue);
    assert queue == [queue[0]] + queue[1..];
  }

  lemma RunExtended(tasks: map<Id, ExecTask>, done: seq<Id>, retries: seq<nat>, key: Id, n: nat)
    requires IsRun(tasks, done, retries) && MayStart(tasks, done, key) && n <= RetryLimit(tasks[key])
    ensures IsRun(tasks, done + [key], retries + [n])
    ensures RunLog(done + [key], retries + [n]) == RunLog(done, retries) + SuccessLog(key, n)
    ensures Elems(done + [key]) == Elems(done) + {key}
    ensures |done| < |tasks|
  {
    var done', retries' := done + [key], retries + [n];
    PushElems(done, key);
    assert done'[..|done|] == done && retries'[..|done|] == retries;
    forall i | 0 <= i < |done'|
      ensures done'[i] in tasks && AllIn(tasks[done'[i]].dependsOn, Elems(done'[..i]))
        && retries'[i] <= RetryLimit(tasks[done'[i]])
    {
      if i < |done| {
        assert done'[..i] == done[..i];
      }
    }
    DistinctSize(done');
    SubsetSize(Elems(done'), tasks.Keys);
  }

  /** A finished task leaves the queue and its released dependents enter it. */
  lemma QueueAdvanced(g: Graph, done: set<Id>, key: Id, rest: set<Id>, queue: set<Id>)
    requires key in Ready(g, done) && key !in done && done <= Ready(g, done)
    requires rest == Ready(g, done) - done - {key}
    requires queue == rest + (Ready(g, done + {key}) - Ready(g, done))
    ensures queue == Ready(g, done + {key}) - (done + {key})
  {
    ReadyGrows(g, done, done + {key});
  }

  /** After a success, with its dependents released. */
  lemma RunAdvances(tasks: map<Id, ExecTask>, done: seq<Id>, retries: seq<nat>, trace: seq<Event>,
                    indegree: map<Id, int>, key: Id, n: nat, rest: set<Id>, queue: seq<Id>)
    requires IsRun(tasks, done, retries) && MayStart(tasks, done, key) && n <= RetryLimit(tasks[key])
    requires trace == RunLog(done, retries) + SuccessLog(key, n)
    requires var g := DepGraph(tasks);
      && Counts(indegree, g, Elems(done) + {key}) && Distinct(queue)
      && rest == Ready(g, Elems(done)) - Elems(done) - {key}
      && Elems(queue) == rest + (Ready(g, Elems(done) + {key}) - Ready(g, Elems(done)))
    ensures Running(tasks, done + [key], retries + [n], trace, indegree, queue) && |done| < |tasks|
  {
    var g := DepGraph(tasks);
    DoneIsReady(tasks, done, retries);
    RunExtended(tasks, done, retries, key, n);
    assert key in Ready(g, Elems(done)) && key !in Elems(done);
    QueueAdvanced(g, Elems(done), key, rest, Elems(queue));
  }

  lemma DoneIsReady(tasks: map<Id, ExecTask>, done: seq<Id>, retries: seq<nat>)
    requires IsRun(tasks, done, retries)
    ensures Elems(done) <= Ready(DepGraph(tasks), Elems(done)) && Elems(done) <= Resolved(DepGraph(tasks))
  {
    var g := DepGraph(tasks);
    forall v | v in done
      ensures v in Ready(g, Elems(done))
    {
      var i :| 0 <= i < |done| && done[i] == v;
      assert Elems(done[..i]) <= Elems(done);
    }
    PrefixResolved(g, done, |done|);
    assert done[..|done|] == done;
  }

  lemma EmptyQueueIsResolved(tasks: map<Id, ExecTask>, done: seq<Id>, retries: seq<nat>)
    requires IsRun(tasks, done, retries)
    requires Ready(DepGraph(tasks), Elems(done)) - Elems(done) == {}
    ensures Elems(done) == Resolved(DepGraph(tasks)) <= tasks.Keys
    ensures |done| == |tasks| <==> Schedulable(DepGraph(tasks))
    ensures |done| == |tasks| ==> Topological(DepGraph(tasks), done)
    ensures |done| != |tasks| ==> Elems(done) != tasks.Keys
  {
    var g := DepGraph(tasks);
    DoneIsReady(tasks, done, retries);
    forall v | v in Ready(g, Elems(done))
      ensures v in Elems(done)
    {
      assert v !in Ready(g, Elems(done)) - Elems(done);
    }
    GreedyRunsResolved(g, Elems(done));
    PeelGrows(g, 0, |g|);
    DistinctSize(done);
    SubsetSize(Elems(done), tasks.Keys);
    assert g.Keys == tasks.Keys && |g| == |tasks.Keys| == |tasks|;
    AllResolvedIffSchedulable(g);
  }

  /** Every task that the graph lets run would succeed within its retries. */
  ghost predicate AllDependable(env: Environment, tasks: map<Id, ExecTask>) {
    env.opens && forall key :: key in Resolved(DepGraph(tasks)) && key in tasks ==> Dependable(env, key, tasks[key])
  }

  /** A run stops early only because of a call that failed. */
  ghost predicate Blames(env: Environment, tasks: map<Id, ExecTask>, outcome: Outcome) {
    match outcome
    case StartFailed => !env.opens
    case CheckpointError(key) => Resolves(tasks, key) && !Dependable(env, key, tasks[key])
      && !FailsUpTo(env, key, RetryLimit(tasks[key]) + 1)
    case TaskFailed(key) => Resolves(tasks, key) && FailsUpTo(env, key, RetryLimit(tasks[key]) + 1)
    case _ => true
  }

  ghost predicate Resolves(tasks: map<Id, ExecTask>, key: Id) {
    key in tasks && key in Resolved(DepGraph(tasks))
  }

  lemma MayStartResolves(tasks: map<Id, ExecTask>, done: seq<Id>, retries: seq<nat>, key: Id)
    requires IsRun(tasks, done, retries) && MayStart(tasks, done, key)
    ensures Resolves(tasks, key)
  {
    DoneIsReady(tasks, done, retries);
    ReadyIsResolved(DepGraph(tasks), Elems(done), key);
  }

  method Execute(tasks: map<Id, ExecTask>, env: Environment)
    returns (outcome: Outcome, trace: seq<Event>, ghost done: seq<Id>, ghost retries: seq<nat>)
    ensures Explains(tasks, outcome, trace, done, retries) && EventsOk(env, trace)
    ensures outcome.UnknownDependency? <==> !Known(DepGraph(tasks))
    ensures outcome.Completed? <==> Schedulable(DepGraph(tasks)) && AllDependable(env, tasks)
    ensures outcome.CycleDetected? <==> Known(DepGraph(tasks)) && !Acyclic(DepGraph(tasks)) && AllDependable(env, tasks)
    ensures Blames(env, tasks, outcome)
  {
    var unknown, task, dep, indegree, adjacency := BuildGraph(tasks);
    if unknown {
      return UnknownDependency(task, dep), [], [], [];
    }
    if !env.opens {
      return StartFailed, [], [], [];
    }
    var queue := InitialQueue(indegree);
    RunningAtStart(tasks, indegree, queue);
    outcome, trace, done, retries := RunQueue(tasks, env, queue, indegree, adjacency);
  }

  ghost predicate AllSucceeded(env: Environment, tasks: map<Id, ExecTask>, done: seq<Id>) {
    forall key :: key in done && key in tasks ==> Dependable(env, key, tasks[key])
  }

  lemma AllRanIsDependable(env: Environment, tasks: map<Id, ExecTask>, done: seq<Id>)
    requires env.opens && AllSucceeded(env, tasks, done) && Elems(done) == Resolved(DepGraph(tasks))
    ensures AllDependable(env, tasks)
  {
    assert forall key :: key in Resolved(DepGraph(tasks)) ==> key in Elems(done);
  }

  /** The outcome of the main loop is settled by the graph and by what the calls return. */
  ghost predicate Settled(env: Environment, tasks: map<Id, ExecTask>, outcome: Outcome) {
    && (outcome.Completed? <==> Schedulable(DepGraph(tasks)) && AllDependable(env, tasks))
    && (outcome.CycleDetected? <==> !Acyclic(DepGraph(tasks)) && AllDependable(env, tasks))
    && !outcome.UnknownDependency? && !outcome.StartFailed? && Blames(env, tasks, outcome)
  }

  /** A run that ends with the log of a task that gave up. */
  lemma GaveUp(env: Environment, tasks: map<Id, ExecTask>, outcome: Outcome, key: Id, log: seq<Event>,
               done: seq<Id>, retries: seq<nat>)
    requires outcome == CheckpointError(key) || outcome == TaskFailed(key)
    requires IsRun(tasks, done, retries) && MayStart(tasks, done, key)
    requires Resolves(tasks, key) && !Dependable(env, key, tasks[key])
    requires outcome.TaskFailed? <==> FailsUpTo(env, key, RetryLimit(tasks[key]) + 1)
    requires outcome.TaskFailed? ==> log == FailedAttempts(key, RetryLimit(tasks[key]) + 1)
    requires outcome.CheckpointError? ==> exists n :: 0 <= n <= RetryLimit(tasks[key]) && BrokenOff(key, n, log)
    ensures Settled(env, tasks, outcome) && Explains(tasks, outcome, RunLog(done, retries) + log, done, retries)
  {
  }

  lemma Drained(env: Environment, tasks: map<Id, ExecTask>, trace: seq<Event>, done: seq<Id>, retries: seq<nat>)
    requires Known(DepGraph(tasks)) && IsRun(tasks, done, retries) && trace == RunLog(done, retries)
    requires Ready(DepGraph(tasks), Elems(done)) - Elems(done) == {}
    requires env.opens && AllSucceeded(env, tasks, done)
    ensures var outcome := if |done| == |tasks| then Completed(done) else CycleDetected;
      Explains(tasks, outcome, trace, done, retries) && Settled(env, tasks, outcome)
  {
    EmptyQueueIsResolved(tasks, done, retries);
    AllRanIsDependable(env, tasks, done);
  }

  /** The main loop: runs queued tasks one after another until the queue is empty or a task gives up. */
  method RunQueue(tasks: map<Id, ExecTask>, env: Environment, queue0: seq<Id>, indegree0: map<Id, int>,
                  adjacency: map<Id, seq<Id>>)
    returns (outcome: Outcome, trace: seq<Event>, ghost done: seq<Id>, ghost retries: seq<nat>)
    requires Known(DepGraph(tasks)) && Inverts(adjacency, DepGraph(tasks))
    requires Running(tasks, [], [], [], indegree0, queue0) && env.opens
    ensures Explains(tasks, outcome, trace, done, retries) && EventsOk(env, trace)
    ensures Settled(env, tasks, outcome)
  {
    ghost var g := DepGraph(tasks);
    trace, done, retries := [], [], [];
    var queue, indegree, order: seq<Id> := queue0, indegree0, [];
    while |queue| > 0
      invariant order == done && Running(tasks, done, retries, trace, indegree, queue)
      invariant AllSucceeded(env, tasks, done) && EventsOk(env, trace)
      decreases |tasks| - |order|
    {
      var current := queue[0];
      QueuedMayStart(tasks, done, queue);
      MayStartResolves(tasks, done, retries, current);
      queue := queue[1..];
      order := order + [current];
      var result, log := RunTask(current, tasks[current], env);
      assert EventsOk(env, trace + log) by {
        EventsConcat(env, trace, log);
      }
      trace := trace + log;
      if result.CheckpointBroke? {
        GaveUp(env, tasks, CheckpointError(current), current, log, done, retries);
        return CheckpointError(current), trace, done, retries;
      }
      if result.Exhausted? {
        GaveUp(env, tasks, TaskFailed(current), current, log, done, retries);
        return TaskFailed(current), trace, done, retries;
      }
      ghost var rest := Elems(queue);
      indegree, queue := Release(current, Successors(adjacency, current), indegree, queue, g, Elems(done));
      RunAdvances(tasks, done, retries, trace, indegree, current, result.retries, rest, queue);
      done, retries := done + [current], retries + [result.retries];
    }
    Drained(env, tasks, trace, done, retries);
    if |order| != |tasks| {
      return CycleDetected, trace, done, retries;
    }
    return Completed(order), trace, done, retries;
  }

  // ---- what every trace satisfies ----

  ghost function Occurs(t: seq<Event>, p: Event -> bool): nat {
    if t == [] then 0 else Occurs(t[..|t| - 1], p) + if p(t[|t| - 1]) then 1 else 0
  }

  ghost function StartOf(v: Id): Event -> bool {
    (e: Event) => e.TaskStart? && e.key == v
  }

  ghost function SuccessOf(v: Id): Event -> bool {
    (e: Event) => e.TaskSuccess? && e.key == v
  }

  lemma {:induction false} OccursConcat(a: seq<Event>, b: seq<Event>, p: Event -> bool)
    ensures Occurs(a + b, p) == Occurs(a, p) + Occurs(b, p)
  {
    if b == [] {
      assert a + b == a;
    } else {
      OccursConcat(a, b[..|b| - 1], p);
      assert (a + b)[..|a + b| - 1] == a + b[..|b| - 1];
    }
  }

  lemma Occurs3(a: Event, b: Event, c: Event, p: Event -> bool)
    ensures Occurs([a, b, c], p) == (if p(a) then 1 else 0) + (if p(b) then 1 else 0) + if p(c) then 1 else 0
  {
    assert [a, b, c][..2] == [a, b] && [a, b][..1] == [a];
    assert Occurs([a], p) == Occurs([], p) + if p(a) then 1 else 0;
    assert Occurs([a, b], p) == Occurs([a], p) + if p(b) then 1 else 0;
  }

  lemma {:induction false} FailedAttemptsCounts(key: Id, n: nat, v: Id)
    ensures Occurs(FailedAttempts(key, n), StartOf(v)) == if v == key then n else 0
    ensures Occurs(FailedAttempts(key, n), SuccessOf(v)) == 0
    ensures forall e :: e in FailedAttempts(key, n) ==> e.key == key
  {
    if n > 0 {
      FailedAttemptsCounts(key, n - 1, v);
      var a, b, c := TaskStart(key, n - 1), Ran(key, false), TaskFailure(key, n);
      OccursConcat(FailedAttempts(key, n - 1), [a, b, c], StartOf(v));
      OccursConcat(FailedAttempts(key, n - 1), [a, b, c], SuccessOf(v));
      Occurs3(a, b, c, StartOf(v));
      Occurs3(a, b, c, SuccessOf(v));
    }
  }

  lemma FailedAttemptsLast(key: Id, n: nat)
    requires n > 0
    ensures FailedAttempts(key, n) != []
    ensures FailedAttempts(key, n)[|FailedAttempts(key, n)| - 1] == TaskFailure(key, n)
  {
  }

  lemma SuccessLogCounts(key: Id, n: nat, v: Id)
    ensures Occurs(SuccessLog(key, n), StartOf(v)) == if v == key then n + 1 else 0
    ensures Occurs(SuccessLog(key, n), SuccessOf(v)) == if v == key then 1 else 0
    ensures forall e :: e in SuccessLog(key, n) ==> e.key == key
  {
    FailedAttemptsCounts(key, n, v);
    var a, b, c := TaskStart(key, n), Ran(key, true), TaskSuccess(key, n);
    OccursConcat(FailedAttempts(key, n), [a, b, c], StartOf(v));
    OccursConcat(FailedAttempts(key, n), [a, b, c], SuccessOf(v));
    Occurs3(a, b, c, StartOf(v));
    Occurs3(a, b, c, SuccessOf(v));
  }

  lemma IsRunPrefix(tasks: map<Id, ExecTask>, done: seq<Id>, retries: seq<nat>)
    requires IsRun(tasks, done, retries) && done != []
    ensures IsRun(tasks, done[..|done| - 1], retries[..|done| - 1])
    ensures done[|done| - 1] !in done[..|done| - 1]
  {
    var front := done[..|done| - 1];
    assert forall i :: 0 <= i < |front| ==> done[..i] == front[..i];
    assert Elems(front) <= Elems(done);
  }

  lemma {:induction false} RunLogCounts(tasks: map<Id, ExecTask>, done: seq<Id>, retries: seq<nat>, v: Id)
    requires IsRun(tasks, done, retries)
    ensures Occurs(RunLog(done, retries), SuccessOf(v)) == if v in done then 1 else 0
    ensures v !in done ==> Occurs(RunLog(done, retries), StartOf(v)) == 0
    ensures v in done ==> Occurs(RunLog(done, retries), StartOf(v)) <= RetryLimit(tasks[v]) + 1
  {
    if done != [] {
      var n := |done| - 1;
      IsRunPrefix(tasks, done, retries);
      RunLogCounts(tasks, done[..n], retries[..n], v);
      SuccessLogCounts(done[n], retries[n], v);
      OccursConcat(RunLog(done[..n], retries[..n]), SuccessLog(done[n], retries[n]), StartOf(v));
      OccursConcat(RunLog(done[..n], retries[..n]), SuccessLog(done[n], retries[n]), SuccessOf(v));
      assert done == done[..n] + [done[n]];
    }
  }

  /** A trace is the log of the successful tasks followed by attempts at one task that never succeeded. */
  lemma TraceTail(tasks: map<Id, ExecTask>, outcome: Outcome, trace: seq<Event>, done: seq<Id>, retries: seq<nat>)
    returns (key: Id, tail: seq<Event>)
    requires Explains(tasks, outcome, trace, done, retries)
    ensures trace == [] || (IsRun(tasks, done, retries) && trace == RunLog(done, retries) + tail)
    ensures tail != [] ==> MayStart(tasks, done, key)
    ensures forall e :: e in tail ==> e.key == key
    ensures forall v :: Occurs(tail, SuccessOf(v)) == 0
    ensures forall v :: Occurs(tail, StartOf(v)) <= if v == key && key in tasks then RetryLimit(tasks[key]) + 1 else 0
  {
    match outcome {
      case Completed(_) => key, tail := "", [];
      case CycleDetected => key, tail := "", [];
      case UnknownDependency(_, _) => key, tail := "", [];
      case StartFailed => key, tail := "", [];
      case TaskFailed(k) =>
        key, tail := k, FailedAttempts(k, RetryLimit(tasks[k]) + 1);
        AllFailedCounts(k, RetryLimit(tasks[k]) + 1);
      case CheckpointError(k) =>
        var n, log :| 0 <= n <= RetryLimit(tasks[k]) && BrokenOff(k, n, log) && trace == RunLog(done, retries) + log;
        key, tail := k, log;
        BrokenOffCounts(k, n, log);
    }
  }

  lemma AllFailedCounts(key: Id, n: nat)
    ensures forall e :: e in FailedAttempts(key, n) ==> e.key == key
    ensures forall v :: Occurs(FailedAttempts(key, n), SuccessOf(v)) == 0
    ensures forall v :: Occurs(FailedAttempts(key, n), StartOf(v)) <= if v == key then n else 0
  {
    forall v {
      FailedAttemptsCounts(key, n, v);
    }
    FailedAttemptsCounts(key, n, key);
  }

  lemma BrokenOffCounts(key: Id, n: nat, log: seq<Event>)
    requires BrokenOff(key, n, log)
    ensures forall e :: e in log ==> e.key == key
    ensures forall v :: Occurs(log, SuccessOf(v)) == 0 && Occurs(log, StartOf(v)) <= if v == key then n + 1 else 0
  {
    forall v
      ensures Occurs(log, SuccessOf(v)) == 0 && Occurs(log, StartOf(v)) <= if v == key then n + 1 else 0
    {
      FailedAttemptsCounts(key, n, v);
      if log != FailedAttempts(key, n) {
        var ok :| log == FailedAttempts(key, n) + [TaskStart(key, n), Ran(key, ok)];
        var two := [TaskStart(key, n), Ran(key, ok)];
        OccursConcat(FailedAttempts(key, n), two, SuccessOf(v));
        OccursConcat(FailedAttempts(key, n), two, StartOf(v));
        assert two[..1] == [TaskStart(key, n)];
        assert Occurs(two[..1], StartOf(v)) == Occurs([], StartOf(v)) + if v == key then 1 else 0;
        assert Occurs(two[..1], SuccessOf(v)) == Occurs([], SuccessOf(v));
      }
    }
    FailedAttemptsCounts(key, n, key);
  }

  /** No task is started more than `max(0, MaxRetries) + 1` times, and none succeeds twice. */
  lemma AttemptsBounded(tasks: map<Id, ExecTask>, outcome: Outcome, trace: seq<Event>, done: seq<Id>,
                        retries: seq<nat>, v: Id)
    requires Explains(tasks, outcome, trace, done, retries)
    ensures v in tasks ==> Occurs(trace, StartOf(v)) <= (if tasks[v].maxRetries > 0 then tasks[v].maxRetries else 0) + 1
    ensures v !in tasks ==> Occurs(trace, StartOf(v)) == 0
    ensures Occurs(trace, SuccessOf(v)) <= 1
    ensures trace != [] ==> (Occurs(trace, SuccessOf(v)) == 1 <==> v in done)
  {
    var key, tail := TraceTail(tasks, outcome, trace, done, retries);
    RunLogCounts(tasks, done, retries, v);
    OccursConcat(RunLog(done, retries), tail, StartOf(v));
    OccursConcat(RunLog(done, retries), tail, SuccessOf(v));
    assert v in done ==> v in Elems(done);
    if tail == [] {
      assert Occurs(tail, StartOf(v)) == 0;
    }
  }

  /** The tasks that succeed in a trace, in order. */
  function Successes(t: seq<Event>): seq<Id> {
    if t == [] then []
    else
      var last := t[|t| - 1];
      Successes(t[..|t| - 1]) + if last.TaskSuccess? then [last.key] else []
  }

  lemma {:induction false} SuccessesConcat(a: seq<Event>, b: seq<Event>)
    ensures Successes(a + b) == Successes(a) + Successes(b)
  {
    if b == [] {
      assert a + b == a;
    } else {
      SuccessesConcat(a, b[..|b| - 1]);
      assert (a + b)[..|a + b| - 1] == a + b[..|b| - 1];
      assert (a + b)[|a + b| - 1] == b[|b| - 1];
    }
  }

  lemma {:induction false} NoSuccesses(key: Id, n: nat)
    ensures Successes(FailedAttempts(key, n)) == []
  {
    if n > 0 {
      NoSuccesses(key, n - 1);
      var three := [TaskStart(key, n - 1), Ran(key, false), TaskFailure(key, n)];
      SuccessesConcat(FailedAttempts(key, n - 1), three);
      Successes3(three[0], three[1], three[2]);
    }
  }

  lemma Successes3(a: Event, b: Event, c: Event)
    requires !a.TaskSuccess? && !b.TaskSuccess?
    ensures Successes([a, b, c]) == if c.TaskSuccess? then [c.key] else []
  {
    var one, two, three := [a], [a, b], [a, b, c];
    assert one[..0] == [];
    assert Successes(one) == [];
    assert two[..1] == one;
    assert Successes(two) == [];
    assert three[..2] == two;
  }

  lemma SuccessLogSucceeds(key: Id, n: nat)
    ensures Successes(SuccessLog(key, n)) == [key]
  {
    NoSuccesses(key, n);
    Successes3(TaskStart(key, n), Ran(key, true), TaskSuccess(key, n));
    SuccessesConcat(FailedAttempts(key, n), [TaskStart(key, n), Ran(key, true), TaskSuccess(key, n)]);
  }

  lemma {:induction false} RunLogSuccesses(done: seq<Id>, retries: seq<nat>)
    requires |done| == |retries|
    ensures Successes(RunLog(done, retries)) == done
  {
    if done != [] {
      var n := |done| - 1;
      RunLogSuccesses(done[..n], retries[..n]);
      SuccessLogSucceeds(done[n], retries[n]);
      SuccessesConcat(RunLog(done[..n], retries[..n]), SuccessLog(done[n], retries[n]));
    }
  }

  /** The order that a completed run returns lists its tasks as they succeeded, each dependency earlier. */
  lemma OrderIsSuccesses(tasks: map<Id, ExecTask>, order: seq<Id>, trace: seq<Event>, done: seq<Id>,
                         retries: seq<nat>)
    requires Explains(tasks, Completed(order), trace, done, retries)
    ensures order == Successes(trace) && Topological(DepGraph(tasks), order)
  {
    RunLogSuccesses(done, retries);
  }

  ghost predicate SucceededIn(t: seq<Event>, d: Id) {
    exists n :: TaskSuccess(d, n) in t
  }

  lemma {:induction false} RunLogSucceeds(done: seq<Id>, retries: seq<nat>, d: Id)
    requires |done| == |retries| && d in done
    ensures SucceededIn(RunLog(done, retries), d)
  {
    var n := |done| - 1;
    if done[n] == d {
      assert TaskSuccess(d, retries[n]) in SuccessLog(d, retries[n]);
      assert TaskSuccess(d, retries[n]) in RunLog(done, retries);
    } else {
      RunLogSucceeds(done[..n], retries[..n], d);
      var m :| TaskSuccess(d, m) in RunLog(done[..n], retries[..n]);
      assert TaskSuccess(d, m) in RunLog(done, retries);
    }
  }

  lemma {:induction false} RunLogRespects(tasks: map<Id, ExecTask>, done: seq<Id>, retries: seq<nat>, i: nat, d: Id)
    requires IsRun(tasks, done, retries) && i < |RunLog(done, retries)|
    requires RunLog(done, retries)[i].key in tasks && d in tasks[RunLog(done, retries)[i].key].dependsOn
    ensures SucceededIn(RunLog(done, retries)[..i], d)
  {
    var n := |done| - 1;
    var front, log := RunLog(done[..n], retries[..n]), SuccessLog(done[n], retries[n]);
    IsRunPrefix(tasks, done, retries);
    if i < |front| {
      RunLogRespects(tasks, done[..n], retries[..n], i, d);
      assert RunLog(done, retries)[..i] == front[..i];
    } else {
      SuccessLogCounts(done[n], retries[n], d);
      assert RunLog(done, retries)[i] == log[i - |front|];
      assert log[i - |front|] in log;
      RunLogSucceeds(done[..n], retries[..n], d);
      assert RunLog(done, retries)[..i] == front + log[..i - |front|];
    }
  }

  /** Whatever happens to a task happens after each of its dependencies has succeeded. */
  lemma DependenciesFirst(tasks: map<Id, ExecTask>, outcome: Outcome, trace: seq<Event>, done: seq<Id>,
                          retries: seq<nat>, i: nat, d: Id)
    requires Explains(tasks, outcome, trace, done, retries) && i < |trace|
    ensures trace[i].key in tasks
    ensures d in tasks[trace[i].key].dependsOn ==> SucceededIn(trace[..i], d)
  {
    var key, tail := TraceTail(tasks, outcome, trace, done, retries);
    FirstInRun(tasks, done, retries, key, tail, i, d);
  }

  lemma FirstInRun(tasks: map<Id, ExecTask>, done: seq<Id>, retries: seq<nat>, key: Id, tail: seq<Event>, i: nat, d: Id)
    requires IsRun(tasks, done, retries) && i < |RunLog(done, retries) + tail|
    requires tail != [] ==> MayStart(tasks, done, key)
    requires forall e :: e in tail ==> e.key == key
    ensures var trace := RunLog(done, retries) + tail;
      && trace[i].key in tasks
      && (d in tasks[trace[i].key].dependsOn ==> SucceededIn(trace[..i], d))
  {
    var log := RunLog(done, retries);
    var trace := log + tail;
    if i < |log| {
      RunLogKeys(tasks, done, retries, log[i]);
      if d in tasks[trace[i].key].dependsOn {
        RunLogRespects(tasks, done, retries, i, d);
        assert trace[..i] == log[..i];
      }
    } else {
      assert trace[i] == tail[i - |log|];
      if d in tasks[key].dependsOn {
        SucceededBefore(log, tail, done, retries, i - |log|, d);
        assert trace[..i] == log + tail[..i - |log|];
      }
    }
  }

  lemma SucceededBefore(log: seq<Event>, tail: seq<Event>, done: seq<Id>, retries: seq<nat>, k: nat, d: Id)
    requires |done| == |retries| && log == RunLog(done, retries) && d in Elems(done) && k <= |tail|
    ensures SucceededIn(log + tail[..k], d)
  {
    RunLogSucceeds(done, retries, d);
    var n :| TaskSuccess(d, n) in log;
    assert TaskSuccess(d, n) in log + tail[..k];
  }

  lemma {:induction false} RunLogKeys(tasks: map<Id, ExecTask>, done: seq<Id>, retries: seq<nat>, e: Event)
    requires IsRun(tasks, done, retries) && e in RunLog(done, retries)
    ensures e.key in tasks && e.key in done
  {
    var n := |done| - 1;
    IsRunPrefix(tasks, done, retries);
    SuccessLogCounts(done[n], retries[n], done[n]);
    if e in RunLog(done[..n], retries[..n]) {
      RunLogKeys(tasks, done[..n], retries[..n], e);
    }
  }

  /** A failed run ends with the last permitted attempt at the failing task and nothing after it. */
  lemma NothingAfterExhaustion(tasks: map<Id, ExecTask>, trace: seq<Event>, done: seq<Id>, retries: seq<nat>, key: Id)
    requires Explains(tasks, TaskFailed(key), trace, done, retries)
    ensures key in tasks
    ensures var limit := if tasks[key].maxRetries > 0 then tasks[key].maxRetries else 0;
      trace != [] && trace[|trace| - 1] == TaskFailure(key, limit + 1) && Occurs(trace, StartOf(key)) == limit + 1
    ensures Occurs(trace, SuccessOf(key)) == 0
  {
    RunLogCounts(tasks, done, retries, key);
    FailureTail(RunLog(done, retries), key, RetryLimit(tasks[key]) + 1);
  }

  lemma FailureTail(log: seq<Event>, key: Id, n: nat)
    requires n > 0
    ensures var trace := log + FailedAttempts(key, n);
      && trace != [] && trace[|trace| - 1] == TaskFailure(key, n)
      && Occurs(trace, StartOf(key)) == Occurs(log, StartOf(key)) + n
      && Occurs(trace, SuccessOf(key)) == Occurs(log, SuccessOf(key))
  {
    FailedAttemptsLast(key, n);
    FailedAttemptsCounts(key, n, key);
    OccursConcat(log, FailedAttempts(key, n), StartOf(key));
    OccursConcat(log, FailedAttempts(key, n), SuccessOf(key));
  }

  /** A cycle is reported only after every task that is not downstream of a cycle has succeeded
      exactly once; the others are never started. */
  lemma CycleReportedLast(tasks: map<Id, ExecTask>, trace: seq<Event>, done: seq<Id>, retries: seq<nat>, v: Id)
    requires Explains(tasks, CycleDetected, trace, done, retries) && v in tasks
    ensures !Blocked(DepGraph(tasks), v) <==> Occurs(trace, SuccessOf(v)) == 1
    ensures Blocked(DepGraph(tasks), v) <==> Occurs(trace, StartOf(v)) == 0
  {
    RunLogCounts(tasks, done, retries, v);
    ResolvedIffNotBlocked(DepGraph(tasks), v);
    assert v in done <==> v in Elems(done);
    if v in done {
      RunLogStarts(done, retries, v);
    }
  }

  lemma {:induction false} RunLogStarts(done: seq<Id>, retries: seq<nat>, v: Id)
    requires |done| == |retries| && v in done
    ensures Occurs(RunLog(done, retries), StartOf(v)) > 0
  {
    var n := |done| - 1;
    OccursConcat(RunLog(done[..n], retries[..n]), SuccessLog(done[n], retries[n]), StartOf(v));
    if v == done[n] {
      SuccessLogCounts(done[n], retries[n], v);
    } else {
      RunLogStarts(done[..n], retries[..n], v);
    }
  }
}
