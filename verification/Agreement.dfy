/** The four schedulers side by side on one plan. */
module Agreement {
  import opened Dag
  import opened Tasks
  import PlanSchema
  import PlanCheck
  import Executor
  import Orchestrator

  /** The executor's view of a task list: a map by id, in which the tasks of a repeated id become one. */
  function ExecutorGraph(tasks: seq<Task>): map<Id, Executor.ExecTask> {
    var g := GraphOf(tasks);
    map v | v in g :: Executor.ExecTask(v, "", g[v], "", 0)
  }

  lemma SameGraph(tasks: seq<Task>)
    ensures Executor.DepGraph(ExecutorGraph(tasks)) == GraphOf(tasks)
  {
  }

  /** Runs all four on the same plan. With unique ids they accept exactly the schedulable plans, unless a
      task, a checkpoint or an agent fails; with repeated ids two of them refuse every plan. */
  method Decide(tasks: seq<Task>, calls: Executor.Environment, agents: Orchestrator.Environment)
    returns (hints: bool, search: bool, executor: bool, waves: bool)
    ensures hints <==> UniqueIds(tasks) && Schedulable(GraphOf(tasks))
    ensures waves ==> hints
    ensures Orchestrator.AgentsAnswer(agents) ==> waves == hints
    ensures UniqueIds(tasks) ==>
      search == hints && (executor <==> hints && Executor.AllDependable(calls, ExecutorGraph(tasks)))
    ensures UniqueIds(tasks) && Executor.AllDependable(calls, ExecutorGraph(tasks)) && Orchestrator.AgentsAnswer(agents)
      ==> hints == search == executor == waves
  {
    var h := PlanSchema.ComputeExecutionHints(tasks);
    hints := h.Hints?;
    var circular := PlanCheck.CheckCircularDependencies(tasks);
    var missing, _, _ := PlanCheck.CheckMissingDependencies(tasks);
    if UniqueIds(tasks) {
      PlanCheck.OkPlanIsSchedulable(tasks);
    }
    search := !circular && !missing;
    SameGraph(tasks);
    var e, _, _, _ := Executor.Execute(ExecutorGraph(tasks), calls);
    executor := e.Completed?;
    var w, _, _, _ := Orchestrator.ExecuteTasks(tasks, null, agents);
    waves := w.AllExecuted?;
  }
  /** Of the plans that pass the planner's own validation, the two strict schedulers accept exactly those
      with unique ids. */
  lemma AcceptedPlansSchedule(tasks: seq<Task>, validTypes: set<string>)
    requires PlanCheck.PlanOk(tasks, validTypes)
    ensures UniqueIds(tasks) && Schedulable(GraphOf(tasks)) <==> UniqueIds(tasks)
  {
    if UniqueIds(tasks) {
      PlanCheck.OkPlanIsSchedulable(tasks);
    }
  }

  /** Two tasks of one id. */
  function Twins(): seq<Task> {
    [Task("a", "synthesis", [], [], {}, true, true), Task("a", "knowledge_graph", [], [], {}, true, true)]
  }

  /** They pass the planner's validation, and the strict schedulers refuse them. */
  lemma TwinsPass()
    ensures PlanCheck.PlanOk(Twins(), {"synthesis", "knowledge_graph"}) && !UniqueIds(Twins())
  {
    var tasks := Twins();
    var g := PlanCheck.LastDeps(tasks);
    PlanCheck.LastDepsKeys(tasks);
    assert g.Keys == {"a"} && g["a"] == tasks[1].dependsOn == [];
    forall p
      ensures !Cycle(g, p)
    {
      if |p| > 1 {
        assert p[0 + 1] !in Deps(g, p[0]);
      }
    }
    assert tasks[0] in tasks && tasks[1] in tasks;
  }
}
