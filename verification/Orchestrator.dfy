/** The wave scheduler: each round starts every ready task concurrently, and the goroutines of a
    round interleave arbitrarily between their lock-protected steps. */
module Orchestrator {
  import opened Dag
  import opened Tasks
  import opened Budget
  import opened Wrappers

  datatype AgentResult = AgentResult(data: string, cost: real, tokens: int64)

  datatype Step = Step(stepIndex: nat, task: Task, inputs: seq<AgentResult>, result: AgentResult)

  // ---- one goroutine ----

  /** Where a goroutine stands between two of its atomic steps. */
  datatype Pc =
    | Spawned
    | Reading(inputs: seq<AgentResult>)
    | Executed(inputs: seq<AgentResult>, result: AgentResult)
    | Charged(inputs: seq<AgentResult>, result: AgentResult)
    | Committing(inputs: seq<AgentResult>, result: AgentResult)
    | Finished
    | Failed

  datatype Goroutine = Goroutine(task: Task, pc: Pc)

  ghost function StepsLeft(r: Goroutine): nat {
    match r.pc
    case Spawned => |r.task.dependsOn| + 5
    case Reading(inputs) => if |inputs| <= |r.task.dependsOn| then |r.task.dependsOn| - |inputs| + 4 else 4
    case Executed(_, _) => 3
    case Charged(_, _) => 2
    case Committing(_, _) => 1
    case Finished => 0
    case Failed => 0
  }

  ghost function Work(rs: seq<Goroutine>): nat {
    if rs == [] then 0 else Work(rs[..|rs| - 1]) + StepsLeft(rs[|rs| - 1])
  }

  lemma {:induction false} WorkDrops(rs: seq<Goroutine>, i: nat, r: Goroutine)
    requires i < |rs| && StepsLeft(r) < StepsLeft(rs[i])
    ensures Work(rs[i := r]) < Work(rs)
  {
    var n := |rs| - 1;
    if i == n {
      assert rs[i := r][..n] == rs[..n];
    } else {
      assert rs[i := r][..n] == rs[..n][i := r];
      WorkDrops(rs[..n], i, r);
    }
  }

  // ---- what has been charged ----

  /** What a goroutine has charged to the monitor without its result being recorded yet. */
  ghost function InFlight(pc: Pc): (real, int) {
    match pc
    case Charged(_, result) => (result.cost, result.tokens)
    case Committing(_, result) => (result.cost, result.tokens)
    case _ => (0.0, 0)
  }

  ghost function CostInFlight(rs: seq<Goroutine>): real {
    if rs == [] then 0.0 else CostInFlight(rs[..|rs| - 1]) + InFlight(rs[|rs| - 1].pc).0
  }

  ghost function TokensInFlight(rs: seq<Goroutine>): int {
    if rs == [] then 0 else TokensInFlight(rs[..|rs| - 1]) + InFlight(rs[|rs| - 1].pc).1
  }

  ghost function SumCost(results: seq<AgentResult>): real {
    if results == [] then 0.0 else SumCost(results[..|results| - 1]) + results[|results| - 1].cost
  }

  ghost function SumTokens(results: seq<AgentResult>): int {
    if results == [] then 0 else SumTokens(results[..|results| - 1]) + results[|results| - 1].tokens
  }

  lemma {:induction false} InFlightUpdate(rs: seq<Goroutine>, i: nat, r: Goroutine)
    requires i < |rs|
    ensures CostInFlight(rs[i := r]) == CostInFlight(rs) - InFlight(rs[i].pc).0 + InFlight(r.pc).0
    ensures TokensInFlight(rs[i := r]) == TokensInFlight(rs) - InFlight(rs[i].pc).1 + InFlight(r.pc).1
  {
    var n := |rs| - 1;
    if i == n {
      assert rs[i := r][..n] == rs[..n];
    } else {
      assert rs[i := r][..n] == rs[..n][i := r];
      InFlightUpdate(rs[..n], i, r);
    }
  }

  lemma {:induction false} NothingInFlight(rs: seq<Goroutine>)
    requires forall r :: r in rs ==> r.pc.Spawned? || r.pc.Finished? || r.pc.Failed?
    ensures CostInFlight(rs) == 0.0 && TokensInFlight(rs) == 0
  {
    if rs != [] {
      assert rs[|rs| - 1] in rs;
      NothingInFlight(rs[..|rs| - 1]);
    }
  }

  lemma SumPush(results: seq<AgentResult>, r: AgentResult)
    ensures SumCost(results + [r]) == SumCost(results) + r.cost
    ensures SumTokens(results + [r]) == SumTokens(results) + r.tokens
  {
    assert (results + [r])[..|results|] == results;
  }

  // ---- what has been recorded ----

  ghost predicate Provided(steps: seq<Step>, d: Id, r: AgentResult) {
    exists k :: 0 <= k < |steps| && steps[k].task.id == d && steps[k].result == r
  }

  /** `inputs` are results of the first dependencies of `task`, in order, recorded in `steps`. */
  ghost predicate InputsFrom(steps: seq<Step>, task: Task, inputs: seq<AgentResult>) {
    |inputs| <= |task.dependsOn| && forall j :: 0 <= j < |inputs| ==> Provided(steps, task.dependsOn[j], inputs[j])
  }

  ghost predicate StepOk(traces: seq<Step>, i: nat)
    requires i < |traces|
  {
    var s := traces[i];
    s.stepIndex == i && |s.inputs| == |s.task.dependsOn| && InputsFrom(traces[..i], s.task, s.inputs)
  }

  /** The shared record of a run, protected by one mutex. */
  datatype Record = Record(results: seq<AgentResult>, traces: seq<Step>, executed: set<Id>,
                           resultsByID: map<Id, AgentResult>) {

    ghost predicate Consistent() {
      && |results| == |traces|
      && (forall i :: 0 <= i < |traces| ==>
            StepOk(traces, i) && traces[i].result == results[i] && traces[i].task.id in executed)
      && resultsByID.Keys == executed
      && (forall d :: d in executed ==> Provided(traces, d, resultsByID[d]))
    }

    function Commit(task: Task, inputs: seq<AgentResult>, result: AgentResult): Record {
      Record(results + [result], traces + [Step(|traces|, task, inputs, result)],
             executed + {task.id}, resultsByID[task.id := result])
    }
  }

  lemma ProvidedStays(steps: seq<Step>, s: Step, d: Id, r: AgentResult)
    requires Provided(steps, d, r)
    ensures Provided(steps + [s], d, r)
  {
    var k :| 0 <= k < |steps| && steps[k].task.id == d && steps[k].result == r;
    assert (steps + [s])[k] == steps[k];
  }

  lemma CommitConsistent(rec: Record, task: Task, inputs: seq<AgentResult>, result: AgentResult)
    requires rec.Consistent()
    requires |inputs| == |task.dependsOn| && InputsFrom(rec.traces, task, inputs)
    ensures rec.Commit(task, inputs, result).Consistent()
  {
    var next := rec.Commit(task, inputs, result);
    var n := |rec.traces|;
    forall i | 0 <= i < |next.traces|
      ensures StepOk(next.traces, i) && next.traces[i].result == next.results[i]
        && next.traces[i].task.id in next.executed
    {
      if i < n {
        assert StepOk(rec.traces, i);
        assert next.traces[..i] == rec.traces[..i];
      } else {
        assert next.traces[..n] == rec.traces;
      }
    }
    forall d | d in next.executed
      ensures Provided(next.traces, d, next.resultsByID[d])
    {
      if d == task.id {
        assert next.traces[n].task.id == d;
      } else {
        ProvidedStays(rec.traces, next.traces[n], d, rec.resultsByID[d]);
      }
    }
  }

  // ---- one round ----

  /** A goroutine only holds results of its own dependencies, all of which ran in earlier rounds. */
  ghost predicate GoroutineOk(base: set<Id>, rec: Record, r: Goroutine) {
    && AllIn(r.task.dependsOn, base) && base <= rec.executed
    && match r.pc
       case Reading(inputs) => InputsFrom(rec.traces, r.task, inputs)
       case Executed(inputs, _) => |inputs| == |r.task.dependsOn| && InputsFrom(rec.traces, r.task, inputs)
       case Charged(inputs, _) => |inputs| == |r.task.dependsOn| && InputsFrom(rec.traces, r.task, inputs)
       case Committing(inputs, _) => |inputs| == |r.task.dependsOn| && InputsFrom(rec.traces, r.task, inputs)
       case _ => true
  }

  lemma GoroutineStays(base: set<Id>, rec: Record, r: Goroutine, task: Task, inputs: seq<AgentResult>,
                       result: AgentResult)
    requires GoroutineOk(base, rec, r)
    ensures GoroutineOk(base, rec.Commit(task, inputs, result), r)
  {
    var s := Step(|rec.traces|, task, inputs, result);
    forall d, x | Provided(rec.traces, d, x)
      ensures Provided(rec.traces + [s], d, x)
    {
      ProvidedStays(rec.traces, s, d, x);
    }
  }

  predicate Over(r: Goroutine) {
    r.pc.Finished? || r.pc.Failed?
  }

  ghost predicate Recorded(traces: seq<Step>, t: Task) {
    exists k :: 0 <= k < |traces| && traces[k].task == t
  }

  /** How far a round has come: finished goroutines are recorded, the others hold consistent inputs. */
  ghost predicate InRound(ready: seq<Task>, before: Record, rec: Record, rs: seq<Goroutine>) {
    rec.Consistent() && RoutinesOk(ready, before.executed, rec, rs) && FinishedRecorded(ready, before, rec, rs)
  }

  ghost predicate RoutinesOk(ready: seq<Task>, base: set<Id>, rec: Record, rs: seq<Goroutine>) {
    |rs| == |ready| && forall i :: 0 <= i < |rs| ==> rs[i].task == ready[i] && GoroutineOk(base, rec, rs[i])
  }

  ghost predicate FinishedRecorded(ready: seq<Task>, before: Record, rec: Record, rs: seq<Goroutine>)
    requires |rs| == |ready|
  {
    && before.traces <= rec.traces
    && rec.executed == before.executed + FinishedIds(rs)
    && (forall k :: |before.traces| <= k < |rec.traces| ==> rec.traces[k].task in ready)
    && (forall i :: 0 <= i < |rs| && rs[i].pc.Finished? ==> Recorded(rec.traces, ready[i]))
    && (NewAndDistinct(ready, before.executed) ==> |rec.traces| - |before.traces| == |rec.executed| - |before.executed|)
  }

  ghost function FinishedIds(rs: seq<Goroutine>): set<Id> {
    set r | r in rs && r.pc.Finished? :: r.task.id
  }

  ghost predicate NewAndDistinct(ready: seq<Task>, executed: set<Id>) {
    UniqueIds(ready) && forall t :: t in ready ==> t.id !in executed
  }

  lemma RoundStarts(ready: seq<Task>, rec: Record, rs: seq<Goroutine>)
    requires rec.Consistent() && |rs| == |ready|
    requires forall i :: 0 <= i < |rs| ==> rs[i] == Goroutine(ready[i], Spawned)
    requires forall t :: t in ready ==> AllIn(t.dependsOn, rec.executed)
    ensures InRound(ready, rec, rec, rs)
  {
    assert FinishedIds(rs) == {};
  }

  /** A step that records nothing. */
  lemma RoundSteps(ready: seq<Task>, before: Record, rec: Record, rs: seq<Goroutine>, i: nat, r: Goroutine)
    requires InRound(ready, before, rec, rs) && i < |rs| && !Over(rs[i])
    requires r.task == rs[i].task && !r.pc.Finished? && GoroutineOk(before.executed, rec, r)
    ensures InRound(ready, before, rec, rs[i := r])
  {
    FinishedNone(rs, i, r);
  }

  lemma FinishedNone(rs: seq<Goroutine>, i: nat, r: Goroutine)
    requires i < |rs| && !Over(rs[i]) && !r.pc.Finished?
    ensures FinishedIds(rs[i := r]) == FinishedIds(rs)
  {
    var rs' := rs[i := r];
    forall x
      ensures (x in rs' && x.pc.Finished?) <==> (x in rs && x.pc.Finished?)
    {
      if x in rs && x.pc.Finished? {
        var k :| 0 <= k < |rs| && rs[k] == x;
        assert rs'[k] == x;
      }
    }
  }

  lemma FinishedOne(rs: seq<Goroutine>, i: nat)
    requires i < |rs| && !Over(rs[i])
    ensures FinishedIds(rs[i := Goroutine(rs[i].task, Finished)]) == FinishedIds(rs) + {rs[i].task.id}
  {
    var r := Goroutine(rs[i].task, Finished);
    var rs' := rs[i := r];
    assert rs'[i] == r;
    forall x
      ensures (x in rs' && x.pc.Finished?) <==> (x == r || (x in rs && x.pc.Finished?))
    {
      if x in rs && x.pc.Finished? {
        var k :| 0 <= k < |rs| && rs[k] == x;
        assert rs'[k] == x;
      }
    }
  }

  lemma NotYetExecuted(ready: seq<Task>, executed: set<Id>, rs: seq<Goroutine>, i: nat)
    requires NewAndDistinct(ready, executed) && |rs| == |ready| && i < |rs| && !Over(rs[i])
    requires forall k :: 0 <= k < |rs| ==> rs[k].task == ready[k]
    ensures ready[i].id !in executed + FinishedIds(rs)
  {
    forall r | r in rs && r.pc.Finished?
      ensures r.task.id != ready[i].id
    {
      var k :| 0 <= k < |rs| && rs[k] == r;
      assert k != i && rs[k].task == ready[k];
    }
    assert ready[i] in ready;
  }

  /** A step that records a result. */
  lemma RoundCommits(ready: seq<Task>, before: Record, rec: Record, rs: seq<Goroutine>, i: nat,
                     inputs: seq<AgentResult>, result: AgentResult)
    requires InRound(ready, before, rec, rs) && i < |rs| && !Over(rs[i])
    requires |inputs| == |ready[i].dependsOn| && InputsFrom(rec.traces, ready[i], inputs)
    ensures InRound(ready, before, rec.Commit(ready[i], inputs, result), rs[i := Goroutine(ready[i], Finished)])
  {
    CommitConsistent(rec, ready[i], inputs, result);
    CommitRoutines(ready, before.executed, rec, rs, i, inputs, result);
    CommitRecorded(ready, before, rec, rs, i, inputs, result);
  }

  lemma CommitRoutines(ready: seq<Task>, base: set<Id>, rec: Record, rs: seq<Goroutine>, i: nat,
                       inputs: seq<AgentResult>, result: AgentResult)
    requires RoutinesOk(ready, base, rec, rs) && i < |rs|
    ensures RoutinesOk(ready, base, rec.Commit(ready[i], inputs, result), rs[i := Goroutine(ready[i], Finished)])
  {
    forall k | 0 <= k < |rs|
      ensures GoroutineOk(base, rec.Commit(ready[i], inputs, result), rs[k])
    {
      GoroutineStays(base, rec, rs[k], ready[i], inputs, result);
    }
  }

  lemma RecordedStays(traces: seq<Step>, s: Step, t: Task)
    requires s.task == t || Recorded(traces, t)
    ensures Recorded(traces + [s], t)
  {
    if s.task == t {
      assert (traces + [s])[|traces|].task == t;
    } else {
      var m :| 0 <= m < |traces| && traces[m].task == t;
      assert (traces + [s])[m].task == t;
    }
  }

  lemma CommitRecorded(ready: seq<Task>, before: Record, rec: Record, rs: seq<Goroutine>, i: nat,
                       inputs: seq<AgentResult>, result: AgentResult)
    requires |rs| == |ready| && forall k :: 0 <= k < |rs| ==> rs[k].task == ready[k]
    requires FinishedRecorded(ready, before, rec, rs) && i < |rs| && !Over(rs[i])
    ensures FinishedRecorded(ready, before, rec.Commit(ready[i], inputs, result),
                             rs[i := Goroutine(ready[i], Finished)])
  {
    var next, rs' := rec.Commit(ready[i], inputs, result), rs[i := Goroutine(ready[i], Finished)];
    assert next.executed == before.executed + FinishedIds(rs') by {
      FinishedOne(rs, i);
    }
    var s := Step(|rec.traces|, ready[i], inputs, result);
    forall k | 0 <= k < |rs'| && rs'[k].pc.Finished?
      ensures Recorded(next.traces, ready[k])
    {
      RecordedStays(rec.traces, s, ready[k]);
    }
    assert ready[i] in ready;
    if NewAndDistinct(ready, before.executed) {
      NotYetExecuted(ready, before.executed, rs, i);
    }
  }

  /** The effect of an error-free round. */
  ghost predicate RoundRecorded(ready: seq<Task>, before: Record, rec: Record) {
    && rec.executed == before.executed + Ids(ready)
    && before.traces <= rec.traces
    && (forall t :: t in ready ==> Recorded(rec.traces, t))
    && (forall k :: |before.traces| <= k < |rec.traces| ==> rec.traces[k].task in ready)
    && (NewAndDistinct(ready, before.executed) ==> |rec.traces| - |before.traces| == |rec.executed| - |before.executed|)
  }

  lemma RoundEnds(ready: seq<Task>, before: Record, rec: Record, rs: seq<Goroutine>)
    requires |rs| == |ready| && forall i :: 0 <= i < |rs| ==> rs[i].task == ready[i] && rs[i].pc.Finished?
    requires FinishedRecorded(ready, before, rec, rs)
    ensures RoundRecorded(ready, before, rec)
  {
    forall v
      ensures v in FinishedIds(rs) <==> v in Ids(ready)
    {
      if v in Ids(ready) {
        var i :| 0 <= i < |ready| && ready[i].id == v;
        assert rs[i] in rs;
      }
      if v in FinishedIds(rs) {
        var k :| 0 <= k < |rs| && rs[k].task.id == v;
        assert ready[k] in ready;
      }
    }
    forall t | t in ready
      ensures Recorded(rec.traces, t)
    {
      var i :| 0 <= i < |ready| && ready[i] == t;
    }
  }

  // ---- accounting ----

  predicate InFlightPc(pc: Pc) {
    pc.Charged? || pc.Committing?
  }

  /** Charges made by goroutines that went on to fail; ghost bookkeeping only. */
  datatype Lost = Lost(cost: real, tokens: int)

  /** The monitor's usage next to what the run knows about it. */
  datatype Books = Books(cost: real, tokens: int64, within: bool, results: seq<AgentResult>, lost: Lost,
                         errors: nat, charged: bool)

  /** What the monitor shows is what was recorded, what is in flight and what failed goroutines charged. */
  ghost predicate Balanced(k: Books, cost0: real, tokens0: int64, rs: seq<Goroutine>) {
    && k.cost == cost0 + SumCost(k.results) + CostInFlight(rs) + k.lost.cost
    && k.tokens == Wrap64(tokens0 + SumTokens(k.results) + TokensInFlight(rs) + k.lost.tokens)
    && (k.errors == 0 ==> k.lost == Lost(0.0, 0))
    && (k.errors == 0 && k.charged ==> k.within)
    && (k.results != [] || (exists i :: 0 <= i < |rs| && InFlightPc(rs[i].pc)) ==> k.charged)
  }

  /** A charge, successful or not. */
  ghost predicate ChargeStep(k: Books, k': Books, before: Pc, after: Pc)
    requires before.Executed?
  {
    var result := before.result;
    && k'.cost == k.cost + result.cost && k'.tokens == Wrap64(k.tokens + result.tokens) && k'.charged
    && k'.results == k.results
    && if k'.within then after == Charged(before.inputs, result) && k'.lost == k.lost && k'.errors == k.errors
       else
         && after == Failed && k'.errors == k.errors + 1
         && k'.lost == Lost(k.lost.cost + result.cost, k.lost.tokens + result.tokens)
  }

  /** Any other step: a charge in flight stays in flight, is recorded, or is lost. */
  ghost predicate QuietStep(k: Books, k': Books, before: Pc, after: Pc) {
    && k'.cost == k.cost && k'.tokens == k.tokens && k'.within == k.within && k'.charged == k.charged
    && if after.Failed? then
         k'.lost == Lost(k.lost.cost + InFlight(before).0, k.lost.tokens + InFlight(before).1)
         && k'.errors == k.errors + 1 && k'.results == k.results
       else if after.Finished? then
         before.Committing? && k'.results == k.results + [before.result] && k'.lost == k.lost && k'.errors == k.errors
       else
         k'.results == k.results && k'.lost == k.lost && k'.errors == k.errors
         && InFlight(after) == InFlight(before) && (InFlightPc(after) ==> InFlightPc(before))
  }

  lemma ChargeBalances(k: Books, k': Books, cost0: real, tokens0: int64, rs: seq<Goroutine>, i: nat, pc: Pc)
    requires Balanced(k, cost0, tokens0, rs) && i < |rs| && rs[i].pc.Executed?
    requires ChargeStep(k, k', rs[i].pc, pc)
    ensures Balanced(k', cost0, tokens0, rs[i := Goroutine(rs[i].task, pc)])
  {
    var r := Goroutine(rs[i].task, pc);
    InFlightUpdate(rs, i, r);
    WrapOfSum(tokens0 + SumTokens(k.results) + TokensInFlight(rs) + k.lost.tokens, rs[i].pc.result.tokens);
  }

  lemma QuietBalances(k: Books, k': Books, cost0: real, tokens0: int64, rs: seq<Goroutine>, i: nat, pc: Pc)
    requires Balanced(k, cost0, tokens0, rs) && i < |rs| && QuietStep(k, k', rs[i].pc, pc)
    ensures Balanced(k', cost0, tokens0, rs[i := Goroutine(rs[i].task, pc)])
  {
    var r := Goroutine(rs[i].task, pc);
    var rs' := rs[i := r];
    InFlightUpdate(rs, i, r);
    if pc.Finished? {
      SumPush(k.results, rs[i].pc.result);
    }
    if j :| 0 <= j < |rs'| && InFlightPc(rs'[j].pc) {
      assert InFlightPc(rs[j].pc);
    }
  }

  // ---- the shared state and its steps ----

  /** What a run meets, by round and by position among the round's ready tasks: whether a capable agent is
      found, what the agent answers when it is handed a task and the results of its dependencies, and what
      the clock shows before the round and after the charge. */
  datatype Environment = Environment(
    agentFound: (nat, nat) -> bool, answer: (nat, nat, Task, seq<AgentResult>) -> Option<AgentResult>,
    roundClock: nat -> int64, clock: (nat, nat) -> int64)

  ghost predicate AgentsAnswer(env: Environment) {
    && (forall round: nat, i: nat :: env.agentFound(round, i))
    && forall round: nat, i: nat, task, inputs :: env.answer(round, i, task, inputs).Some?
  }

  /** A goroutine past finding its agent has found it, and holds what that agent answered. */
  ghost predicate AgentAnswered(env: Environment, round: nat, i: nat, r: Goroutine) {
    && (!r.pc.Spawned? && !Over(r) ==> env.agentFound(round, i))
    && match r.pc
       case Executed(inputs, result) => env.answer(round, i, r.task, inputs) == Some(result)
       case Charged(inputs, result) => env.answer(round, i, r.task, inputs) == Some(result)
       case Committing(inputs, result) => env.answer(round, i, r.task, inputs) == Some(result)
       case _ => true
  }

  /** A step whose result is the answer of the agent that was handed its task and inputs in this round. */
  ghost predicate FromAgent(env: Environment, round: nat, ready: seq<Task>, s: Step) {
    exists i: nat :: i < |ready| && AnswersStep(env, round, ready, i, s)
  }

  predicate AnswersStep(env: Environment, round: nat, ready: seq<Task>, i: nat, s: Step)
    requires i < |ready|
  {
    ready[i] == s.task && env.agentFound(round, i) && env.answer(round, i, s.task, s.inputs) == Some(s.result)
  }

  /** Every goroutine holds, and every step of the round records, what its agent answered. */
  ghost predicate RoundAnswered(env: Environment, round: nat, ready: seq<Task>, before: Record, rec: Record,
                                rs: seq<Goroutine>) {
    && (forall i :: 0 <= i < |rs| ==> AgentAnswered(env, round, i, rs[i]))
    && forall k :: |before.traces| <= k < |rec.traces| ==> FromAgent(env, round, ready, rec.traces[k])
  }

  /** Every step so far is the answer of its agent, in the round that the task's wave was run. */
  ghost predicate AllFromAgents(env: Environment, waves: seq<seq<Task>>, traces: seq<Step>) {
    forall k :: 0 <= k < |traces| ==> InSomeWave(env, waves, traces[k])
  }

  ghost predicate InSomeWave(env: Environment, waves: seq<seq<Task>>, s: Step) {
    exists n: nat :: n < |waves| && FromAgent(env, n, waves[n], s)
  }

  lemma AgentsAdvance(env: Environment, waves: seq<seq<Task>>, ready: seq<Task>, before: Record, rec: Record)
    requires AllFromAgents(env, waves, before.traces) && before.traces <= rec.traces
    requires forall k :: |before.traces| <= k < |rec.traces| ==> FromAgent(env, |waves|, ready, rec.traces[k])
    ensures AllFromAgents(env, waves + [ready], rec.traces)
  {
    forall k | 0 <= k < |rec.traces|
      ensures InSomeWave(env, waves + [ready], rec.traces[k])
    {
      if k < |before.traces| {
        assert InSomeWave(env, waves, before.traces[k]);
        var n: nat :| n < |waves| && FromAgent(env, n, waves[n], before.traces[k]);
        assert (waves + [ready])[n] == waves[n];
      } else {
        assert (waves + [ready])[|waves|] == ready;
      }
    }
  }

  /** No agent is found for the task at this position, or the agent does not answer. */
  ghost predicate AgentFails(env: Environment, round: nat, i: nat, task: Task) {
    !env.agentFound(round, i) || exists inputs :: env.answer(round, i, task, inputs).None?
  }

  /** An error in a round is down to an agent of the round, or to a limit. */
  ghost predicate Excused(env: Environment, round: nat, ready: seq<Task>, monitor: Monitor?) {
    || (monitor != null && !monitor.Unlimited())
    || exists i: nat :: i < |ready| && AgentFails(env, round, i, ready[i])
  }

  /** No agent fails, and no budget can be exceeded. */
  ghost predicate NothingFails(env: Environment, monitor: Monitor?) {
    AgentsAnswer(env) && (monitor != null ==> monitor.Unlimited())
  }

  /** What makes a goroutine fail at its next step: no agent, no answer, a limit breached by its charge, or
      the time limit. */
  ghost predicate Fails(r: Goroutine, monitor: Monitor?, env: Environment, round: nat, i: nat)
    reads monitor
  {
    match r.pc
    case Spawned => !env.agentFound(round, i)
    case Reading(inputs) => |inputs| == |r.task.dependsOn| && env.answer(round, i, r.task, inputs).None?
    case Executed(_, _) => monitor != null && !monitor.WithinLimits()
    case Charged(_, _) => monitor != null && monitor.Late(env.clock(round, i))
    case _ => false
  }

  class Run {
    var results: seq<AgentResult>
    var traces: seq<Step>
    var executed: set<Id>
    var resultsByID: map<Id, AgentResult>
    var errors: nat
    ghost var lost: Lost
    ghost var charged: bool

    constructor ()
      ensures Rec() == Record([], [], {}, map[]) && errors == 0 && lost == Lost(0.0, 0) && !charged
    {
      results, traces, executed, resultsByID, errors := [], [], {}, map[], 0;
      lost, charged := Lost(0.0, 0), false;
    }

    ghost function Rec(): Record
      reads this
    {
      Record(results, traces, executed, resultsByID)
    }

    ghost function BooksOf(m: Monitor): Books
      reads this, m
    {
      Books(m.costUsed, m.tokensUsed, m.WithinLimits(), results, lost, errors, charged)
    }

    /** Reports an error on the round's channel; what the goroutine had charged stays charged. */
    method Fail(ghost chargedCost: real, ghost chargedTokens: int)
      modifies this`errors, this`lost
      ensures errors == old(errors) + 1 && lost == Lost(old(lost).cost + chargedCost, old(lost).tokens + chargedTokens)
    {
      errors := errors + 1;
      lost := Lost(lost.cost + chargedCost, lost.tokens + chargedTokens);
    }

    /** Reads the result of the next dependency under the lock. */
    method ReadInput(task: Task, inputs: seq<AgentResult>) returns (inputs': seq<AgentResult>)
      requires Rec().Consistent() && InputsFrom(traces, task, inputs)
      requires |inputs| < |task.dependsOn| && task.dependsOn[|inputs|] in executed
      ensures InputsFrom(traces, task, inputs') && |inputs'| == |inputs| + 1
    {
      var depID := task.dependsOn[|inputs|];
      var input := resultsByID[depID];
      assert Provided(traces, depID, input);
      return inputs + [input];
    }

    method Charge(result: AgentResult, monitor: Monitor) returns (breached: bool)
      modifies monitor, this`errors, this`lost, this`charged
      ensures monitor.costUsed == old(monitor.costUsed) + result.cost
      ensures monitor.tokensUsed == Wrap64(old(monitor.tokensUsed) + result.tokens)
      ensures charged && (breached <==> !monitor.WithinLimits())
      ensures errors == old(errors) + if breached then 1 else 0
      ensures lost == if breached then Lost(old(lost).cost + result.cost, old(lost).tokens + result.tokens)
        else old(lost)
    {
      var breach := monitor.Add(result.cost, result.tokens);
      charged := true;
      breached := breach.Some?;
      if breached {
        Fail(result.cost, result.tokens);
      }
    }

    /** Records a result under the lock. */
    method Commit(task: Task, inputs: seq<AgentResult>, result: AgentResult)
      modifies this`results, this`executed, this`resultsByID, this`traces
      ensures Rec() == old(Rec()).Commit(task, inputs, result)
    {
      results := results + [result];
      executed := executed + {task.id};
      resultsByID := resultsByID[task.id := result];
      traces := traces + [Step(|traces|, task, inputs, result)];
    }

    /** One atomic step of a goroutine, the `i`-th of its round. Reading an input, charging and recording
        each hold a lock. */
    method Advance(r: Goroutine, monitor: Monitor?, env: Environment, round: nat, i: nat, ghost base: set<Id>)
      returns (pc: Pc)
      requires Rec().Consistent() && GoroutineOk(base, Rec(), r) && !Over(r) && AgentAnswered(env, round, i, r)
      modifies this, monitor
      ensures AgentAnswered(env, round, i, Goroutine(r.task, pc))
      ensures StepsLeft(Goroutine(r.task, pc)) < StepsLeft(r)
      ensures !pc.Finished? ==> Rec() == old(Rec()) && GoroutineOk(base, Rec(), Goroutine(r.task, pc))
      ensures pc.Finished? ==> r.pc.Committing? && Rec() == old(Rec()).Commit(r.task, r.pc.inputs, r.pc.result)
      ensures errors == old(errors) + if pc.Failed? then 1 else 0
      ensures pc.Failed? <==> Fails(r, monitor, env, round, i)
      ensures monitor != null ==>
        if r.pc.Executed? then ChargeStep(old(BooksOf(monitor)), BooksOf(monitor), r.pc, pc)
        else QuietStep(old(BooksOf(monitor)), BooksOf(monitor), r.pc, pc)
    {
      match r.pc
      case Spawned =>
        if !env.agentFound(round, i) {
          Fail(0.0, 0);
          return Failed;
        }
        return Reading([]);
      case Reading(inputs) =>
        if |inputs| < |r.task.dependsOn| {
          var more := ReadInput(r.task, inputs);
          return Reading(more);
        }
        var answer := env.answer(round, i, r.task, inputs);
        if answer.None? {
          Fail(0.0, 0);
          return Failed;
        }
        return Executed(inputs, answer.value);
      case Executed(inputs, result) =>
        if monitor != null {
          var breached := Charge(result, monitor);
          if breached {
            return Failed;
          }
        }
        return Charged(inputs, result);
      case Charged(inputs, result) =>
        if monitor != null {
          var breach := monitor.CheckTime(env.clock(round, i));
          if breach.Some? {
            Fail(result.cost, result.tokens);
            return Failed;
          }
        }
        return Committing(inputs, result);
      case Committing(inputs, result) =>
        Commit(r.task, inputs, result);
        return Finished;
    }
  }

  /** What holds between any two atomic steps of a round. */
  ghost predicate Sound(run: Run, monitor: Monitor?, env: Environment, round: nat, ready: seq<Task>,
                        before: Record, rs: seq<Goroutine>, cost0: real, tokens0: int64)
    reads run, monitor
  {
    && InRound(ready, before, run.Rec(), rs) && RoundAnswered(env, round, ready, before, run.Rec(), rs)
    && (run.errors > 0 ==> Excused(env, round, ready, monitor))
    && (monitor != null ==> Balanced(run.BooksOf(monitor), cost0, tokens0, rs))
    && (run.errors == 0 ==> forall i :: 0 <= i < |rs| ==> !rs[i].pc.Failed?)
  }

  method StepOne(run: Run, monitor: Monitor?, env: Environment, round: nat, ready: seq<Task>,
                 ghost before: Record, rs: seq<Goroutine>, i: nat, ghost cost0: real, ghost tokens0: int64)
    returns (rs': seq<Goroutine>)
    requires i < |rs| && !Over(rs[i]) && Sound(run, monitor, env, round, ready, before, rs, cost0, tokens0)
    modifies run, monitor
    ensures Sound(run, monitor, env, round, ready, before, rs', cost0, tokens0)
    ensures Work(rs') < Work(rs)
  {
    ghost var rec := run.Rec();
    ghost var books := if monitor != null then Some(run.BooksOf(monitor)) else None;
    var pc := run.Advance(rs[i], monitor, env, round, i, before.executed);
    var r := Goroutine(rs[i].task, pc);
    rs' := rs[i := r];
    assert Work(rs') < Work(rs) by {
      WorkDrops(rs, i, r);
    }
    assert InRound(ready, before, run.Rec(), rs') && RoundAnswered(env, round, ready, before, run.Rec(), rs') by {
      StepKeepsRound(env, round, ready, before, rec, run.Rec(), rs, i, pc);
    }
    assert run.errors > 0 ==> Excused(env, round, ready, monitor) by {
      if pc.Failed? {
        FailureExcused(env, round, ready, monitor, rs[i], i);
      }
    }
    assert monitor != null ==> Balanced(run.BooksOf(monitor), cost0, tokens0, rs') by {
      if monitor != null {
        StepBalances(books.value, run.BooksOf(monitor), cost0, tokens0, rs, i, pc);
      }
    }
  }

  /** What one step does to the round, whoever takes it. */
  lemma StepKeepsRound(env: Environment, round: nat, ready: seq<Task>, before: Record, rec: Record, rec': Record,
                       rs: seq<Goroutine>, i: nat, pc: Pc)
    requires InRound(ready, before, rec, rs) && RoundAnswered(env, round, ready, before, rec, rs)
    requires i < |rs| && !Over(rs[i]) && AgentAnswered(env, round, i, Goroutine(rs[i].task, pc))
    requires !pc.Finished? ==> rec' == rec && GoroutineOk(before.executed, rec, Goroutine(rs[i].task, pc))
    requires pc.Finished? ==>
      rs[i].pc.Committing? && rec' == rec.Commit(rs[i].task, rs[i].pc.inputs, rs[i].pc.result)
    ensures InRound(ready, before, rec', rs[i := Goroutine(rs[i].task, pc)])
    ensures RoundAnswered(env, round, ready, before, rec', rs[i := Goroutine(rs[i].task, pc)])
  {
    if pc.Finished? {
      assert GoroutineOk(before.executed, rec, rs[i]);
      RoundCommits(ready, before, rec, rs, i, rs[i].pc.inputs, rs[i].pc.result);
      CommitAnswered(env, round, ready, before, rec, rs, i);
    } else {
      RoundSteps(ready, before, rec, rs, i, Goroutine(rs[i].task, pc));
    }
  }

  lemma StepBalances(k: Books, k': Books, cost0: real, tokens0: int64, rs: seq<Goroutine>, i: nat, pc: Pc)
    requires Balanced(k, cost0, tokens0, rs) && i < |rs|
    requires if rs[i].pc.Executed? then ChargeStep(k, k', rs[i].pc, pc) else QuietStep(k, k', rs[i].pc, pc)
    ensures Balanced(k', cost0, tokens0, rs[i := Goroutine(rs[i].task, pc)])
  {
    if rs[i].pc.Executed? {
      ChargeBalances(k, k', cost0, tokens0, rs, i, pc);
    } else {
      QuietBalances(k, k', cost0, tokens0, rs, i, pc);
    }
  }

  lemma CommitAnswered(env: Environment, round: nat, ready: seq<Task>, before: Record, rec: Record,
                       rs: seq<Goroutine>, i: nat)
    requires RoundAnswered(env, round, ready, before, rec, rs) && |rs| == |ready| && i < |rs|
    requires rs[i].task == ready[i] && rs[i].pc.Committing?
    ensures RoundAnswered(env, round, ready, before, rec.Commit(ready[i], rs[i].pc.inputs, rs[i].pc.result),
                          rs[i := Goroutine(ready[i], Finished)])
  {
    var s := Step(|rec.traces|, ready[i], rs[i].pc.inputs, rs[i].pc.result);
    assert AnswersStep(env, round, ready, i, s);
  }

  lemma FailureExcused(env: Environment, round: nat, ready: seq<Task>, monitor: Monitor?, r: Goroutine, i: nat)
    requires i < |ready| && r.task == ready[i]
    requires Fails(r, monitor, env, round, i)
    ensures Excused(env, round, ready, monitor)
  {
    if r.pc.Spawned? || r.pc.Reading? {
      assert AgentFails(env, round, i, ready[i]);
    }
  }

  function Live(rs: seq<Goroutine>): set<nat> {
    set i: nat | i < |rs| && !Over(rs[i])
  }

  lemma RoundIsSound(run: Run, monitor: Monitor?, env: Environment, round: nat, ready: seq<Task>,
                     rs: seq<Goroutine>, cost0: real, tokens0: int64)
    requires run.Rec().Consistent() && run.errors == 0
    requires forall t :: t in ready ==> AllIn(t.dependsOn, run.executed)
    requires monitor != null ==> Balanced(run.BooksOf(monitor), cost0, tokens0, [])
    requires |rs| == |ready| && forall i :: 0 <= i < |rs| ==> rs[i] == Goroutine(ready[i], Spawned)
    ensures Sound(run, monitor, env, round, ready, run.Rec(), rs, cost0, tokens0)
  {
    RoundStarts(ready, run.Rec(), rs);
    NothingInFlight(rs);
  }

  lemma RoundIsOver(run: Run, monitor: Monitor?, env: Environment, round: nat, ready: seq<Task>,
                    before: Record, rs: seq<Goroutine>, cost0: real, tokens0: int64)
    requires Sound(run, monitor, env, round, ready, before, rs, cost0, tokens0)
    requires Live(rs) == {} && run.errors == 0
    ensures RoundRecorded(ready, before, run.Rec())
    ensures monitor != null ==> Balanced(run.BooksOf(monitor), cost0, tokens0, [])
  {
    NobodyLive(rs);
    RoundEnds(ready, before, run.Rec(), rs);
    if monitor != null {
      BooksClose(run.BooksOf(monitor), cost0, tokens0, rs);
    }
  }

  lemma NobodyLive(rs: seq<Goroutine>)
    requires Live(rs) == {}
    ensures forall i :: 0 <= i < |rs| ==> Over(rs[i])
  {
    forall i | 0 <= i < |rs|
      ensures Over(rs[i])
    {
      var n: nat := i;
      assert n !in Live(rs);
    }
  }

  lemma BooksClose(k: Books, cost0: real, tokens0: int64, rs: seq<Goroutine>)
    requires Balanced(k, cost0, tokens0, rs) && forall i :: 0 <= i < |rs| ==> Over(rs[i])
    ensures Balanced(k, cost0, tokens0, [])
  {
    NothingInFlight(rs);
  }

  /** Starts every ready task and waits for all of them, whatever the interleaving. */
  method RunRound(run: Run, ready: seq<Task>, monitor: Monitor?, env: Environment, round: nat,
                  ghost cost0: real, ghost tokens0: int64)
    requires run.Rec().Consistent() && run.errors == 0
    requires forall t :: t in ready ==> AllIn(t.dependsOn, run.executed)
    requires monitor != null ==> Balanced(run.BooksOf(monitor), cost0, tokens0, [])
    modifies run, monitor
    ensures run.Rec().Consistent()
    ensures run.errors == 0 ==> RoundRecorded(ready, old(run.Rec()), run.Rec())
    ensures run.errors == 0 && monitor != null ==> Balanced(run.BooksOf(monitor), cost0, tokens0, [])
    ensures forall k :: |old(run.traces)| <= k < |run.traces| ==> FromAgent(env, round, ready, run.traces[k])
    ensures run.errors > 0 ==> Excused(env, round, ready, monitor)
  {
    var rs := seq(|ready|, i requires 0 <= i < |ready| => Goroutine(ready[i], Spawned));
    ghost var before := run.Rec();
    RoundIsSound(run, monitor, env, round, ready, rs, cost0, tokens0);
    while Live(rs) != {}
      invariant Sound(run, monitor, env, round, ready, before, rs, cost0, tokens0)
      decreases Work(rs)
    {
      var i :| i in Live(rs);
      rs := StepOne(run, monitor, env, round, ready, before, rs, i, cost0, tokens0);
    }
    if run.errors == 0 {
      RoundIsOver(run, monitor, env, round, ready, before, rs, cost0, tokens0);
    }
  }

  // ---- the outer loop ----

  predicate IsReady(t: Task, executed: set<Id>) {
    t.id !in executed && AllIn(t.dependsOn, executed)
  }

  function ReadyTasks(tasks: seq<Task>, executed: set<Id>): seq<Task> {
    if tasks == [] then []
    else
      var last := tasks[|tasks| - 1];
      ReadyTasks(tasks[..|tasks| - 1], executed) + if IsReady(last, executed) then [last] else []
  }

  lemma {:induction false} ReadyTasksMembers(tasks: seq<Task>, executed: set<Id>)
    ensures forall t :: t in ReadyTasks(tasks, executed) <==> t in tasks && IsReady(t, executed)
    ensures UniqueIds(tasks) ==> UniqueIds(ReadyTasks(tasks, executed))
  {
    if tasks != [] {
      var front, last := tasks[..|tasks| - 1], tasks[|tasks| - 1];
      ReadyTasksMembers(front, executed);
      assert forall t :: t in tasks <==> t in front || t == last;
      if UniqueIds(tasks) {
        forall t | t in ReadyTasks(front, executed)
          ensures t.id != last.id
        {
          var i :| 0 <= i < |front| && front[i] == t;
        }
      }
    }
  }

  /** `part` lists the ready tasks among the first `n`, each at its position. */
  ghost predicate ListsReady(tasks: seq<Task>, executed: set<Id>, n: nat, part: seq<Task>, at: seq<nat>) {
    && |at| == |part|
    && (forall k :: 0 <= k < |at| ==>
          at[k] < n <= |tasks| && IsReady(tasks[at[k]], executed) && part[k] == tasks[at[k]])
    && (forall k, l :: 0 <= k < l < |at| ==> at[k] < at[l])
    && forall i: nat :: i < n <= |tasks| && IsReady(tasks[i], executed) ==> i in at
  }

  lemma ListsOneMore(tasks: seq<Task>, executed: set<Id>, n: nat, part: seq<Task>, at: seq<nat>)
    requires n < |tasks| && ListsReady(tasks, executed, n, part, at)
    ensures IsReady(tasks[n], executed) ==> ListsReady(tasks, executed, n + 1, part + [tasks[n]], at + [n])
    ensures !IsReady(tasks[n], executed) ==> ListsReady(tasks, executed, n + 1, part, at)
  {
    if IsReady(tasks[n], executed) {
      forall i: nat | i < n + 1 && IsReady(tasks[i], executed)
        ensures i in at + [n]
      {
        assert (at + [n])[|at|] == n;
      }
    }
  }

  /** They are listed in plan order. */
  lemma {:induction false} ReadyInPlanOrder(tasks: seq<Task>, executed: set<Id>, n: nat) returns (at: seq<nat>)
    requires n <= |tasks|
    ensures ListsReady(tasks, executed, n, ReadyTasks(tasks[..n], executed), at)
  {
    at := [];
    if n > 0 {
      at := ReadyInPlanOrder(tasks, executed, n - 1);
      ListsOneMore(tasks, executed, n - 1, ReadyTasks(tasks[..n - 1], executed), at);
      assert tasks[..n][..n - 1] == tasks[..n - 1];
      if IsReady(tasks[n - 1], executed) {
        at := at + [n - 1];
      } else {
        assert ReadyTasks(tasks[..n], executed) == ReadyTasks(tasks[..n - 1], executed);
      }
    }
  }

  method CollectReady(tasks: seq<Task>, executed: set<Id>) returns (ready: seq<Task>)
    ensures ready == ReadyTasks(tasks, executed)
  {
    ready := [];
    for i := 0 to |tasks|
      invariant ready == ReadyTasks(tasks[..i], executed)
    {
      var task := tasks[i];
      assert tasks[..i + 1][..i] == tasks[..i];
      if task.id in executed {
        continue;
      }
      var isReady := true;
      for j := 0 to |task.dependsOn|
        invariant isReady && AllIn(task.dependsOn[..j], executed)
      {
        if task.dependsOn[j] !in executed {
          isReady := false;
          break;
        }
      }
      if isReady {
        assert task.dependsOn[..|task.dependsOn|] == task.dependsOn;
        ready := ready + [task];
      }
    }
    assert tasks[..|tasks|] == tasks;
  }

  /** Between rounds: round `k` has run exactly the tasks of level `k`, each recorded once. */
  ghost predicate BetweenRounds(tasks: seq<Task>, rec: Record, waves: seq<seq<Task>>) {
    && rec.Consistent() && rec.executed <= Ids(tasks)
    && (UniqueIds(tasks) ==> RunsLevels(tasks, GraphOf(tasks), rec.executed, rec.traces, waves))
  }

  ghost predicate RunsLevels(tasks: seq<Task>, g: Graph, executed: set<Id>, traces: seq<Step>, waves: seq<seq<Task>>) {
    && executed == Peel(g, |waves|)
    && |traces| == |executed|
    && AllRecorded(tasks, executed, traces)
    && (forall k :: 0 <= k < |waves| ==> Ids(waves[k]) == Level(g, k))
  }

  ghost predicate AllRecorded(tasks: seq<Task>, executed: set<Id>, traces: seq<Step>) {
    forall t :: t in tasks && t.id in executed ==> Recorded(traces, t)
  }

  lemma ReadyIsNext(tasks: seq<Task>, g: Graph, k: nat, ready: seq<Task>)
    requires UniqueIds(tasks) && g == GraphOf(tasks) && ready == ReadyTasks(tasks, Peel(g, k))
    ensures Ids(ready) == Level(g, k)
    ensures Peel(g, k) + Ids(ready) == Peel(g, k + 1)
  {
    ReadyTasksMembers(tasks, Peel(g, k));
    GraphOfUnique(tasks);
    PeelGrows(g, k, k + 1);
    forall v
      ensures v in Ids(ready) <==> v in Level(g, k)
    {
      if v in Level(g, k) {
        var i :| 0 <= i < |tasks| && tasks[i].id == v;
        assert tasks[i] in ready;
      }
      if v in Ids(ready) {
        var t :| t in ready && t.id == v;
        var i :| 0 <= i < |tasks| && tasks[i] == t;
      }
    }
  }

  lemma RoundAdvances(tasks: seq<Task>, before: Record, rec: Record, waves: seq<seq<Task>>, ready: seq<Task>)
    requires before.executed <= Ids(tasks)
    requires UniqueIds(tasks) ==> RunsLevels(tasks, GraphOf(tasks), before.executed, before.traces, waves)
    requires ready == ReadyTasks(tasks, before.executed) && RoundRecorded(ready, before, rec)
    ensures rec.executed <= Ids(tasks)
    ensures UniqueIds(tasks) ==> RunsLevels(tasks, GraphOf(tasks), rec.executed, rec.traces, waves + [ready])
  {
    ReadyTasksMembers(tasks, before.executed);
    assert Ids(ready) <= Ids(tasks) by {
      assert forall t :: t in ready ==> t in tasks;
    }
    if UniqueIds(tasks) {
      LevelsAdvance(tasks, GraphOf(tasks), before, rec, waves, ready);
    }
  }

  lemma LevelsAdvance(tasks: seq<Task>, g: Graph, before: Record, rec: Record, waves: seq<seq<Task>>, ready: seq<Task>)
    requires UniqueIds(tasks) && g == GraphOf(tasks)
    requires RunsLevels(tasks, g, before.executed, before.traces, waves) && ready == ReadyTasks(tasks, before.executed)
    requires RoundRecorded(ready, before, rec)
    ensures RunsLevels(tasks, g, rec.executed, rec.traces, waves + [ready])
  {
    ReadyIsNext(tasks, g, |waves|, ready);
    ReadyTasksMembers(tasks, before.executed);
    RecordedGrows(tasks, before, rec, ready);
    assert NewAndDistinct(ready, before.executed);
    WavesAdvance(g, waves, ready);
  }

  lemma WavesAdvance(g: Graph, waves: seq<seq<Task>>, ready: seq<Task>)
    requires (forall k :: 0 <= k < |waves| ==> Ids(waves[k]) == Level(g, k)) && Ids(ready) == Level(g, |waves|)
    ensures forall k :: 0 <= k < |waves + [ready]| ==> Ids((waves + [ready])[k]) == Level(g, k)
  {
  }

  lemma RecordedGrows(tasks: seq<Task>, before: Record, rec: Record, ready: seq<Task>)
    requires UniqueIds(tasks) && forall t :: t in ready ==> t in tasks
    requires AllRecorded(tasks, before.executed, before.traces)
    requires RoundRecorded(ready, before, rec)
    ensures AllRecorded(tasks, rec.executed, rec.traces)
  {
    forall t | t in tasks && t.id in rec.executed
      ensures Recorded(rec.traces, t)
    {
      if t.id in before.executed {
        var k :| 0 <= k < |before.traces| && before.traces[k].task == t;
        assert rec.traces[k].task == t;
      } else {
        var u :| u in ready && u.id == t.id;
        SameTask(tasks, t, u);
      }
    }
  }

  lemma SameTask(tasks: seq<Task>, t: Task, u: Task)
    requires UniqueIds(tasks) && t in tasks && u in tasks && t.id == u.id
    ensures t == u
  {
    var i :| 0 <= i < |tasks| && tasks[i] == t;
    var j :| 0 <= j < |tasks| && tasks[j] == u;
  }

  lemma StuckIsUnschedulable(tasks: seq<Task>, g: Graph, k: nat)
    requires UniqueIds(tasks) && g == GraphOf(tasks)
    requires ReadyTasks(tasks, Peel(g, k)) == [] && |Peel(g, k)| < |tasks|
    ensures !Schedulable(g)
  {
    ReadyIsNext(tasks, g, k, []);
    UniqueIffCount(tasks);
    assert g.Keys == Ids(tasks);
    ExhaustedIsUnschedulable(g, k);
  }

  lemma ExhaustedIsUnschedulable(g: Graph, k: nat)
    requires Level(g, k) == {} && |Peel(g, k)| < |g.Keys|
    ensures !Schedulable(g)
  {
    ExhaustedIsResolved(g, k);
    AllResolvedIffSchedulable(g);
  }

  lemma PeeledIsSchedulable(g: Graph, k: nat)
    requires Peel(g, k) == g.Keys
    ensures Schedulable(g)
  {
    PeelInResolved(g, k);
    PeelGrows(g, 0, |g|);
    AllResolvedIffSchedulable(g);
  }

  lemma CompleteIsSchedulable(tasks: seq<Task>, g: Graph, executed: set<Id>, traces: seq<Step>, waves: seq<seq<Task>>)
    requires g == GraphOf(tasks) && executed <= Ids(tasks) && |executed| >= |tasks|
    requires UniqueIds(tasks) ==> RunsLevels(tasks, g, executed, traces, waves)
    ensures UniqueIds(tasks) && Schedulable(g) && Peel(g, |waves|) == Ids(tasks)
    ensures |traces| == |tasks| && forall t :: t in tasks ==> Recorded(traces, t)
  {
    UniqueIffCount(tasks);
    SubsetSize(executed, Ids(tasks));
    assert g.Keys == Ids(tasks);
    PeeledIsSchedulable(g, |waves|);
  }

  datatype Outcome = AllExecuted | OutOfTime | Stuck | RoundFailed

  /** What an error-free run guarantees, whatever the interleaving of its rounds. */
  ghost predicate CompleteRun(tasks: seq<Task>, results: seq<AgentResult>, traces: seq<Step>, waves: seq<seq<Task>>) {
    && |results| == |traces| == |tasks|
    && (forall i :: 0 <= i < |traces| ==> StepOk(traces, i) && traces[i].result == results[i])
    && (forall t :: t in tasks ==> Recorded(traces, t))
    && (forall k :: 0 <= k < |waves| ==> Ids(waves[k]) == Level(GraphOf(tasks), k))
    && Peel(GraphOf(tasks), |waves|) == Ids(tasks)
  }

  lemma RunIsComplete(tasks: seq<Task>, rec: Record, waves: seq<seq<Task>>)
    requires BetweenRounds(tasks, rec, waves) && |rec.executed| >= |tasks|
    ensures UniqueIds(tasks) && Schedulable(GraphOf(tasks))
    ensures CompleteRun(tasks, rec.results, rec.traces, waves)
    ensures tasks != [] ==> rec.results != []
  {
    CompleteIsSchedulable(tasks, GraphOf(tasks), rec.executed, rec.traces, waves);
  }

  /** In plain terms: every task of the plan has run once; the steps are numbered in the order they were
      recorded, and the results listed in that order; and each step was given, for each dependency in its
      order, the result that an earlier step recorded for it. */
  lemma CompleteRunMeans(tasks: seq<Task>, results: seq<AgentResult>, traces: seq<Step>, waves: seq<seq<Task>>,
                         i: nat)
    requires UniqueIds(tasks) && CompleteRun(tasks, results, traces, waves) && i < |traces|
    ensures |results| == |traces| && results[i] == traces[i].result && traces[i].stepIndex == i
    ensures |traces[i].inputs| == |traces[i].task.dependsOn|
    ensures forall j: nat :: j < |traces[i].inputs| ==> GivenBefore(traces, i, j)
    ensures multiset(TasksOf(traces)) == multiset(tasks)
  {
    assert StepOk(traces, i);
    forall j: nat | j < |traces[i].inputs|
      ensures GivenBefore(traces, i, j)
    {
      assert Provided(traces[..i], traces[i].task.dependsOn[j], traces[i].inputs[j]);
      var k :| 0 <= k < i && traces[..i][k].task.id == traces[i].task.dependsOn[j]
            && traces[..i][k].result == traces[i].inputs[j];
      assert traces[k] == traces[..i][k];
    }
    forall t | t in tasks
      ensures t in TasksOf(traces)
    {
      assert Recorded(traces, t);
      var k :| 0 <= k < |traces| && traces[k].task == t;
      assert TasksOf(traces)[k] == t;
    }
    SameLengthSameTasks(tasks, TasksOf(traces));
  }

  /** Each recorded result is the answer of an agent that was found for the task at its place in some wave and
      was handed the task and exactly the inputs that the step records. */
  lemma ResultIsAnswer(env: Environment, waves: seq<seq<Task>>, traces: seq<Step>, i: nat) returns (k: nat, j: nat)
    requires AllFromAgents(env, waves, traces) && i < |traces|
    ensures k < |waves| && j < |waves[k]| && waves[k][j] == traces[i].task && env.agentFound(k, j)
    ensures env.answer(k, j, traces[i].task, traces[i].inputs) == Some(traces[i].result)
  {
    assert InSomeWave(env, waves, traces[i]);
    k :| k < |waves| && FromAgent(env, k, waves[k], traces[i]);
    j :| j < |waves[k]| && AnswersStep(env, k, waves[k], j, traces[i]);
  }

  /** An earlier step recorded the `j`-th input of step `i` for the task's `j`-th dependency. */
  ghost predicate GivenBefore(traces: seq<Step>, i: nat, j: nat)
    requires i < |traces| && j < |traces[i].inputs| == |traces[i].task.dependsOn|
  {
    exists k :: 0 <= k < i
      && traces[k].task.id == traces[i].task.dependsOn[j] && traces[k].result == traces[i].inputs[j]
  }

  function TasksOf(traces: seq<Step>): seq<Task> {
    seq(|traces|, i requires 0 <= i < |traces| => traces[i].task)
  }

  lemma {:induction false} OnceEach(tasks: seq<Task>, t: Task)
    requires UniqueIds(tasks)
    ensures multiset(tasks)[t] <= 1
  {
    if tasks != [] {
      var front, last := tasks[..|tasks| - 1], tasks[|tasks| - 1];
      assert tasks == front + [last];
      OnceEach(front, t);
      if t == last {
        assert last !in front;
      }
    }
  }

  /** As many entries as there are distinct tasks, among them all of these, are these once each. */
  lemma SameLengthSameTasks(tasks: seq<Task>, ran: seq<Task>)
    requires UniqueIds(tasks) && |ran| == |tasks| && forall t :: t in tasks ==> t in ran
    ensures multiset(ran) == multiset(tasks)
  {
    var a, b := multiset(tasks), multiset(ran);
    forall t
      ensures a[t] <= b[t]
    {
      OnceEach(tasks, t);
      if t in a {
        assert t in tasks && t in ran && t in b;
      }
    }
    assert b == a + (b - a);
    assert |b - a| == 0;
  }

  /** Usage grew by exactly the cost and tokens of the results. */
  ghost predicate Accounted(cost: real, tokens: int64, cost0: real, tokens0: int64, results: seq<AgentResult>) {
    cost == cost0 + SumCost(results) && tokens == Wrap64(tokens0 + SumTokens(results))
  }

  lemma FinalBooks(k: Books, cost0: real, tokens0: int64)
    requires Balanced(k, cost0, tokens0, []) && k.errors == 0
    ensures Accounted(k.cost, k.tokens, cost0, tokens0, k.results)
    ensures k.results != [] ==> k.within
  {
  }

  /** The clock of some round was past the time limit. */
  ghost predicate RanLate(env: Environment, monitor: Monitor?) {
    monitor != null && exists round: nat :: monitor.Late(env.roundClock(round))
  }

  /** A failed round is down to an agent of one of the plan's tasks, or to a limit. */
  ghost predicate SomeAgentFails(env: Environment, tasks: seq<Task>, monitor: Monitor?) {
    || (monitor != null && !monitor.Unlimited())
    || exists round: nat, i: nat, t :: t in tasks && AgentFails(env, round, i, t)
  }

  lemma ExcusedByPlan(env: Environment, round: nat, ready: seq<Task>, tasks: seq<Task>, monitor: Monitor?)
    requires Excused(env, round, ready, monitor) && forall t :: t in ready ==> t in tasks
    ensures SomeAgentFails(env, tasks, monitor)
  {
    if !(monitor != null && !monitor.Unlimited()) {
      var i: nat :| i < |ready| && AgentFails(env, round, i, ready[i]);
      assert ready[i] in tasks;
    }
  }

  /** One iteration of the outer loop, up to the point where it returns or loops again. */
  method NextRound(run: Run, tasks: seq<Task>, monitor: Monitor?, env: Environment, round: nat,
                   ghost waves: seq<seq<Task>>, ghost cost0: real, ghost tokens0: int64)
    returns (stop: Option<Outcome>, ghost waves': seq<seq<Task>>)
    requires BetweenRounds(tasks, run.Rec(), waves) && run.errors == 0 && |run.executed| < |tasks|
    requires round == |waves| && AllFromAgents(env, waves, run.traces)
    requires monitor != null ==> Balanced(run.BooksOf(monitor), cost0, tokens0, [])
    modifies run, monitor
    ensures stop != Some(AllExecuted)
    ensures stop == Some(OutOfTime) <==> monitor != null && monitor.Late(env.roundClock(round))
    ensures stop == Some(RoundFailed) ==> SomeAgentFails(env, tasks, monitor)
    ensures stop == Some(Stuck) ==> !(UniqueIds(tasks) && Schedulable(GraphOf(tasks)))
    ensures stop.None? ==>
      && BetweenRounds(tasks, run.Rec(), waves') && run.errors == 0 && old(run.executed) < run.executed
      && |waves'| == round + 1 && AllFromAgents(env, waves', run.traces)
      && (monitor != null ==> Balanced(run.BooksOf(monitor), cost0, tokens0, []))
  {
    waves' := waves;
    if monitor != null {
      var late := monitor.CheckTime(env.roundClock(round));
      if late.Some? {
        return Some(OutOfTime), waves;
      }
    }
    var ready := CollectReady(tasks, run.executed);
    if |ready| == 0 {
      if UniqueIds(tasks) {
        StuckIsUnschedulable(tasks, GraphOf(tasks), |waves|);
      }
      return Some(Stuck), waves;
    }
    ReadyTasksMembers(tasks, run.executed);
    ghost var before := run.Rec();
    RunRound(run, ready, monitor, env, round, cost0, tokens0);
    if run.errors > 0 {
      ExcusedByPlan(env, round, ready, tasks, monitor);
      return Some(RoundFailed), waves;
    }
    RoundAdvances(tasks, before, run.Rec(), waves, ready);
    AgentsAdvance(env, waves, ready, before, run.Rec());
    assert ready[0] in ready;
    return None, waves + [ready];
  }

  /** The outer loop: rounds until every task has run, or until one of them stops the run. */
  method RunRounds(run: Run, tasks: seq<Task>, monitor: Monitor?, env: Environment, ghost cost0: real,
                   ghost tokens0: int64)
    returns (outcome: Outcome, ghost waves: seq<seq<Task>>)
    requires BetweenRounds(tasks, run.Rec(), []) && run.errors == 0 && run.traces == []
    requires monitor != null ==> Balanced(run.BooksOf(monitor), cost0, tokens0, [])
    modifies run, monitor
    ensures outcome.Stuck? ==> !(UniqueIds(tasks) && Schedulable(GraphOf(tasks)))
    ensures outcome.OutOfTime? ==> RanLate(env, monitor)
    ensures outcome.RoundFailed? ==> SomeAgentFails(env, tasks, monitor)
    ensures outcome.AllExecuted? ==>
      && BetweenRounds(tasks, run.Rec(), waves) && run.errors == 0 && |run.executed| >= |tasks|
      && AllFromAgents(env, waves, run.traces)
      && (monitor != null ==> Balanced(run.BooksOf(monitor), cost0, tokens0, []))
  {
    waves := [];
    var round := 0;
    while |run.executed| < |tasks|
      invariant BetweenRounds(tasks, run.Rec(), waves) && run.errors == 0
      invariant round == |waves| && AllFromAgents(env, waves, run.traces)
      invariant monitor != null ==> Balanced(run.BooksOf(monitor), cost0, tokens0, [])
      decreases Ids(tasks) - run.executed
    {
      var stop;
      stop, waves := NextRound(run, tasks, monitor, env, round, waves, cost0, tokens0);
      if stop.Some? {
        return stop.value, waves;
      }
      round := round + 1;
    }
    return AllExecuted, waves;
  }

  method ExecuteTasks(tasks: seq<Task>, monitor: Monitor?, env: Environment)
    returns (outcome: Outcome, results: seq<AgentResult>, traces: seq<Step>, ghost waves: seq<seq<Task>>)
    modifies monitor
    ensures outcome.AllExecuted? ==> UniqueIds(tasks) && Schedulable(GraphOf(tasks))
    ensures outcome.Stuck? ==> !(UniqueIds(tasks) && Schedulable(GraphOf(tasks)))
    ensures NothingFails(env, monitor) ==>
      if UniqueIds(tasks) && Schedulable(GraphOf(tasks)) then outcome.AllExecuted? else outcome.Stuck?
    ensures outcome.OutOfTime? ==> RanLate(env, monitor)
    ensures outcome.RoundFailed? ==> SomeAgentFails(env, tasks, monitor)
    ensures outcome.AllExecuted? ==> CompleteRun(tasks, results, traces, waves) && AllFromAgents(env, waves, traces)
    ensures outcome.AllExecuted? && monitor != null ==>
      && Accounted(monitor.costUsed, monitor.tokensUsed, old(monitor.costUsed), old(monitor.tokensUsed), results)
      && (tasks != [] ==> monitor.WithinLimits())
    ensures !outcome.AllExecuted? ==> results == [] && traces == []
  {
    var run := new Run();
    ghost var cost0 := if monitor != null then monitor.costUsed else 0.0;
    ghost var tokens0 := if monitor != null then monitor.tokensUsed else 0;
    outcome, waves := RunRounds(run, tasks, monitor, env, cost0, tokens0);
    if !outcome.AllExecuted? {
      return outcome, [], [], waves;
    }
    RunIsComplete(tasks, run.Rec(), waves);
    if monitor != null {
      FinalBooks(run.BooksOf(monitor), cost0, tokens0);
    }
    return outcome, run.results, run.traces, waves;
  }
}
