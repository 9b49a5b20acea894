# Verified model of the newser planning, execution and worker core

A newser plan is a list of tasks with `depends_on` lists. Four separate pieces of code decide whether
and in which order such a plan can run; a worker turns run events into dispatched tasks through durable
checkpoints; plans arrive as JSON inside free text. This project models those pieces in Dafny and proves
what they promise. `dafny verify dfyconfig.toml` checks all of it.

**One definition of order (`Dag`, `Tasks`, `Indegree`).** A plan denotes a map from ids to the ids they
depend on. Paths, cycles, longest chains and the sets of tasks that are ready after `n` rounds are defined
once, and every scheduler is measured against them. Go map iteration is a nondeterministic choice
everywhere. Nothing is assumed about a plan that the code does not demand: duplicate ids, unknown
dependencies, self-dependencies and repeated dependencies are all inputs.

**The four schedulers.** `PlanSchema` and `PlanDocument` hold the layered sort and the document validator,
`PlanCheck` the colour-marking search, `Executor` the queue with its retry loop, and `Orchestrator` the
wave scheduler, whose goroutines are interleaved step by step under a mutex while they charge a shared
budget monitor (`Budget`). `Agreement` runs all four on one plan and says when each accepts it. `PlanRewrite`
covers the edges the planner adds after validating a plan.

**The worker (`CheckpointStore`, `Payloads`, `WorkerProtocol`, `Recovery`, `Gates`, `Dispatches`, `Answering`,
`Processor`).** `WorkerProtocol`
is a step relation over durable tables, the stream, the publication log and any number of workers; a crash
resets a worker, a message may be delivered again, and every remote call may succeed, fail before taking
effect, or take effect and still report an error. Its theorems hold for all finite runs; `Recovery` says what
the checkpoint table holds after one and what can be resumed from it, and `Gates` which budget gates stand
behind its publications. `Dispatches` says field by field what the documents and rows of the protocol hold. `Processor`
holds the imperative code: given what its calls answer, every path is a run of that relation, and what it
sends, counts, writes and returns is exactly what `Answering` says of those answers.

**JSON in free text (`JsonText`, `JsonScan`, `JsonMatch`, `JsonExtract`, `BraceBalance`).** A grammar and printer
for JSON values in every spelling of RFC 8259 (whitespace per section 2, escapes per section 7), the bracket
scanner, and an independent account of what "the brackets outside strings match" means.

**Smaller cores.** `Snapshot`, `Templates` and `Promotion` (stage fingerprints and template promotion),
`Rebuild` (paging through episodes), `Delta` (two-pass de-duplication) and `CanonicalUrl`. `Text` and
`Wrappers` hold what several of them share.

Properties one might expect that the code does not have, each with a concrete input or an exact condition
below:

- The planner's added edges break some plans it has just accepted (`PlanRewrite.AcceptedThenBroken`); the
  exact condition is in `PlanRewrite.RewritingKeepsSchedulable`.
- The planner's brace scan counts braces inside strings. It finds an object exactly when those balance and
  never outweigh the braces around them (`JsonExtract.BraceScanAgrees`, and told from the value
  `BraceBalance.ScanAgreesIffFits`), so it is cut short in `JsonExtract.BraceScanStopsEarly`.
- The rebuild loop never ends if some episode is not newer than the epoch, and otherwise passes over episodes
  exactly when a multiple of the page size falls between two created at the same instant
  (`Rebuild.RebuildSemanticEmbeddings`, `Rebuild.TieOnBoundary`).
- No stage is ever promoted on the schema as it is. The planner creates templates as "system"
  (internal/agent/core/planner_templates.go:77), which internal/store/store.go:302-308 inserts into a
  column of user ids (migrations/0018_procedural_templates.up.sql:7), so every insert fails
  (`Promotion.NeverPromotedOnSchema`). What follows is conditional on a creator the schema accepts.
- "A template from the third sighting on" then holds for stages whose name no other stage of the topic has
  taken: names are unique per topic (migrations/0018_procedural_templates.up.sql:12). Of several stages of
  one name only the first to be seen three times is ever linked (`Promotion.LawOfPromotion`), and if
  inserting its first version fails, none is (`Promotion.OrphansStay`).
- Snapshots list dependencies inside the stage, but stages are layers, so there are none
  (`Snapshot.SnapshotsHaveNoDependencies`).
- `http://:80` has a canonical form that is itself refused (`CanonicalUrl.HostVanishes`).
- A first dispatch whose publication fails leaves a completed checkpoint, so it is not resumed
  (`Recovery.FailedDispatchIsNotResumed`). Exactly the rows last written by a dispatched save are
  (`Recovery.DispatchedIffLastWrite`).
- A resume can publish on the strength of an earlier gate although the topic's configuration demands approval.
  When the run's first checkpoint cannot be read, the topic is taken from the stored context
  (internal/worker/processor.go:455-475); if that names none, the gate passes without reading anything
  (internal/worker/processor.go:145). `Gates.ApprovalBypassed` is such a run, `Gates.AlwaysReadIff` and
  `Gates.PublishesDespiteDemandIff` give the exact condition, and outside it `Gates.EachPublicationHasItsRead`
  holds.
- Some plans with repeated ids pass the planner's validation, while the layered sort and the wave scheduler
  refuse them (`Agreement.TwinsPass`, `Agreement.Decide`); of the validated plans those two accept exactly
  the ones with unique ids (`Agreement.AcceptedPlansSchedule`). Only a direct call of `ValidatePlan` can meet
  such a plan: `Plan` has normalised its plan before (internal/agent/core/planner.go:733), which refuses
  repeated ids.

## Model

| member | source | states |
|---|---|---|
| `Dag.PeelIsLongestChain` | internal/planner/schema.go:459-477 | Running everything that is ready, round after round, runs a task within `n` rounds exactly when every dependency chain from it stays inside the plan and has at most `n` tasks. |
| `Dag.ResolvedIffNotBlocked` | internal/planner/schema.go:479-490 | A task can ever run exactly when no unknown id and no cycle is reachable from it. |
| `Dag.AllResolvedIffSchedulable` | internal/planner/schema.go:479-492 | All tasks can run exactly when every dependency is known and the relation has no cycle. |
| `Dag.GreedyRunsResolved` | internal/executor/executor.go:106-168 | Whatever order ready tasks are run in, a run that stops with nothing ready has run exactly the tasks that can ever run. |
| `Dag.TopologicalImpliesSchedulable` | internal/planner/schema.go:373-426 | A permutation of the tasks with every dependency earlier proves the graph acyclic with known dependencies. |
| `Indegree.AddDependencies` | internal/planner/schema.go:439-444 | After recording a task, the counters count and the successor lists invert, with multiplicity, the graph enlarged by its dependencies. |
| `Indegree.Release` | internal/planner/schema.go:465-470 | Finishing a task releases exactly the tasks whose last unmet dependency it was, each once. |
| `Indegree.InitialQueue` | internal/planner/schema.go:446-451 | The initial queue lists exactly the tasks with a zero counter, once each, in whatever order the map yields them. |
| `PlanSchema.ComputeExecutionHints` | internal/planner/schema.go:428-493 | For any task list: succeeds exactly when ids are unique and the graph is schedulable; then the layers are the longest-chain levels ordered by position and the order concatenates them; otherwise the stuck tasks are exactly those that reach an unknown id or a cycle. |
| `PlanSchema.RunLayers` | internal/planner/schema.go:459-477 | When the queue runs dry, the layers are exactly the levels of the graph and the counters those of the tasks left over, for every iteration order. |
| `PlanSchema.LayerIsLongestChain` | internal/planner/schema.go:459-477 | A task stands in layer `k` exactly when it has a dependency chain of `k + 1` tasks and none longer. |
| `PlanSchema.HintsTopological` | internal/planner/schema.go:428-493 | The computed order is a permutation of the tasks with every dependency earlier. |
| `PlanSchema.HintsUnique` | internal/planner/schema.go:446-476 | Order and layers are determined by the task list, whatever the map iteration order. |
| `PlanDocument.ValidateExecutionOrder` | internal/planner/schema.go:373-426 | Reports no error exactly when ids are unique and the order is a topological permutation of the tasks; every error it reports is a defect the order has. |
| `PlanDocument.ScheduleAll` | internal/planner/schema.go:374-394 | The walk over the order reports nothing exactly when every position holds a known, unrepeated task after its dependencies, and otherwise only what is wrong at some position. |
| `PlanDocument.CheckDependencies` | internal/planner/schema.go:288-305 | A task's dependencies raise no error exactly when none is itself, unknown or repeated, and each error names one that is. |
| `PlanDocument.ValidatePlanStructure` | internal/planner/schema.go:269-371 | Reports no error exactly when the document is structurally valid: some task, unique ids, sound dependencies and durations, known non-loop edges, and an order, if given, that is topological. Every error it reports is a defect of the document. |
| `PlanDocument.ValidIffNoDefect` | internal/planner/schema.go:269-371 | A document is structurally valid exactly when it has none of the defects that the errors name, each spelled out on the listed tasks, edges and order. |
| `PlanDocument.NormalizePlanDocument` | internal/planner/schema.go:154-201 | Succeeds exactly on structurally valid acyclic documents; the result differs only in the default version and the recomputed hints; an invalid document is reported with defects it has, a cyclic one with exactly the stuck tasks. |
| `PlanDocument.NormalizedMeans` | internal/planner/schema.go:176-194 | Tasks and edges stay, the version is "v1" unless one was given, the order runs every task after its dependencies, and the stages, one after another, are that order. |
| `PlanDocument.StageMeans` | internal/planner/schema.go:181-194 | Stage `k` holds exactly the tasks whose longest dependency chain has `k + 1` tasks, by position in the plan; its name and its checkpoint token are "stage-" and the number `k + 1` in at least two digits. |
| `PlanDocument.StageNamesDiffer` | internal/planner/schema.go:187-191 | No two stages share a name. |
| `PlanDocument.NormalisedIsFixedPoint` | internal/planner/schema.go:176-194 | A normalised document validates again, and normalising it returns it unchanged and nothing else. |
| `PlanCheck.CycleFinder.HasCycle` | internal/agent/core/planner.go:944-964 | One call of the closure, under the white/grey/black invariant: a cycle is only reported if there is one; otherwise the task and all it reaches end black, the stack is as before, and no black task is lost. |
| `PlanCheck.CheckCircularDependencies` | internal/agent/core/planner.go:933-975 | Terminates and reports an error exactly when the dependency relation has a cycle. |
| `PlanCheck.CheckMissingDependencies` | internal/agent/core/planner.go:978-993 | Reports an error exactly when some dependency is no task id, and then names the first such pair in listing order. |
| `PlanCheck.LastDepsMeans` | internal/agent/core/planner.go:933-942 | Of several tasks of one id the cycle search knows the dependencies of the last. |
| `PlanCheck.ValidatePlan` | internal/agent/core/planner.go:796-839 | Accepts exactly the plans with tasks, no cycle, no missing dependency, valid types, a synthesis task and a knowledge-graph task; each error says that every earlier check passes and this one fails, and names the first missing dependency or invalid type. |
| `PlanCheck.OkPlanIsSchedulable` | internal/agent/core/planner.go:796-839 | With unique ids, passing the cycle and the missing-dependency checks is the same as being schedulable. |
| `PlanCheck.BackEdgeIsCycle` | internal/agent/core/planner.go:945-960 | Meeting a task that is on the recursion stack exhibits a cycle. |
| `Executor.RunTask` | internal/executor/executor.go:118-156 | What the retry loop comes to is settled by what its calls return: a success exactly when some permitted attempt succeeds with every save up to it, exhaustion exactly when every permitted attempt fails and is recorded, and a checkpoint error names the attempt whose save failed; the log of each is given, and each of its events follows from the one before and from the call behind it. |
| `Executor.BuildGraph` | internal/executor/executor.go:76-91 | Rejects exactly graphs with an unknown dependency; otherwise counters and successor lists describe the graph. |
| `Executor.Execute` | internal/executor/executor.go:75-171 | For every iteration order and every answer of the tasks and saves: the trace is one of those described, and each event in it follows from the ones before and from the call behind it; an unknown dependency is reported exactly when there is one; the run completes exactly when the graph is schedulable and every task can be depended on within its retries; a cycle is reported exactly when, with the same tasks, there is one; any other end names a failing call. |
| `Executor.RunQueue` | internal/executor/executor.go:106-170 | The main loop keeps the queue equal to the tasks that may start, ends in one of the described traces, and its outcome is settled by the graph and by what the calls return. |
| `Executor.DependableMeans` | internal/executor/executor.go:118-156 | A task can be depended on exactly when one of its attempts 0 to max(0, MaxRetries) succeeds, those before it fail and every save on the way succeeds; with no retries, exactly when attempt 0 and its two saves succeed. |
| `Executor.OrderIsSuccesses` | internal/executor/executor.go:158-171 | The order a completed run returns lists the tasks as they succeeded, each after its dependencies. |
| `Executor.AttemptsBounded` | internal/executor/executor.go:118-152 | No task is started more than max(0, MaxRetries) + 1 times, none succeeds twice, and exactly those that the run got through succeed. |
| `Executor.DependenciesFirst` | internal/executor/executor.go:106-163 | Every event of a task comes after a success of each of its dependencies. |
| `Executor.NothingAfterExhaustion` | internal/executor/executor.go:142-151 | A failed run ends with the failure of attempt max(0, MaxRetries) of the failing task, which was started exactly max(0, MaxRetries) + 1 times; nothing follows. |
| `Executor.CycleReportedLast` | internal/executor/executor.go:166-168 | When a cycle is reported, exactly the tasks not downstream of one have succeeded once, and the others were never started. |
| `Budget.Monitor.Add` | internal/budget/monitor.go:27-47 | Adds cost and tokens even when a limit is breached, reports no error exactly when both limits still hold, cost first; tokens wrap as 64-bit integers. |
| `Budget.Monitor.CheckTime` | internal/budget/monitor.go:50-66 | Reports an error exactly when a positive limit is set and the elapsed time exceeds it, the limit in nanoseconds wrapping at 64 bits. |
| `Budget.WrapOfSum` | internal/budget/monitor.go:27-34 | Wrapping at each addition gives the wrapped sum of all additions. |
| `Orchestrator.Run.ReadInput` | internal/agent/core/orchestrator.go:413-422 | A dependency of a started task always has a recorded result, and that is what is read. |
| `Orchestrator.Run.Charge` | internal/agent/core/orchestrator.go:439-454 | A result is charged to the monitor; a breach turns into exactly one reported error. |
| `Orchestrator.Run.Commit` | internal/agent/core/orchestrator.go:502-521 | The critical section appends one result and one step and marks the task executed. |
| `Orchestrator.CommitConsistent` | internal/agent/core/orchestrator.go:502-521 | Any commit of a task with all its inputs keeps the record consistent: step indices number the steps, results match steps, inputs are results of the dependencies. |
| `Orchestrator.Run.Advance` | internal/agent/core/orchestrator.go:368-524 | One atomic step of a goroutine keeps the record consistent, makes progress, hands on exactly what its agent answered for the task and its inputs, records only when it finishes, fails exactly for a missing agent, a missing answer, a breached limit or lateness, and moves charges only from in flight to recorded or lost. |
| `Orchestrator.StepOne` | internal/agent/core/orchestrator.go:366-525 | Any step of any goroutine keeps the invariant of the round, so every interleaving does. |
| `Orchestrator.ChargeBalances` | internal/agent/core/orchestrator.go:439-440 | At every moment usage equals what was recorded, what is in flight and what failed goroutines charged: kept by a charge. |
| `Orchestrator.QuietBalances` | internal/agent/core/orchestrator.go:441-521 | The same balance is kept by every other step. |
| `Orchestrator.RoundCommits` | internal/agent/core/orchestrator.go:502-521 | Recording a result in any interleaving keeps the round's invariant, and no task is recorded twice. |
| `Orchestrator.RunRound` | internal/agent/core/orchestrator.go:363-534 | After an error-free round every ready task, and nothing else, has been recorded, each with the answer of its own agent, and the books balance; an error means that an agent of the round failed or that the monitor sets a limit. |
| `Orchestrator.CollectReady` | internal/agent/core/orchestrator.go:342-357 | Collects exactly the unexecuted tasks whose dependencies have all been executed, in plan order. |
| `Orchestrator.ReadyIsNext` | internal/agent/core/orchestrator.go:342-357 | After `k` error-free rounds the ready tasks are exactly those whose longest chain puts them in level `k`. |
| `Orchestrator.NextRound` | internal/agent/core/orchestrator.go:335-361 | A round that does not end the run enlarges the executed set and records only what its agents answered; an empty ready set means the plan cannot be scheduled; it fails only if an agent does or a limit is set, and is out of time exactly when the monitor finds it late. |
| `Orchestrator.RunIsComplete` | internal/agent/core/orchestrator.go:335-537 | When the outer loop ends, ids were unique, the graph schedulable, wave `k` ran level `k`, and every task is recorded once with its inputs. |
| `Orchestrator.ExecuteTasks` | internal/agent/core/orchestrator.go:326-538 | Terminates; when no agent fails and nothing is limited, every task is executed exactly on schedulable plans with unique ids, and every other plan gets stuck; in general success implies a schedulable plan, complete waves, results that are the answers of the agents, usage grown by exactly the summed cost and tokens, and limits kept (tokens modulo 64-bit wrap); getting stuck implies the plan cannot be scheduled; running out of time that some check found it late; a failed round that one of its agents failed or a limit was set; no failure returns results. |
| `Orchestrator.ResultIsAnswer` | internal/agent/core/orchestrator.go:425-521 | Each recorded result is what the agent found for its task, at its place in some wave, answered when handed the task and exactly the recorded inputs. |
| `Orchestrator.CompleteRunMeans` | internal/agent/core/orchestrator.go:502-537 | After a successful run every task has run once, steps are numbered and results listed as recorded, and each input is the result that an earlier step recorded for the dependency at its place. |
| `Orchestrator.ReadyInPlanOrder` | internal/agent/core/orchestrator.go:342-357 | The tasks of a wave are the ready ones at increasing positions of the plan. |
| `Agreement.Decide` | internal/planner/schema.go:428-493 | On plans with unique ids the layered sort and the cycle search with the missing-dependency check accept exactly the schedulable ones, the executor those of them all of whose tasks succeed within their retries, and the wave scheduler never others; with no failing task, checkpoint or agent and no budget all four agree. With repeated ids the layered sort and the wave scheduler refuse. |
| `Agreement.AcceptedPlansSchedule` | internal/agent/core/planner.go:796-839 | Of the plans that pass the planner's validation, the layered sort and the wave scheduler accept exactly those with unique ids. |
| `Agreement.TwinsPass` | internal/agent/core/planner.go:796-839 | Two tasks of one id pass the planner's validation. |
| `PlanRewrite.NormalizeDependencies` | internal/agent/core/planner.go:132-183 | The in-place rewriting of the task slice, repeated ids included, produces the rewritten plan that the lemmas below speak about. |
| `PlanRewrite.RewriteSynthesis` | internal/agent/core/planner.go:134-161 | The last synthesis task, and only it, gains every other task it did not list, in order; that task is one after which there is no synthesis task, and without any nothing changes. |
| `PlanRewrite.RewriteKnowledgeGraph` | internal/agent/core/planner.go:162-182 | Each knowledge-graph task gains the research and analysis tasks it did not list, in order. |
| `PlanRewrite.AddedInOrder` | internal/agent/core/planner.go:132-183 | Each task keeps its dependencies and then gains, at increasing positions and once each, the ids of exactly the tasks wanted there and not listed: of every other task at the last synthesis task, of research and analysis tasks at a knowledge-graph task. Nothing else about it changes. |
| `PlanRewrite.StaysWithoutRepeats` | internal/agent/core/planner.go:132-183 | With unique ids no task is given a dependency twice. |
| `PlanRewrite.RewrittenGraph` | internal/agent/core/planner.go:132-183 | Tasks and all original dependencies stay, and exactly the two kinds of edges are added. |
| `PlanRewrite.RewritingKeepsSchedulable` | internal/agent/core/planner.go:132-183 | A schedulable plan stays schedulable if and only if no task depends on the last synthesis task and no research or analysis task depends, directly or not, on a knowledge-graph task. |
| `PlanRewrite.SynthesisRunsLast` | internal/agent/core/planner.go:134-161 | Every topological order of the rewritten plan ends with the last synthesis task. |
| `PlanRewrite.AcceptedThenBroken` | internal/agent/core/planner.go:112-183 | A plan whose knowledge-graph task depends on the synthesis task passes validation and cannot be scheduled after the rewriting. |
| `JsonScan.ValueIsNeutral` | internal/helpers/cleaner.go:148-214 | The text of any JSON value, spelled any way RFC 8259 sections 2 to 7 allow, leaves the scanner as it found it. |
| `JsonScan.PrintedValueCloses` | internal/helpers/cleaner.go:148-214 | Started on a printed object or array, the scanner closes at its last character whatever follows. |
| `JsonMatch.NestedIffReduces` | internal/helpers/cleaner.go:163-212 | Popping matching brackets off a stack succeeds exactly on properly nested words, given as a grammar. |
| `JsonMatch.ScanFindsShortest` | internal/helpers/cleaner.go:148-214 | The scanner closes exactly when some prefix has matching brackets outside strings, and then at the end of the shortest one. |
| `JsonExtract.ExtractBalancedJSONFrom` | internal/helpers/cleaner.go:148-214 | The loop computes the segment that the next row characterises. |
| `JsonExtract.SegmentIsShortestMatch` | internal/helpers/cleaner.go:148-214 | The segment is the shortest one from the opener whose brackets outside strings match; it fails exactly when there is none. |
| `JsonExtract.ExtractJSON` | internal/helpers/cleaner.go:90-118 | Returns the first segment at or after any opener of the unwrapped text. |
| `JsonExtract.FirstSegmentMeans` | internal/helpers/cleaner.go:108-117 | That is the shortest matched segment at the first opener that starts one, however many openers before it start none, and nothing exactly when none does. |
| `JsonExtract.NothingToUnwrap` | internal/helpers/cleaner.go:90-107 | Unless the trimmed text opens with "```" or "~~~" and a line end and the same fence follow, it is taken as it is. |
| `JsonExtract.MarkIsDropped` | internal/helpers/cleaner.go:217-226 | A byte-order mark in front makes no difference. |
| `JsonExtract.ExtractsPrintedValue` | internal/helpers/cleaner.go:90-118 | Prose without openers that does not open with a fence, then any printed object or array, then any tail: exactly the printed text comes back. |
| `JsonExtract.ExtractsFencedValue` | internal/helpers/cleaner.go:90-146 | The same inside the first fence, with or without a language tag, when the value does not contain the fence. |
| `JsonExtract.BraceScan` | internal/agent/core/planner.go:707-730 | The planner's scan returns the text from the first brace to where braces first balance, and fails exactly when they never do. |
| `JsonExtract.DepthSplits` | internal/agent/core/planner.go:712-728 | Counting all braces of a text is counting those outside strings plus those inside them. |
| `JsonExtract.BraceScanAgrees` | internal/agent/core/planner.go:707-730 | After prose without braces, on every printed object and before any tail, brace counting returns that object, as extracted above, if and only if the braces inside its strings balance and never outweigh those open around them. |
| `BraceBalance.ScanAgreesIffFits` | internal/agent/core/planner.go:707-730 | The same condition told from the value, by recursion over its members: adding up the braces of its strings and of the objects inside it in order, the sum never falls below zero and ends at zero. |
| `BraceBalance.PrintedValue` | internal/agent/core/planner.go:712-728 | The brace count of a printed value, and the least it gets to along the text, are those computed from the value. |
| `BraceBalance.PlainStringsFit` | internal/agent/core/planner.go:712-728 | In particular brace counting is right about every object none of whose strings holds a brace. |
| `JsonExtract.BraceScanStopsEarly` | internal/agent/core/planner.go:712-728 | One object for which it does not: on `{"a":"}"}` the scan returns the text without its last character. |
| `CheckpointStore.Store.ClaimIdempotency` | internal/store/store.go:2014-2028 | Claims a key exactly once; empty scopes and keys are errors; a call may fail before or after taking effect. |
| `CheckpointStore.Store.UpsertCheckpoint` | internal/store/store.go:2030-2050 | Writes the one row of its run and stage and no other. |
| `CheckpointStore.Store.ListCheckpointsByStatus` | internal/store/store.go:2076-2106 | Lists each row with the status once, in any order, and nothing else. |
| `CheckpointStore.Store.MarkCheckpointStatus` | internal/store/store.go:2108-2112 | Changes the status of an existing row and nothing else. |
| `CheckpointStore.SaveTaskStart` | internal/executor/checkpoint_store.go:29-53 | Overwrites the stage's row with a dispatched checkpoint that wraps the task's payload. |
| `CheckpointStore.SaveTaskFailure` | internal/executor/checkpoint_store.go:59-87 | Overwrites the stage's row with a completed checkpoint holding the error, attempt and payload. |
| `CheckpointStore.RowsMean` | internal/store/store.go:2030-2112 | Written rows are read back, marking changes the status alone, and no other row or claim changes. |
| `CheckpointStore.TaskRowsMean` | internal/executor/checkpoint_store.go:29-87 | Field by field: the rows go under the task's stage and token or, for want of one, under its id, with its payload, the attempt and, for a failure, the error. |
| `Payloads.BuildResumePayload` | internal/worker/processor.go:453-496 | Reads the dispatch payload and then the run's first checkpoint, field by field, ignoring fields of the wrong type. |
| `Payloads.StartCheckpointHasDispatch` | internal/worker/processor.go:603-612 | The checkpoint a handler saves always has the shape a resume destructures, and gives back the dispatch payload. |
| `Payloads.RebuildsStoredPayload` | internal/worker/processor.go:453-496 | From what the handler stored, a resume rebuilds exactly the payload the handler worked on, with the run id filled in. |
| `Payloads.RebuildsWithoutReceived` | internal/worker/processor.go:453-496 | What is rebuilt when the first checkpoint cannot be read: preferences and context, and the topic and user only as far as the context names them. |
| `Dispatches.RebuiltMeans` | internal/worker/processor.go:453-496 | From any stored documents each field is the first checkpoint's, if that holds one of the right type, and otherwise the dispatch's: preferences and context from its parameters, topic and user from that context, and no trigger. |
| `Dispatches.DispatchDocMeans` | internal/worker/processor.go:551-559 | Field by field: the dispatch names its run, is the bootstrap task named after it, and carries the token made of event and run, priority 1, the bootstrap plan, and the context and preferences. |
| `Dispatches.ReceivedMeans` | internal/worker/processor.go:533-548 | Field by field: the first checkpoint of a run holds topic, user, trigger, preferences and context, under the token made of event and run. |
| `Dispatches.BootstrapRowsMean` | internal/worker/processor.go:561-570 | The rows of a started and of a failed bootstrap task are dispatched and completed, under the stage "bootstrap.dispatch", and give back the dispatch. |
| `Dispatches.SameEventIff` | internal/worker/processor.go:502-508 | Events are claimed by type and id together. |
| `WorkerProtocol.RunsKeepInv` | internal/worker/processor.go:498-674 | Every interleaving of workers, deliveries, redeliveries, crashes and failing calls keeps the protocol's invariant. |
| `WorkerProtocol.OneActivationPerEvent` | internal/worker/processor.go:502-523 | At most one activation per event gets past the claim, and at most one run is created for it. |
| `WorkerProtocol.PublishedOnlyIfSaved` | internal/worker/processor.go:561-570 | Every publication comes after a durable dispatched checkpoint of the same run with the same payload, and after a gate that let the run through, having read a configuration without a demand or, for want of a topic, nothing. |
| `Dispatches.PublishedIsComplete` | internal/worker/processor.go:549-572 | In every run of the system each published document names the run it is published for and is its bootstrap task, carries the token of a dispatched row saved before, and the context and preferences of a first checkpoint saved before. |
| `Gates.EachPublicationHasItsGate` | internal/worker/processor.go:613-629 | At no moment have more dispatches of a run been published than gates have let it through, gates that read nothing included. |
| `Gates.EachPublicationHasItsRead` | internal/worker/processor.go:590-629 | Nor more than gates have read the configuration of one of the run's topics and found no demand, provided every payload saved for the run names one of them and, if its first checkpoint was ever unreadable, so does the payload's context. |
| `Gates.ReadBeforePublication` | internal/worker/processor.go:561-629 | Under that condition every publication comes after a gate that read such a configuration. |
| `Gates.StartSkipsIff` | internal/worker/processor.go:144-149 | In every reachable state, a start reads no configuration exactly when its own event names no topic. |
| `Gates.ResumeSkipsIff` | internal/worker/processor.go:453-496 | In every reachable state, a resume reads no configuration exactly when the run's first checkpoint is read and names no topic, or is not read and the context of the stored dispatch names none. |
| `Gates.PublishesDespiteDemandIff` | internal/worker/processor.go:613-626 | In every reachable state, a resume whose topic's configuration demands approval is published exactly in those cases, and is otherwise held back. |
| `Gates.ApprovalBypassed` | internal/worker/processor.go:470-477 | A concrete run, for every payload with a topic that its context does not name: two dispatches are published and one configuration has been read, though it now demands approval. |
| `Gates.AlwaysReadIff` | internal/worker/processor.go:453-496 | For an event with a topic, every publication of its run has a configuration read of its own, in every run that saves only these topics for it, if and only if the event's context names a topic as well. |
| `WorkerProtocol.DispatchedRowsAreResumable` | internal/worker/processor.go:590-613 | After any run, a dispatched bootstrap row destructures, and its run's first checkpoint is there with a payload some handler stored. |
| `WorkerProtocol.ResumeRebuildsPayload` | internal/worker/processor.go:613-613 | In every reachable state, what a resume rebuilds from a dispatched row as stored and from the run's first checkpoint as stored is the payload the run's handlers saved, if they all saved the same. |
| `Recovery.ResumePublishesStored` | internal/worker/processor.go:613-630 | From the head of the resume loop, a passing gate and a successful publication publish exactly the stored dispatch payload. |
| `Recovery.CrashLosesNothing` | internal/worker/processor.go:579-638 | Once a dispatched bootstrap checkpoint has been saved, and until its row is written again, every run with any crashes still has exactly that row, and any worker, even one that has just crashed, can still publish its payload. |
| `Recovery.TableIsReplay` | internal/store/store.go:2030-2112 | After any run, with whatever crashes and failing calls, every row of the checkpoint table is the replay of the recorded saves and marks. |
| `Recovery.DispatchedIffLastWrite` | internal/worker/processor.go:579-638 | After any run, a row is dispatched, and so will be resumed, exactly when its last write was the save of a dispatched checkpoint. |
| `Recovery.FailedDispatchIsNotResumed` | internal/executor/executor.go:142-151 | A concrete run: the first publication fails, the failure record replaces the dispatched checkpoint, nothing has been published and nothing will be resumed. |
| `WorkerProtocol.StepKeepsInv` | internal/worker/processor.go:498-638 | Each single step keeps the invariant, including what every other worker knows. |
| `Processor.DriveIsRun` | internal/worker/processor.go:498-638 | Whenever the contracts below say that code drives one worker from a world to another, some run of the protocol ends there. |
| `Processor.Worker.EnforceBudgetGate` | internal/worker/processor.go:144-194 | The gate is a run of the protocol; what it returns is settled by the answers: no error and no skipping without a topic or a demand, skipping exactly on a demand, an error exactly when the configuration or the request fails. |
| `Processor.Worker.RequestApproval` | internal/worker/processor.go:158-193 | Requesting approval is a run of the protocol that ends in skipping, or in abandoning exactly when marking the run or creating a request that is not yet pending fails; it never passes. |
| `Processor.Worker.HandleRunEnqueued` | internal/worker/processor.go:498-577 | The handler is a run of the protocol. It publishes the event's dispatch, once, exactly when the event is new and claimed, decodes to a run, passes the gate, both checkpoints are saved and the publication does not fail before taking effect; otherwise it publishes nothing. It reports an error exactly when the claim, decoding, the gate, a save or the publication fails. The tables afterwards are exactly those that the answers lead to. |
| `Answering.HandledSends` | internal/worker/processor.go:515-572 | What a claimed event adds to the stream is at most one document, the bootstrap task of the run its data names or, failing that, of the run created for it. |
| `Answering.HandledRows` | internal/worker/processor.go:524-572 | What it leaves in the table: past the gate and both saves, a first checkpoint with the event's payload, and a dispatched bootstrap row or, if publishing failed and that could be recorded, a completed one that says so; no other row changes. |
| `Processor.Worker.StartRun` | internal/worker/processor.go:533-572 | Saves the first checkpoint and the dispatched one and then publishes: exactly when both saves succeed, and without error exactly when all three calls do. |
| `Processor.Worker.GateRun` | internal/worker/processor.go:524-572 | With a known run: publishes exactly when the gate passes and both saves succeed, and reports exactly whether the gate, a save or publishing failed. |
| `Processor.Worker.ExecuteBootstrap` | internal/worker/processor.go:555-572 | Saves the dispatched checkpoint and publishes exactly when that succeeds. |
| `Processor.Worker.DispatchBootstrap` | internal/worker/processor.go:570-572 | Publishes the dispatch unless that call fails before taking effect, returns an error exactly when it fails, and then records the failure. |
| `Processor.Worker.ResumePending` | internal/worker/processor.go:579-638 | Is a run of the protocol over a listing of all dispatched rows. For every sequence of answers, what is sent, the tables, `resumed` and `skipped` are what the tally over the rows says, each row taking its answers where the one before stopped. |
| `Answering.DecidedByTopic` | internal/worker/processor.go:590-637 | When every call succeeds, a tally is decided row by row by what the configuration of the row's own topic demands: exactly the stored payloads of the rows let through are sent, in order, and `resumed` and `skipped` count them and the rows held back. |
| `Answering.TallyIsHonest` | internal/worker/processor.go:613-630 | For every sequence of answers, nothing is counted as republished that was not sent, and no row counts twice. |
| `Answering.RowsDecidedByTopic` | internal/worker/processor.go:590-637 | When every call succeeds, a listed row that its own topic lets through stays dispatched and counts one retry more, one that is held back is completed, and rows of another stage or shape, like all rows not listed, stay as they are. |
| `Answering.ListingStands` | internal/worker/processor.go:579-590 | That speaks of real listings: in every reachable state the dispatched rows are listed once each and as they stand in the table. |
| `Processor.Worker.ResumeRow` | internal/worker/processor.go:590-637 | One row: republished, with exactly its stored payload, when it is a bootstrap row, its gate passes and the publication is confirmed; waiting when the request for approval succeeds; nothing otherwise; how many answers it took, and the tables after it. |
| `Processor.Worker.RepublishRow` | internal/worker/processor.go:626-637 | Sends exactly the stored payload unless the call fails before taking effect, and counts the row exactly when the call succeeds. |
| `Rebuild.EpisodeStore.ListEpisodes` | internal/store/store.go:3110-3178 | Returns a page of the newest matching episodes, ties in any order, the limit defaulted to 50 outside 1 to 200. |
| `Rebuild.RebuildSemanticEmbeddings` | cmd/memory/rebuild.go:16-102 | For every batch size the loop ends if and only if all episodes were created after the epoch. Then it has listed none twice, and has listed every episode exactly when no multiple of the page size falls between two equal times in the list of creation times, newest first; in that case it has ingested each episode with run and topic ids exactly once and counted it. |
| `Rebuild.PageShrinks` | cmd/memory/rebuild.go:91-95 | Each page leaves strictly fewer episodes below the cursor, unless one sits at or before the epoch, which is then listed forever. |
| `Rebuild.PageSplits` | cmd/memory/rebuild.go:91-95 | A page that leaves out an episode of its last creation time is full and splits a tie. |
| `Rebuild.NextPage` | cmd/memory/rebuild.go:42-95 | After each page, as long as no tie was split, exactly the episodes newer than the cursor have been listed, once each; once one was, an episode has been passed over for good. |
| `Rebuild.DistinctNeverSplits` | cmd/memory/rebuild.go:91-95 | Distinct creation times never lose an episode. |
| `Rebuild.TieOnBoundary` | cmd/memory/rebuild.go:91-95 | Two episodes of one instant: pages of one lose an episode, pages of two do not. |
| `Delta.Delta` | internal/memory/manager/manager.go:534-650 | Novel plus duplicates is the total; the novel items are exactly the ones reported at once, in listing order, and then the remaining candidates nothing similar was remembered for, in listing order; as a multiset, the first of each unknown key that nothing similar was remembered for, and the keyless ones; keyed novel items have distinct, unknown keys. A missing topic, a failing embedding of a non-empty second pass and a failing search are each reported exactly when they happen. |
| `Delta.FirstPass` | internal/memory/manager/manager.go:577-606 | Splits the items by verdict into novel ones, candidates and duplicates, losing none. |
| `Delta.Judge` | internal/memory/manager/manager.go:578-606 | Decides one item and keeps the set of seen keys equal to the unknown keys met so far. |
| `Delta.PassesTogether` | internal/memory/manager/manager.go:577-647 | The results of the two passes together are the novel items of the definition. |
| `Delta.NovelMeans` | internal/memory/manager/manager.go:577-647 | In plain terms: an item goes by its trimmed id or, failing that, its trimmed hash; it is novel if it has neither, or if that name is neither known nor that of an earlier item and, where texts are compared, it has no text or nothing similar is remembered. |
| `Delta.WithInOrder` | internal/memory/manager/manager.go:577-606 | The items of one verdict are those at increasing positions that got it, and all of them. |
| `Delta.NovelInOrder` | internal/memory/manager/manager.go:577-647 | The novel items of the definition are those at increasing positions with something novel, and all of them. |
| `Delta.NovelItemsAreNew` | internal/memory/manager/manager.go:577-647 | The novel items are a sub-multiset of the input in which keyed items occur once, share no key and have unknown keys. |
| `Delta.ExtractDeltaIDs` | internal/memory/manager/manager.go:756-770 | Lists exactly the keys of the items that have one. |
| `Delta.RerunLeavesKeyless` | internal/memory/manager/manager.go:541-647 | Of two requests for the same items, the second with the keys of the first response's novel items known as well and the same similarity answers, the second response's novel items are exactly the items without a key. |
| `Snapshot.ComputeStageSnapshot` | internal/agent/core/planner_templates.go:164-208 | Fails exactly when no listed task is recognised; otherwise one entry per recognised task, ordered by id, with sorted dependencies inside the stage, outputs and parameter names. |
| `Snapshot.SnapshotMeans` | internal/agent/core/planner_templates.go:164-208 | Entry by entry: the task's id and type, its outputs and parameter names sorted, and of its dependencies exactly those on members of the stage, sorted and as often as listed. |
| `Snapshot.SnapshotIgnoresOrder` | internal/agent/core/planner_templates.go:164-208 | Reordering the stage's tasks, or the outputs, dependencies and parameters of its tasks, or changing how they depend on other stages, leaves the snapshot as it is. |
| `Snapshot.SnapshotsHaveNoDependencies` | internal/agent/core/planner_templates.go:180-186 | Stages of a normalised document are layers, so no snapshot ever contains a dependency. |
| `Text.SortedUnique` | internal/agent/core/planner_templates.go:187-204 | A sorted sequence is determined by what it contains. |
| `Text.LeMeans` | internal/agent/core/planner_templates.go:187-204 | Strings are ordered by the first character in which they differ, a proper prefix first. |
| `Text.TrimMeans` | internal/memory/manager/manager.go:578-582 | Trimming takes away white space only and leaves none at either end. |
| `Templates.TemplateStore.UpsertFingerprint` | internal/store/store.go:524-575 | Counts the sighting and reports the row. |
| `Templates.TemplateStore.CreateTemplate` | internal/server/template_repo.go:90-140 | Inserts a template unless the topic already has one of that name or the users table does not know its creator, then its first version as a separate statement. |
| `Templates.TemplateStore.RecordUsage` | internal/store/store.go:657-745 | Appends a usage row and then raises the template's metrics, as two statements. |
| `Templates.SightStage` | internal/agent/core/planner_templates.go:44-121 | One sighting: upsert, then create and link at three occurrences without a template, or record a usage with one; the new tables for every pattern of failing calls. |
| `Templates.AnnotateProceduralTemplates` | internal/agent/core/planner_templates.go:21-131 | Annotating a plan amounts to one sighting for each stage with a recognised task, in stage order, each with the replies of its own calls, and none without a topic. |
| `Promotion.LawOfPromotion` | internal/agent/core/planner_templates.go:69-121 | Provided the users table accepts the creator the planner names: after any sightings whose calls succeed, occurrences count sightings, a name is taken exactly when a stage of that name was seen three times, the first such stage alone is linked, and its usages and metrics are the sightings after the third. |
| `Promotion.NeverPromotedOnSchema` | internal/agent/core/planner_templates.go:72-85 | With UUIDs for users, as the schema has them, no template, link or usage is ever made, whatever calls fail; occurrences still count sightings. |
| `Promotion.UnsharedNameIsPromoted` | internal/agent/core/planner_templates.go:69-121 | A stage whose name no other stage of the topic shares has a template, its own, exactly when it was seen three times and the users table knows "system"; after `n` sightings it then has `n - 3` usages and metrics. |
| `Promotion.VersionsAreTemplates` | internal/server/template_repo.go:90-140 | Only templates have a first version, and unless a call fails every template has one. |
| `Promotion.CountMeans` | internal/store/store.go:524-575 | Sightings are counted one by one. |
| `Promotion.OrphansStay` | internal/agent/core/planner_templates.go:69-97 | Once a name is taken without a link, no stage of that name is ever linked again, whatever later calls do. |
| `Promotion.FailedVersionOrphans` | internal/server/template_repo.go:104-140 | The promoting sighting leaves such a name exactly when inserting the version fails, or linking fails before taking effect. |
| `Promotion.StaysModest` | internal/agent/core/planner_templates.go:69-121 | Under any failures a link needs three sightings and usages never exceed the sightings after the third. |
| `CanonicalUrl.CanonicalURL` | internal/helpers/url.go:37-127 | Refuses exactly an empty host; otherwise returns a canonical form of the components. |
| `CanonicalUrl.SchemeMeans` | internal/helpers/url.go:48-51 | The scheme is in lower case, "https" if none was given, and there is no fragment. |
| `CanonicalUrl.HostMeans` | internal/helpers/url.go:53-66 | The host is in lower case and loses ":80" under http and ":443" under https behind its only colon, and nothing else. |
| `CanonicalUrl.PathSteps` | internal/helpers/url.go:68-82 | Cleaning a path segment by segment: empty ones and "." are dropped, ".." takes back the segment before it unless at the root, any other is kept. |
| `CanonicalUrl.PathMeans` | internal/helpers/url.go:68-82 | The canonical path is the cleaned one with a trailing slash kept, and the root for none. |
| `CanonicalUrl.QueryMeans` | internal/helpers/url.go:84-124 | Of the query exactly the listed tracking parameters, in any letter case, and blank pairs are dropped; the rest stay, as often as given, by key and then by value. |
| `CanonicalUrl.CanonicalQuery` | internal/helpers/url.go:84-124 | The map-and-builder loops produce the untracked pairs sorted by key and value, each as often as given; a pair with neither key nor value prints as nothing. |
| `CanonicalUrl.StripDefaultPort` | internal/helpers/url.go:57-66 | Removes a default port behind the only colon of the host and changes no other host. |
| `CanonicalUrl.Idempotent` | internal/helpers/url.go:37-127 | Canonicalising a canonical URL gives it back and nothing else. |
| `CanonicalUrl.HostVanishes` | internal/helpers/url.go:53-66 | A canonical host is empty, so that canonicalising again is refused, exactly for a bare default port of the scheme. |
| `CanonicalUrl.OnlyKeptPairsMatter` | internal/helpers/url.go:84-124 | The order of query pairs, tracking parameters and the fragment do not influence the result. |
| `CanonicalUrl.CleanPathTwice` | internal/helpers/url.go:68-82 | Cleaning a path, with its kept trailing slash, is idempotent. |

## Left out

- JSON Schema validation and JSON marshalling: plans, payloads and checkpoints are decoded documents, and numbers in them survive a round trip unchanged.
- Error texts: errors are data; lists of stuck or missing ids that the code sorts and joins into a message are sets.
- `PlanDocument.ValidatePlanStructure`: whether a duration string parses is a given fact of the document.
- `Budget.Monitor.Add`: costs are reals, because floating-point rounding is not modelled; token counters do wrap at 64 bits.
- `Orchestrator.ExecuteTasks`: an error-free run is shown to keep the limits on usage as the monitor counts it, so a token sum beyond 64 bits wraps as in the code; an agent's answer is a function of its round, place, task and inputs; enriched parameters, source aggregation, the agents' own success flag, status counters and telemetry are not modelled.
- `Executor.Execute`: retry delays and cancellation are not modelled, and a nil runner is a runner that always succeeds.
- `PlanRewrite.NormalizeDependencies`: works on plans with unique ids in its lemmas; with repeated ids the in-place result is still exact, but its graph is not analysed.
- `WorkerProtocol.OneActivationPerEvent`: says nothing about an event claimed and then lost to a crash before its first checkpoint; the code does not run such an event again.
- `Recovery.CrashLosesNothing`: shows that recovery is possible; that a resume is eventually started is up to the timer, which has no model.
- Approval decisions: the gate's answers are arbitrary, and the flow that continues a run after a decision (internal/server/runs.go) is not part of this model.
- Budget approval announcements: a step of the gate, but not a publication on the task stream.
- Reclaiming by cursor: the claim loop at internal/worker/processor.go:644-672 appears as the free choice of which unacknowledged message to deliver to which worker; concurrency limits, back-pressure and the select loop of `Start` are not modelled.
- Message acknowledgement on handler errors: modelled as in the code, which acknowledges in every case.
- `Processor.Worker.ResumePending`: like every handler contract, about one worker whose calls nothing else interleaves with; interleavings are the subject of `WorkerProtocol`, whose steps the handlers are shown to take.
- `Processor.Worker.HandleRunEnqueued`: the text of a publication error in a failure checkpoint is fixed.
- `JsonExtract.ExtractJSON`: texts are sequences of Unicode characters, so the branch for a byte-wise byte-order mark is absent; `ExtractMarkdown` is not modelled.
- `JsonText`: numbers may be any text over the characters numbers are spelled with, which only makes the theorems cover more.
- Hashing: fingerprints are represented by the snapshots they are computed from, so distinct snapshots are distinct fingerprints.
- `Promotion.LawOfPromotion`: sightings come one after another; two planners racing on one fingerprint are not modelled. Sample payloads, metadata, latencies and the suggestion list written into the plan are absent, and the template name is any function of the snapshot.
- `Agreement.Decide`: what the executor and the cycle search make of repeated ids; the executor's graph is a map, so it cannot hold them.
- `Rebuild.RebuildSemanticEmbeddings`: the number of pages is bounded by a parameter, because the code's loop need not end; above the number of episodes the bound is never met. Cancellation, failing loads and failing ingests are not modelled, nor is the store's rounding of timestamps.
- `Delta.Delta`: similarity search is one fixed answer per text, or a failure; an empty embedding vector, for which the code does not search, counts as a search that finds nothing. An item's text is fixed: the code reads the first of text, summary, content, body and description, and otherwise joins up to three payload strings in map order (internal/memory/manager/manager.go:708-738), which may differ from one request to the next.
- `CanonicalUrl.CanonicalURL`: parsing, user information, percent-encoding and letter case beyond ASCII belong to the URL library and are not modelled; paths and queries are decoded.
- Budget configuration merging, fairness clamps, cost estimates and result synthesis: easy or presentation only.
