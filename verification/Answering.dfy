/** What a worker does, told from the answers its calls get: what it sends, counts, writes and returns. */
module Answering {
  import opened CheckpointStore
  import opened Dispatches
  import opened Documents
  import opened Payloads
  import opened Recovery
  import opened WorkerProtocol
  import opened Wrappers

  /** What the rest of the system answers to the steps of one worker, one after another. */
  type Answers = nat -> Answer

  function Append(sent: seq<Doc>, c: bool, dispatch: Doc): seq<Doc> {
    if c then sent + [dispatch] else sent
  }

  // ---- what the answers decide ----

  predicate Works(answers: Answers, n: nat) {
    answers(n).reply.Fine?
  }

  /** The gate lets the run through. */
  predicate Passes(job: Job, a: Answer) {
    job.payload.topicID == "" || (a.reply.Fine? && !a.requireApproval)
  }

  /** Marking the run, or creating the request that is not pending yet, fails. */
  predicate RequestFails(answers: Answers, from: nat) {
    || !Works(answers, from)
    || (!(Works(answers, from + 1) && answers(from + 1).approvalPending) && !Works(answers, from + 2))
  }

  /** The gate demands approval and the request for it succeeds. */
  predicate Waits(job: Job, answers: Answers, from: nat) {
    job.payload.topicID != "" && Works(answers, from) && answers(from).requireApproval
      && !RequestFails(answers, from + 1)
  }

  /** What the gate returns. */
  predicate GateSays(job: Job, answers: Answers, from: nat, skip: bool, err: bool) {
    if job.payload.topicID == "" then !skip && !err
    else if !Works(answers, from) then !skip && err
    else skip == answers(from).requireApproval && (err <==> skip && RequestFails(answers, from + 1))
  }

  /** Reading the configuration fails, or requesting the approval it demands does. */
  predicate GateFails(job: Job, answers: Answers, from: nat) {
    && job.payload.topicID != ""
    && (!Works(answers, from) || (answers(from).requireApproval && RequestFails(answers, from + 1)))
  }

  /** Starting a run fails: its gate does, or, past the gate, one of its two saves or the publication. */
  predicate RunFails(job: Job, answers: Answers, from: nat) {
    || GateFails(job, answers, from)
    || (Passes(job, answers(from))
        && !(Works(answers, from + 1) && Works(answers, from + 2) && Works(answers, from + 3)))
  }

  /** Handling a claimed event fails: it stands for no run, or starting that run fails. */
  predicate HandlingFails(msg: nat, env: Envelope, answers: Answers, from: nat) {
    RunNamed(env, answers(from)).Some? ==>
      RunFails(Start(msg, env, RunNamed(env, answers(from)).value, env.data.value), answers, from + 1)
  }

  lemma GateMeans(job: Job, answers: Answers, from: nat, skip: bool, err: bool)
    requires GateSays(job, answers, from, skip, err)
    ensures Passes(job, answers(from)) <==> !skip && !err
    ensures Waits(job, answers, from) <==> skip && !err
    ensures GateFails(job, answers, from) <==> err
  {
  }

  /** The run that an event stands for: named in its data, or created. */
  function RunNamed(env: Envelope, a: Answer): Option<string> {
    if env.data.None? then None
    else if env.data.value.runID != "" then Some(env.data.value.runID)
    else if a.reply.Fine? && a.newRun != "" then Some(a.newRun)
    else None
  }

  /** The event is claimed now, for the first time. */
  predicate Takes(claims: set<EventKey>, env: Envelope, a: Answer) {
    Claimable(KeyOf(env)) && KeyOf(env) !in claims && a.reply.Fine?
  }

  /** The handler of a claimed event gets as far as publishing: the event decodes, its run is known, the
      gate passes, and both checkpoints are saved. */
  predicate Reaches(msg: nat, env: Envelope, answers: Answers, from: nat) {
    && RunNamed(env, answers(from)).Some?
    && Passes(Start(msg, env, RunNamed(env, answers(from)).value, env.data.value), answers(from + 1))
    && Works(answers, from + 2) && Works(answers, from + 3)
  }

  /** The stream after the handler of a claimed event. */
  function AfterHandling(sent: seq<Doc>, msg: nat, env: Envelope, answers: Answers, from: nat): seq<Doc> {
    if Reaches(msg, env, answers, from) && !answers(from + 4).reply.FailedBefore?
    then sent + [DispatchDoc(env, RunNamed(env, answers(from)).value, env.data.value)] else sent
  }

  /** The tables after saving a checkpoint, whatever the answer. */
  function Keep(t: Tables, cp: Checkpoint, a: Answer): Tables {
    if Storable(cp) && !a.reply.FailedBefore? then Upserted(t, cp) else t
  }

  /** The tables after a bootstrap task whose first save takes the answer `from`. */
  function BootstrapTables(t: Tables, env: Envelope, run: string, p: RunPayload, answers: Answers, from: nat): Tables {
    var task := BootstrapTask(env, run, p);
    var started := Keep(t, StartCheckpoint(run, task, 0), answers(from));
    if !Works(answers, from) || run == "" || Works(answers, from + 1) then started
    else Keep(started, FailureCheckpoint(run, task, 1, "publish failed"), answers(from + 2))
  }

  function StartTables(t: Tables, env: Envelope, run: string, p: RunPayload, answers: Answers, from: nat): Tables {
    var received := Keep(t, ReceivedCheckpoint(env, run, p), answers(from));
    if Works(answers, from) && run != "" then BootstrapTables(received, env, run, p, answers, from + 1) else received
  }

  /** The tables after the handler of a claimed event. */
  function HandledTables(t: Tables, msg: nat, env: Envelope, answers: Answers, from: nat): Tables {
    match RunNamed(env, answers(from))
    case None => t
    case Some(run) =>
      if Passes(Start(msg, env, run, env.data.value), answers(from + 1))
      then StartTables(t, env, run, env.data.value, answers, from + 2) else t
  }

  /** What a claimed event leaves in the table. No row of another run or stage changes. Past the gate, if
      both saves succeed, the run's first checkpoint holds the event's payload, and its bootstrap row is
      dispatched if the publication succeeded; if it failed and the failure could be recorded, that row is
      completed and says so. */
  lemma HandledRows(t: Tables, msg: nat, env: Envelope, answers: Answers, from: nat, run: string)
    requires RunNamed(env, answers(from)) == Some(run)
    ensures var t' := HandledTables(t, msg, env, answers, from);
      && t'.claims == t.claims
      && (forall r, s :: !(r == run && s in {"run.enqueued", "bootstrap.dispatch"}) ==>
            Lookup(t', r, s) == Lookup(t, r, s))
      && (Reaches(msg, env, answers, from) ==>
            && Lookup(t', run, "run.enqueued") == Some(ReceivedCheckpoint(env, run, env.data.value))
            && (Works(answers, from + 4) ==>
                  Lookup(t', run, "bootstrap.dispatch")
                  == Some(StartCheckpoint(run, BootstrapTask(env, run, env.data.value), 0)))
            && (!Works(answers, from + 4) && !answers(from + 5).reply.FailedBefore? ==>
                  Lookup(t', run, "bootstrap.dispatch")
                  == Some(FailureCheckpoint(run, BootstrapTask(env, run, env.data.value), 1, "publish failed"))))
  {
  }

  /** Past its gate a claimed event sends one document, a bootstrap task of the run that its data names or,
      failing that, that was created for it; otherwise nothing. */
  lemma HandledSends(sent: seq<Doc>, msg: nat, env: Envelope, answers: Answers, from: nat)
    ensures var sent' := AfterHandling(sent, msg, env, answers, from);
      sent' != sent ==>
        && env.data.Some? && |sent'| == |sent| + 1 && sent'[..|sent|] == sent
        && DispatchesRun(sent'[|sent|],
                         if env.data.value.runID != "" then env.data.value.runID else answers(from).newRun,
                         env.data.value)
  {
    if AfterHandling(sent, msg, env, answers, from) != sent {
      DispatchDocMeans(env, RunNamed(env, answers(from)).value, env.data.value);
    }
  }

  /** What follows the gate of an event's run completes the handling. */
  lemma RunSettled(msg: nat, env: Envelope, run: string, p: RunPayload, answers: Answers, from: nat,
                   sent0: seq<Doc>, sent: seq<Doc>, err: bool)
    requires env.data == Some(p) && RunNamed(env, answers(from)) == Some(run)
    requires var starts := Passes(Start(msg, env, run, p), answers(from + 1)) && Works(answers, from + 2)
        && Works(answers, from + 3);
      && sent == Append(sent0, starts && !answers(from + 4).reply.FailedBefore?, DispatchDoc(env, run, p))
      && (err <==> RunFails(Start(msg, env, run, p), answers, from + 1))
    ensures sent == AfterHandling(sent0, msg, env, answers, from)
    ensures err <==> HandlingFails(msg, env, answers, from)
  {
  }

  /** The rows a resume works on. */
  predicate IsRow(cp: Checkpoint) {
    cp.stage == STAGE_BOOTSTRAP && DispatchOf(cp).Some?
  }

  /** What the gate of a row is asked, given the tables and how reading the run's first checkpoint ends. */
  function RowJob(cp: Checkpoint, todo: seq<Checkpoint>, t: Tables, a: Answer): Job
    requires IsRow(cp)
  {
    var received := if a.reply.Fine? then Lookup(t, cp.runID, STAGE_RUN_RECEIVED) else None;
    Resume(cp, DispatchOf(cp).value, Rebuilt(cp.runID, DispatchOf(cp).value, received), todo)
  }

  // ---- how many answers are used up ----

  function RequestEnd(answers: Answers, from: nat): nat {
    if !Works(answers, from) then from + 1
    else if Works(answers, from + 1) && answers(from + 1).approvalPending then from + 2
    else if !Works(answers, from + 2) then from + 3
    else from + 4
  }

  /** The first answer after those that a gate takes. */
  function GateEnd(job: Job, answers: Answers, from: nat): nat {
    if job.payload.topicID == "" || !Works(answers, from) || !answers(from).requireApproval then from + 1
    else RequestEnd(answers, from + 1)
  }

  /** The first answer after those that a row takes from its gate on. */
  function SettledEnd(job: Job, answers: Answers, from: nat): nat {
    if Passes(job, answers(from)) then from + if Works(answers, from + 1) then 3 else 2
    else GateEnd(job, answers, from) + if Waits(job, answers, from) then 1 else 0
  }

  function RowEnd(cp: Checkpoint, t: Tables, answers: Answers, from: nat): nat {
    if IsRow(cp) then SettledEnd(RowJob(cp, [], t, answers(from + 1)), answers, from + 2) else from + 1
  }

  /** The tables after the gate of a row: a row held back is marked, a row republished is bumped. */
  function SettledTables(t: Tables, cp: Checkpoint, job: Job, answers: Answers, from: nat): Tables {
    if Passes(job, answers(from)) then
      if Works(answers, from + 1) then Keep(t, cp.(retries := cp.retries + 1), answers(from + 2)) else t
    else if Waits(job, answers, from) && !answers(GateEnd(job, answers, from)).reply.FailedBefore?
    then MarkedAs(t, cp.runID, cp.stage, Completed)
    else t
  }

  /** `t` is where the run's first checkpoint is read, `now` what the row finds. */
  function RowTables(cp: Checkpoint, t: Tables, now: Tables, answers: Answers, from: nat): Tables {
    if IsRow(cp) then SettledTables(now, cp, RowJob(cp, [], t, answers(from + 1)), answers, from + 2) else now
  }

  /** What a resume amounts to: what it sends, its two counters, the tables, and the next answer. */
  datatype Tally = Tally(sent: seq<Doc>, resumed: nat, skipped: nat, tables: Tables, next: nat)

  /** The tally over rows, each taking its answers where the one before stopped. */
  function TallyOf(rows: seq<Checkpoint>, t: Tables, answers: Answers, from: nat): Tally {
    if rows == [] then Tally([], 0, 0, t, from)
    else
      var before, cp := TallyOf(rows[..|rows| - 1], t, answers, from), rows[|rows| - 1];
      Tally(Append(before.sent, Sends(cp, t, answers, before.next), PayloadOf(cp)),
            before.resumed + if Republishes(cp, t, answers, before.next) then 1 else 0,
            before.skipped + if HoldsBack(cp, t, answers, before.next) then 1 else 0,
            RowTables(cp, t, before.tables, answers, before.next), RowEnd(cp, t, answers, before.next))
  }

  function PayloadOf(cp: Checkpoint): Doc {
    if DispatchOf(cp).Some? then DispatchOf(cp).value else map[]
  }

  /** Whether a row, whose first step takes the answer `from`, is put on the stream, is counted as
      republished, and is counted as waiting for approval. */
  predicate Sends(cp: Checkpoint, t: Tables, answers: Answers, from: nat) {
    && IsRow(cp) && Passes(RowJob(cp, [], t, answers(from + 1)), answers(from + 2))
    && !answers(from + 3).reply.FailedBefore?
  }

  predicate Republishes(cp: Checkpoint, t: Tables, answers: Answers, from: nat) {
    IsRow(cp) && Passes(RowJob(cp, [], t, answers(from + 1)), answers(from + 2)) && Works(answers, from + 3)
  }

  predicate HoldsBack(cp: Checkpoint, t: Tables, answers: Answers, from: nat) {
    IsRow(cp) && Waits(RowJob(cp, [], t, answers(from + 1)), answers, from + 2)
  }

  /** Nothing is counted as republished that was not sent, and no row is counted twice. */
  lemma {:induction false} TallyIsHonest(rows: seq<Checkpoint>, t: Tables, answers: Answers, from: nat)
    ensures var y := TallyOf(rows, t, answers, from);
      y.resumed <= |y.sent| && |y.sent| + y.skipped <= |rows|
  {
    if rows != [] {
      TallyIsHonest(rows[..|rows| - 1], t, answers, from);
    }
  }

  // ---- when every call succeeds ----

  /** What the configuration of each topic demands. */
  type Demands = string -> bool

  /** The topic a resume works with when the row's first checkpoint can be read. */
  function TopicOf(cp: Checkpoint, t: Tables): string
    requires IsRow(cp)
  {
    ResumeTopic(t, cp.runID, DispatchOf(cp).value)
  }

  /** Every call succeeds, and each row's gate is told what the configuration of its topic demands. */
  ghost predicate AnswersBy(rows: seq<Checkpoint>, t: Tables, answers: Answers, from: nat, demands: Demands) {
    && (forall n: nat :: Works(answers, n))
    && forall k :: 0 <= k < |rows| && IsRow(rows[k]) && TopicOf(rows[k], t) != "" ==>
      answers(TallyOf(rows[..k], t, answers, from).next + 2).requireApproval == demands(TopicOf(rows[k], t))
  }

  predicate LetThrough(cp: Checkpoint, t: Tables, demands: Demands) {
    IsRow(cp) && (TopicOf(cp, t) == "" || !demands(TopicOf(cp, t)))
  }

  /** The stored payloads of the rows that their topics let through, in their order. */
  function SentFor(rows: seq<Checkpoint>, t: Tables, demands: Demands): seq<Doc> {
    if rows == [] then []
    else
      var cp := rows[|rows| - 1];
      var before := SentFor(rows[..|rows| - 1], t, demands);
      if LetThrough(cp, t, demands) then before + [DispatchOf(cp).value] else before
  }

  function HeldBack(rows: seq<Checkpoint>, t: Tables, demands: Demands): nat {
    if rows == [] then 0
    else
      var cp := rows[|rows| - 1];
      HeldBack(rows[..|rows| - 1], t, demands) + if IsRow(cp) && !LetThrough(cp, t, demands) then 1 else 0
  }

  /** When every call succeeds, each row is decided by what its own topic demands: the rows let through
      are sent and counted, the others counted as waiting. */
  lemma {:induction false} DecidedByTopic(rows: seq<Checkpoint>, t: Tables, answers: Answers, from: nat,
                                          demands: Demands)
    requires AnswersBy(rows, t, answers, from, demands)
    ensures var y := TallyOf(rows, t, answers, from);
      y.sent == SentFor(rows, t, demands) && y.resumed == |y.sent| && y.skipped == HeldBack(rows, t, demands)
  {
    if rows != [] {
      var front, cp := rows[..|rows| - 1], rows[|rows| - 1];
      FrontAnswersBy(rows, t, answers, from, demands);
      DecidedByTopic(front, t, answers, from, demands);
      RowByTopic(cp, t, answers, TallyOf(front, t, answers, from).next, demands);
    }
  }

  lemma RowByTopic(cp: Checkpoint, t: Tables, answers: Answers, from: nat, demands: Demands)
    requires forall n: nat :: Works(answers, n)
    requires IsRow(cp) && TopicOf(cp, t) != "" ==> answers(from + 2).requireApproval == demands(TopicOf(cp, t))
    ensures Sends(cp, t, answers, from) <==> LetThrough(cp, t, demands)
    ensures Republishes(cp, t, answers, from) <==> LetThrough(cp, t, demands)
    ensures HoldsBack(cp, t, answers, from) <==> IsRow(cp) && !LetThrough(cp, t, demands)
  {
    assert Works(answers, from + 1) && Works(answers, from + 2) && Works(answers, from + 3);
    assert Works(answers, from + 4) && Works(answers, from + 5);
  }

  /** Rows as they stand in the table, each under its own run and stage and listed once. */
  ghost predicate StandIn(rows: seq<Checkpoint>, t: Tables) {
    && (forall k :: 0 <= k < |rows| ==>
          rows[k].runID != "" && Lookup(t, rows[k].runID, rows[k].stage) == Some(rows[k]))
    && forall k, l :: 0 <= k < l < |rows| ==> rows[k] != rows[l]
  }

  /** The rows that any run of the system leaves dispatched stand so. */
  lemma ListingStands(w: World, cs: seq<Choice>, rows: seq<Checkpoint>)
    requires Initial(w) && IsListing(rows, Execute(w, cs).tables, Dispatched)
    ensures StandIn(rows, Execute(w, cs).tables)
  {
    RunsKeepInv(w, cs);
    var u := Execute(w, cs);
    forall k | 0 <= k < |rows|
      ensures rows[k].runID != "" && Lookup(u.tables, rows[k].runID, rows[k].stage) == Some(rows[k])
    {
      assert rows[k] in u.tables.checkpoints.Values;
      var key :| key in u.tables.checkpoints && u.tables.checkpoints[key] == rows[k];
      assert RowOk(u.tables, u.log, key);
    }
  }

  /** What becomes of a listed row when every call succeeds: let through, its retries are counted up and it
      stays dispatched; held back, it is completed; of another stage or shape, it stays as it is. */
  function RowAfter(cp: Checkpoint, t: Tables, demands: Demands): Checkpoint {
    if !IsRow(cp) then cp
    else if LetThrough(cp, t, demands) then cp.(retries := cp.retries + 1)
    else cp.(status := Completed)
  }

  /** When every call succeeds, a resume leaves each listed row decided by its own topic, and every other row
      as it was. */
  lemma {:induction false} RowsDecidedByTopic(rows: seq<Checkpoint>, t: Tables, answers: Answers, from: nat,
                                              demands: Demands)
    requires AnswersBy(rows, t, answers, from, demands) && StandIn(rows, t)
    ensures Decided(rows, t, TallyOf(rows, t, answers, from).tables, demands)
  {
    if rows != [] {
      var front, cp := rows[..|rows| - 1], rows[|rows| - 1];
      var before := TallyOf(front, t, answers, from);
      assert Decided(front, t, before.tables, demands) by {
        FrontAnswersBy(rows, t, answers, from, demands);
        RowsDecidedByTopic(front, t, answers, from, demands);
      }
      OthersStand(rows, t);
      assert Lookup(before.tables, cp.runID, cp.stage) == Some(cp);
      RowTablesByTopic(cp, t, before.tables, answers, before.next, demands);
      OneRowMore(rows, t, before.tables, TallyOf(rows, t, answers, from).tables, demands);
    }
  }

  lemma FrontAnswersBy(rows: seq<Checkpoint>, t: Tables, answers: Answers, from: nat, demands: Demands)
    requires rows != [] && AnswersBy(rows, t, answers, from, demands)
    ensures AnswersBy(rows[..|rows| - 1], t, answers, from, demands)
    ensures StandIn(rows, t) ==> StandIn(rows[..|rows| - 1], t)
  {
    var front := rows[..|rows| - 1];
    forall k | 0 <= k < |front|
      ensures front[..k] == rows[..k] && front[k] == rows[k]
    {
    }
  }

  lemma OthersStand(rows: seq<Checkpoint>, t: Tables)
    requires StandIn(rows, t) && rows != []
    ensures var cp := rows[|rows| - 1];
      forall k :: 0 <= k < |rows| - 1 ==> !(rows[k].runID == cp.runID && rows[k].stage == cp.stage)
  {
    var cp := rows[|rows| - 1];
    forall k | 0 <= k < |rows| - 1
      ensures !(rows[k].runID == cp.runID && rows[k].stage == cp.stage)
    {
      assert Lookup(t, rows[k].runID, rows[k].stage) == Some(rows[k]);
    }
  }

  /** The tables `now` are decided for all rows but the last, `t'` for the last one too. */
  lemma OneRowMore(rows: seq<Checkpoint>, t: Tables, now: Tables, t': Tables, demands: Demands)
    requires rows != [] && Decided(rows[..|rows| - 1], t, now, demands)
    requires var cp := rows[|rows| - 1];
      && (forall k :: 0 <= k < |rows| - 1 ==> !(rows[k].runID == cp.runID && rows[k].stage == cp.stage))
      && Lookup(t', cp.runID, cp.stage) == Some(RowAfter(cp, t, demands))
      && forall run, stage :: !(cp.runID == run && cp.stage == stage) ==>
           Lookup(t', run, stage) == Lookup(now, run, stage)
    ensures Decided(rows, t, t', demands)
  {
    var front := rows[..|rows| - 1];
    assert forall k :: 0 <= k < |front| ==> front[k] == rows[k];
  }

  ghost predicate Decided(rows: seq<Checkpoint>, t: Tables, t': Tables, demands: Demands) {
    && (forall k :: 0 <= k < |rows| ==>
          Lookup(t', rows[k].runID, rows[k].stage) == Some(RowAfter(rows[k], t, demands)))
    && forall run, stage :: (forall k :: 0 <= k < |rows| ==> !(rows[k].runID == run && rows[k].stage == stage)) ==>
         Lookup(t', run, stage) == Lookup(t, run, stage)
  }

  lemma RowTablesByTopic(cp: Checkpoint, t: Tables, now: Tables, answers: Answers, from: nat, demands: Demands)
    requires forall n: nat :: Works(answers, n)
    requires IsRow(cp) && TopicOf(cp, t) != "" ==> answers(from + 2).requireApproval == demands(TopicOf(cp, t))
    requires cp.runID != "" && Lookup(now, cp.runID, cp.stage) == Some(cp)
    ensures var t' := RowTables(cp, t, now, answers, from);
      && Lookup(t', cp.runID, cp.stage) == Some(RowAfter(cp, t, demands))
      && forall run, stage :: !(cp.runID == run && cp.stage == stage) ==>
           Lookup(t', run, stage) == Lookup(now, run, stage)
  {
    RowByTopic(cp, t, answers, from, demands);
    if IsRow(cp) {
      var job := RowJob(cp, [], t, answers(from + 1));
      assert Works(answers, from + 1) && Works(answers, from + 2) && Works(answers, from + 3);
      assert Works(answers, from + 4) && Works(answers, GateEnd(job, answers, from + 2));
    }
  }

  /** One row, whose first step takes the answer `from`. */
  ghost predicate RowDone(cp: Checkpoint, t: Tables, t': Tables, answers: Answers, from: nat,
                          sent0: seq<Doc>, sent: seq<Doc>, republished: bool, waits: bool, next: nat)
  {
    && t' == RowTables(cp, t, t, answers, from)
    && republished == Republishes(cp, t, answers, from) && waits == HoldsBack(cp, t, answers, from)
    && sent == Append(sent0, Sends(cp, t, answers, from), PayloadOf(cp)) && next == RowEnd(cp, t, answers, from)
  }

  /** What follows the gate of a row completes the row. */
  lemma RowSettled(cp: Checkpoint, job: Job, t: Tables, t': Tables, answers: Answers, from: nat,
                   sent0: seq<Doc>, sent: seq<Doc>, republished: bool, waits: bool, next: nat)
    requires t' == SettledTables(t, cp, job, answers, from + 2)
    requires IsRow(cp) && job.payload == RowJob(cp, [], t, answers(from + 1)).payload
    requires republished <==> Passes(job, answers(from + 2)) && Works(answers, from + 3)
    requires (waits <==> Waits(job, answers, from + 2)) && next == SettledEnd(job, answers, from + 2)
    requires sent == Append(sent0, Passes(job, answers(from + 2)) && !answers(from + 3).reply.FailedBefore?,
                            DispatchOf(cp).value)
    ensures RowDone(cp, t, t', answers, from, sent0, sent, republished, waits, next)
  {
  }

  /** The state after some rows is what the tally says. */
  ghost predicate Counted(rows: seq<Checkpoint>, t: Tables, t': Tables, answers: Answers, from: nat,
                          sent0: seq<Doc>, sent: seq<Doc>, resumed: nat, skipped: nat, next: nat) {
    var y := TallyOf(rows, t, answers, from);
    sent == sent0 + y.sent && resumed == y.resumed && skipped == y.skipped && t' == y.tables && next == y.next
  }

  lemma SameRow(cp: Checkpoint, t: Tables, t': Tables, answers: Answers, from: nat)
    requires SameReceived(t, t')
    ensures Sends(cp, t, answers, from) == Sends(cp, t', answers, from)
    ensures Republishes(cp, t, answers, from) == Republishes(cp, t', answers, from)
    ensures HoldsBack(cp, t, answers, from) == HoldsBack(cp, t', answers, from)
    ensures RowEnd(cp, t, answers, from) == RowEnd(cp, t', answers, from)
    ensures RowTables(cp, t', t', answers, from) == RowTables(cp, t, t', answers, from)
  {
  }

  lemma CountsOneMore(rows: seq<Checkpoint>, n: nat, t0: Tables, t: Tables, t': Tables, answers: Answers,
                      from: nat, mid: nat, sent0: seq<Doc>, sent: seq<Doc>, sent': seq<Doc>,
                      resumed: nat, skipped: nat, republished: bool, waits: bool, next: nat)
    requires n < |rows| && SameReceived(t0, t)
    requires Counted(rows[..n], t0, t, answers, from, sent0, sent, resumed, skipped, mid)
    requires RowDone(rows[n], t, t', answers, mid, sent, sent', republished, waits, next)
    ensures Counted(rows[..n + 1], t0, t', answers, from, sent0, sent', resumed + if republished then 1 else 0,
                    skipped + if waits then 1 else 0, next)
  {
    SameRow(rows[n], t0, t, answers, mid);
    assert rows[..n + 1][..n] == rows[..n];
  }

  /** Resuming writes bootstrap rows only. */
  ghost predicate SameReceived(t: Tables, t': Tables) {
    forall run :: Lookup(t', run, STAGE_RUN_RECEIVED) == Lookup(t, run, STAGE_RUN_RECEIVED)
  }
}
