/** What the checkpoint table holds after any run, and what a worker can recover from it. */
module Recovery {
  import opened CheckpointStore
  import opened Documents
  import opened Payloads
  import opened WorkerProtocol
  import opened Wrappers

  // ---- recovery ----

  const YES := Answer(Fine, false, false, "")

  lemma {:induction false} ListingOf(t: Tables, cps: set<Checkpoint>) returns (rows: seq<Checkpoint>)
    ensures forall i, j :: 0 <= i < j < |rows| ==> rows[i] != rows[j]
    ensures forall cp :: cp in rows <==> cp in cps
    decreases cps
  {
    if cps == {} {
      return [];
    }
    var cp :| cp in cps;
    var rest := ListingOf(t, cps - {cp});
    rows := [cp] + rest;
  }

  /** The rows with a status, listed with a chosen one first. */
  lemma ListingStartingWith(t: Tables, cp: Checkpoint) returns (rows: seq<Checkpoint>)
    requires cp in t.checkpoints.Values && cp.status == Dispatched
    ensures IsListing(rows, t, Dispatched) && rows != [] && rows[0] == cp
  {
    var all := set c | c in t.checkpoints.Values && c.status == Dispatched;
    var rest := ListingOf(t, all - {cp});
    rows := [cp] + rest;
  }

  /** Four fine answers in a row take a worker from the head of the loop past the publication. */
  function Recovering(i: nat): seq<Choice> {
    [Advance(i, YES), Advance(i, YES), Advance(i, YES), Advance(i, YES)]
  }

  lemma {:induction false} ExecuteConcat(w: World, a: seq<Choice>, b: seq<Choice>)
    ensures Execute(w, a + b) == Execute(Execute(w, a), b)
  {
    if b == [] {
      assert a + b == a;
    } else {
      ExecuteConcat(w, a, b[..|b| - 1]);
      assert (a + b)[..|a + b| - 1] == a + b[..|b| - 1];
    }
  }

  lemma Execute4(w: World, a: Choice, b: Choice, c: Choice, d: Choice)
    ensures Execute(w, [a, b, c, d]) == Step(Step(Step(Step(w, a), b), c), d)
  {
    assert [a, b, c, d] == [a, b, c] + [d] && [a, b, c] == [a, b] + [c] && [a, b] == [a] + [b];
    ExecuteConcat(w, [a, b, c], [d]);
    ExecuteConcat(w, [a, b], [c]);
    ExecuteConcat(w, [a], [b]);
  }

  /** The event of a gate that lets a run through. */
  function PassedGate(run: string, topic: string): Event {
    if topic == "" then GateSkipped(run) else ConfigRead(run, topic, false)
  }

  /** The topic whose configuration a resume reads when the run's first checkpoint can be read. */
  function ResumeTopic(t: Tables, run: string, dispatch: Doc): string {
    Rebuilt(run, dispatch, Lookup(t, run, STAGE_RUN_RECEIVED)).topicID
  }

  /** From the head of the resume loop, a gate that passes and a publication that succeeds publish
      exactly the payload stored in the checkpoint. */
  lemma ResumePublishesStored(w: World, i: nat, cp: Checkpoint, todo: seq<Checkpoint>, dispatch: Doc)
    requires i < |w.workers| && w.workers[i] == Resuming([cp] + todo)
    requires cp.stage == STAGE_BOOTSTRAP && DispatchOf(cp) == Some(dispatch)
    ensures Execute(w, Recovering(i)).log
      == w.log + [PassedGate(cp.runID, ResumeTopic(w.tables, cp.runID, dispatch))] + [Published(cp.runID, dispatch)]
    ensures Execute(w, Recovering(i)).tables == w.tables
  {
    Execute4(w, Advance(i, YES), Advance(i, YES), Advance(i, YES), Advance(i, YES));
    var w2, payload := LoadsRow(w, i, cp, todo, dispatch);
    var w4 := PublishesRow(w2, i, Resume(cp, dispatch, payload, todo));
  }

  lemma LoadsRow(w: World, i: nat, cp: Checkpoint, todo: seq<Checkpoint>, dispatch: Doc)
    returns (w': World, payload: RunPayload)
    requires i < |w.workers| && w.workers[i] == Resuming([cp] + todo)
    requires cp.stage == STAGE_BOOTSTRAP && DispatchOf(cp) == Some(dispatch)
    ensures w' == Step(Step(w, Advance(i, YES)), Advance(i, YES))
    ensures i < |w'.workers| && w'.workers[i] == ReadingConfig(Resume(cp, dispatch, payload, todo))
    ensures payload == Rebuilt(cp.runID, dispatch, Lookup(w.tables, cp.runID, STAGE_RUN_RECEIVED))
    ensures w'.tables == w.tables && w'.log == w.log
  {
    assert ([cp] + todo)[1..] == todo;
    payload := Rebuilt(cp.runID, dispatch, Lookup(w.tables, cp.runID, STAGE_RUN_RECEIVED));
    var w1 := Moves(w, i, YES, Effect(w.tables, [], LoadingReceived(cp, dispatch, todo)));
    w' := Moves(w1, i, YES, Effect(w.tables, [], ReadingConfig(Resume(cp, dispatch, payload, todo))));
    assert w.log + [] + [] == w.log;
  }

  lemma PublishesRow(w: World, i: nat, job: Job) returns (w': World)
    requires i < |w.workers| && job.Resume? && w.workers[i] == ReadingConfig(job)
    ensures w' == Step(Step(w, Advance(i, YES)), Advance(i, YES))
    ensures w'.tables == w.tables
      && w'.log == w.log + [PassedGate(job.cp.runID, job.payload.topicID)] + [Published(job.cp.runID, job.dispatch)]
  {
    var w1 := Moves(w, i, YES, Effect(w.tables, [PassedGate(job.cp.runID, job.payload.topicID)],
                                      Redispatching(job.cp, job.dispatch, job.todo)));
    w' := Moves(w1, i, YES, Redispatch(w.tables, job.cp, job.dispatch, job.todo, Fine));
  }

  /** One step, given what it does. */
  lemma Moves(w: World, i: nat, a: Answer, e: Effect) returns (w': World)
    requires i < |w.workers| && !w.workers[i].Acking? && Act(w.tables, w.workers[i], a) == e
    ensures w' == Step(w, Advance(i, a)) && |w'.workers| == |w.workers|
    ensures w'.tables == e.tables && w'.log == w.log + e.events && i < |w'.workers| && w'.workers[i] == e.next
  {
    w' := Step(w, Advance(i, a));
  }

  // ---- the table is what the recorded writes make it ----

  /** The event writes the row of this run and stage. */
  predicate Writes(ev: Event, run: string, stage: string) {
    || (ev.Saved? && ev.cp.runID == run && ev.cp.stage == stage)
    || (ev.Marked? && ev.run == run && ev.stage == stage)
  }

  function Written(row: Option<Checkpoint>, ev: Event, run: string, stage: string): Option<Checkpoint> {
    if !Writes(ev, run, stage) then row
    else if ev.Saved? then Some(ev.cp)
    else if row.Some? then Some(row.value.(status := Completed))
    else None
  }

  /** The row that the writes of a history leave. */
  function Replay(log: seq<Event>, run: string, stage: string): Option<Checkpoint> {
    if log == [] then None
    else Written(Replay(log[..|log| - 1], run, stage), log[|log| - 1], run, stage)
  }

  lemma ActReplays(t: Tables, pc: Pc, a: Answer, run: string, stage: string)
    ensures var e := Act(t, pc, a);
      && |e.events| <= 1
      && Lookup(e.tables, run, stage)
         == if e.events == [] then Lookup(t, run, stage) else Written(Lookup(t, run, stage), e.events[0], run, stage)
  {
  }

  lemma ReplayMore(log: seq<Event>, events: seq<Event>, run: string, stage: string)
    requires |events| <= 1
    ensures Replay(log + events, run, stage)
         == if events == [] then Replay(log, run, stage) else Written(Replay(log, run, stage), events[0], run, stage)
  {
    if events == [] {
      assert log + events == log;
    } else {
      assert (log + events)[..|log|] == log;
    }
  }

  /** After any run of the system, every row of the table is the replay of the recorded writes: no crash,
      no delivery and no failing call changes the table in any other way. */
  lemma {:induction false} TableIsReplay(w: World, cs: seq<Choice>, run: string, stage: string)
    requires Initial(w)
    ensures Lookup(Execute(w, cs).tables, run, stage) == Replay(Execute(w, cs).log, run, stage)
  {
    if cs != [] {
      var before, c := Execute(w, cs[..|cs| - 1]), cs[|cs| - 1];
      TableIsReplay(w, cs[..|cs| - 1], run, stage);
      if c.Advance? && c.worker < |before.workers| {
        var e := Act(before.tables, before.workers[c.worker], c.answer);
        ActReplays(before.tables, before.workers[c.worker], c.answer, run, stage);
        ReplayMore(before.log, e.events, run, stage);
      }
    }
  }

  /** The `i`-th event is the last write of the row. */
  ghost predicate LastWrite(log: seq<Event>, i: nat, run: string, stage: string) {
    && i < |log| && Writes(log[i], run, stage)
    && forall j :: i < j < |log| ==> !Writes(log[j], run, stage)
  }

  lemma {:induction false} ReplayOfLastWrite(log: seq<Event>, i: nat, run: string, stage: string)
    requires LastWrite(log, i, run, stage) && log[i].Saved?
    ensures Replay(log, run, stage) == Some(log[i].cp)
  {
    var front := log[..|log| - 1];
    if i < |front| {
      assert LastWrite(front, i, run, stage);
      ReplayOfLastWrite(front, i, run, stage);
    }
  }

  lemma {:induction false} DispatchedIsLastSaved(log: seq<Event>, run: string, stage: string) returns (i: nat)
    requires Replay(log, run, stage).Some? && Replay(log, run, stage).value.status == Dispatched
    ensures LastWrite(log, i, run, stage) && log[i] == Saved(Replay(log, run, stage).value)
  {
    i := |log| - 1;
    if !Writes(log[i], run, stage) {
      i := DispatchedIsLastSaved(log[..|log| - 1], run, stage);
    }
  }

  ghost predicate LastWriteDispatches(log: seq<Event>, i: nat, run: string, stage: string) {
    LastWrite(log, i, run, stage) && log[i].Saved? && log[i].cp.status == Dispatched
  }

  predicate DispatchedIn(t: Tables, run: string, stage: string) {
    Lookup(t, run, stage).Some? && Lookup(t, run, stage).value.status == Dispatched
  }

  /** After any run, a row is dispatched, and so will be resumed, exactly when its last write was the
      save of a dispatched checkpoint. */
  lemma DispatchedIffLastWrite(w: World, cs: seq<Choice>, run: string, stage: string)
    requires Initial(w)
    ensures DispatchedIn(Execute(w, cs).tables, run, stage)
      <==> exists i :: LastWriteDispatches(Execute(w, cs).log, i, run, stage)
  {
    var log := Execute(w, cs).log;
    TableIsReplay(w, cs, run, stage);
    if DispatchedIn(Execute(w, cs).tables, run, stage) {
      var i := DispatchedIsLastSaved(log, run, stage);
      assert LastWriteDispatches(log, i, run, stage);
    }
    if i :| LastWriteDispatches(log, i, run, stage) {
      ReplayOfLastWrite(log, i, run, stage);
    }
  }

  // ---- nothing is lost ----

  /** Once a dispatched bootstrap checkpoint has been saved, and until the row is written again, every run
      with any crashes still has exactly that row, and any worker, even one that has just crashed, can
      still publish its payload. */
  lemma CrashLosesNothing(w: World, cs: seq<Choice>, at: nat, cp: Checkpoint, dispatch: Doc, i: nat)
    returns (more: seq<Choice>)
    requires Initial(w) && i < |Execute(w, cs).workers|
    requires LastWrite(Execute(w, cs).log, at, cp.runID, STAGE_BOOTSTRAP) && Execute(w, cs).log[at] == Saved(cp)
    requires IsDispatch(cp, cp.runID, dispatch)
    ensures Lookup(Execute(w, cs).tables, cp.runID, STAGE_BOOTSTRAP) == Some(cp)
    ensures var u := Execute(w, cs);
      Execute(w, cs + more).log == u.log + [PassedGate(cp.runID, ResumeTopic(u.tables, cp.runID, dispatch))]
                                 + [Published(cp.runID, dispatch)]
  {
    var w' := Execute(w, cs);
    TableIsReplay(w, cs, cp.runID, STAGE_BOOTSTRAP);
    ReplayOfLastWrite(w'.log, at, cp.runID, STAGE_BOOTSTRAP);
    assert (cp.runID, STAGE_BOOTSTRAP) in w'.tables.checkpoints.Keys;
    var rows := ListingStartingWith(w'.tables, cp);
    more := [Crash(i), StartResume(i, rows)] + Recovering(i);
    var w1 := Step(w', Crash(i));
    var w2 := Step(w1, StartResume(i, rows));
    assert rows == [cp] + rows[1..];
    ResumePublishesStored(w2, i, cp, rows[1..], dispatch);
    Execute2(w', Crash(i), StartResume(i, rows));
    ExecuteConcat(w', [Crash(i), StartResume(i, rows)], Recovering(i));
    ExecuteConcat(w, cs, more);
  }

  lemma Execute2(w: World, a: Choice, b: Choice)
    ensures Execute(w, [a, b]) == Step(Step(w, a), b)
  {
    assert [a, b] == [a] + [b];
    ExecuteConcat(w, [a], [b]);
  }

  // ---- a first dispatch whose publication fails is not resumed ----

  const NO := Answer(FailedBefore, false, false, "")

  /** One idle worker and one event. */
  function Fresh(e: Envelope): World {
    World(Tables({}, map[]), [Entry(e, Undelivered)], [Idle], [])
  }

  const ARRIVAL := [Deliver(0, 0), Advance(0, YES), Advance(0, YES), Advance(0, YES)]
  const SAVES := [Advance(0, YES), Advance(0, YES)]
  const FAILED_PUBLICATION := [Advance(0, NO), Advance(0, YES)]

  lemma OneWorker(w: World, a: Answer, e: Effect)
    requires |w.workers| == 1 && !w.workers[0].Acking? && Act(w.tables, w.workers[0], a) == e
    ensures Step(w, Advance(0, a)) == World(e.tables, w.stream, [e.next], w.log + e.events)
  {
  }

  /** Claim, decode and gate succeed. */
  lemma Arrives(e: Envelope, p: RunPayload) returns (w': World)
    requires Claimable(KeyOf(e)) && e.data == Some(p) && p.runID != ""
    ensures w' == Execute(Fresh(e), ARRIVAL) && w'.workers == [SavingReceived(0, e, p.runID, p)]
    ensures w'.log == [PastClaim(KeyOf(e)), PassedGate(p.runID, p.topicID)]
    ensures w'.tables == Tables({KeyOf(e)}, map[])
  {
    Execute4(Fresh(e), Deliver(0, 0), Advance(0, YES), Advance(0, YES), Advance(0, YES));
    var w1 := Step(Fresh(e), Deliver(0, 0));
    assert w1.workers == [Claiming(0, e)];
    var claimed, job := Tables({KeyOf(e)}, map[]), Start(0, e, p.runID, p);
    OneWorker(w1, YES, Effect(claimed, [PastClaim(KeyOf(e))], Decoding(0, e)));
    var w2 := Step(w1, Advance(0, YES));
    OneWorker(w2, YES, Effect(claimed, [], ReadingConfig(job)));
    var w3 := Step(w2, Advance(0, YES));
    OneWorker(w3, YES, Effect(claimed, [PassedGate(p.runID, p.topicID)], SavingReceived(0, e, p.runID, p)));
    w' := Step(w3, Advance(0, YES));
  }

  /** Both checkpoints are saved. */
  lemma SavesBoth(w: World, e: Envelope, p: RunPayload) returns (w': World)
    requires w.workers == [SavingReceived(0, e, p.runID, p)] && p.runID != ""
    ensures w' == Execute(w, SAVES) && w'.workers == [Dispatching(0, e, p.runID, p)]
    ensures var received := ReceivedCheckpoint(e, p.runID, p);
      var start := StartCheckpoint(p.runID, BootstrapTask(e, p.runID, p), 0);
      && w'.log == w.log + [Saved(received)] + [Saved(start)]
      && Lookup(w'.tables, p.runID, STAGE_BOOTSTRAP) == Some(start)
  {
    var received := ReceivedCheckpoint(e, p.runID, p);
    var start := StartCheckpoint(p.runID, BootstrapTask(e, p.runID, p), 0);
    Execute2(w, Advance(0, YES), Advance(0, YES));
    OneWorker(w, YES, Effect(Upserted(w.tables, received), [Saved(received)], SavingStart(0, e, p.runID, p)));
    var w1 := Step(w, Advance(0, YES));
    OneWorker(w1, YES, Effect(Upserted(w1.tables, start), [Saved(start)], Dispatching(0, e, p.runID, p)));
    w' := Step(w1, Advance(0, YES));
  }

  /** The publication fails, and the failure is recorded. */
  lemma FailsToDispatch(w: World, e: Envelope, p: RunPayload) returns (w': World)
    requires w.workers == [Dispatching(0, e, p.runID, p)] && p.runID != ""
    ensures var failure := FailureCheckpoint(p.runID, BootstrapTask(e, p.runID, p), 1, "publish failed");
      && w' == Execute(w, FAILED_PUBLICATION) && w'.workers == [Acking(0)]
      && w'.log == w.log + [Saved(failure)] && w'.tables == Upserted(w.tables, failure)
  {
    var failure := FailureCheckpoint(p.runID, BootstrapTask(e, p.runID, p), 1, "publish failed");
    Execute2(w, Advance(0, NO), Advance(0, YES));
    OneWorker(w, NO, Effect(w.tables, [], SavingFailure(0, e, p.runID, p)));
    var w1 := Step(w, Advance(0, NO));
    assert w1.log == w.log;
    OneWorker(w1, YES, Effect(Upserted(w1.tables, failure), [Saved(failure)], Acking(0)));
    w' := Step(w1, Advance(0, YES));
  }

  lemma InThreeParts(e: Envelope)
    ensures Execute(Fresh(e), ARRIVAL + SAVES + FAILED_PUBLICATION)
      == Execute(Execute(Execute(Fresh(e), ARRIVAL), SAVES), FAILED_PUBLICATION)
  {
    ExecuteConcat(Fresh(e), ARRIVAL, SAVES);
    ExecuteConcat(Fresh(e), ARRIVAL + SAVES, FAILED_PUBLICATION);
  }

  lemma FailedRow(t: Tables, run: string, task: TaskInfo)
    requires StageOf(task) == STAGE_BOOTSTRAP
    ensures var row := Lookup(Upserted(t, FailureCheckpoint(run, task, 1, "publish failed")), run, STAGE_BOOTSTRAP);
      row.Some? && row.value.status == Completed
  {
  }

  lemma NothingPublished(log: seq<Event>, log': seq<Event>, last: Event)
    requires log' == log + [last] && !last.Published? && forall i :: 0 <= i < |log| ==> !log[i].Published?
    ensures forall ev :: ev in log' ==> !ev.Published?
  {
  }

  /** Nothing has been published, and the row of the run is not one that a resume lists. */
  ghost predicate GivenUp(w: World, run: string) {
    && w.workers == [Acking(0)]
    && (forall ev :: ev in w.log ==> !ev.Published?)
    && Lookup(w.tables, run, STAGE_BOOTSTRAP).Some?
    && !DispatchedIn(w.tables, run, STAGE_BOOTSTRAP)
  }

  lemma GivesUp(w: World, u: World, w': World, e: Envelope, p: RunPayload)
    requires |u.log| == |w.log| + 2 && w.log <= u.log && u.log[|w.log|].Saved? && u.log[|w.log| + 1].Saved?
    requires forall i :: 0 <= i < |w.log| ==> !w.log[i].Published?
    requires var failure := FailureCheckpoint(p.runID, BootstrapTask(e, p.runID, p), 1, "publish failed");
      w'.workers == [Acking(0)] && w'.log == u.log + [Saved(failure)] && w'.tables == Upserted(u.tables, failure)
    ensures GivenUp(w', p.runID)
  {
    var task := BootstrapTask(e, p.runID, p);
    FailedRow(u.tables, p.runID, task);
    forall i | 0 <= i < |u.log|
      ensures !u.log[i].Published?
    {
      assert i < |w.log| ==> u.log[i] == w.log[i];
    }
    NothingPublished(u.log, w'.log, Saved(FailureCheckpoint(p.runID, task, 1, "publish failed")));
  }

  lemma FailedRun(e: Envelope, p: RunPayload) returns (w': World)
    requires Claimable(KeyOf(e)) && e.data == Some(p) && p.runID != ""
    ensures w' == Execute(Execute(Execute(Fresh(e), ARRIVAL), SAVES), FAILED_PUBLICATION)
    ensures GivenUp(w', p.runID)
  {
    var w := Arrives(e, p);
    var u := SavesBoth(w, e, p);
    w' := FailsToDispatch(u, e, p);
    GivesUp(w, u, w', e, p);
  }

  /** A first dispatch whose publication fails is not resumed: this run of the system ends with
      nothing published and nothing to resume. */
  lemma FailedDispatchIsNotResumed(e: Envelope, p: RunPayload)
    requires Claimable(KeyOf(e)) && e.data == Some(p) && p.runID != ""
    ensures Initial(Fresh(e))
    ensures GivenUp(Execute(Fresh(e), ARRIVAL + SAVES + FAILED_PUBLICATION), p.runID)
  {
    InThreeParts(e);
    var w' := FailedRun(e, p);
  }
}
