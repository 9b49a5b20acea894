/** The worker's handlers as they are written, each shown to be a run of the protocol's steps. */
module Processor {
  import opened Answering
  import opened Wrappers
  import opened Documents
  import opened CheckpointStore
  import opened Payloads
  import opened Recovery
  import opened WorkerProtocol

  /** What has been sent after one more step. */
  ghost function SentAfter(sent: seq<Doc>, events: seq<Event>): seq<Doc> {
    if events != [] && events[0].Published? then sent + [events[0].dispatch] else sent
  }

  /** The payloads put on the task stream, in order. */
  ghost function Sent(log: seq<Event>): seq<Doc> {
    if log == [] then [] else SentAfter(Sent(log[..|log| - 1]), [log[|log| - 1]])
  }

  lemma SentMore(log: seq<Event>, events: seq<Event>)
    requires |events| <= 1
    ensures Sent(log + events) == SentAfter(Sent(log), events)
  {
    if events == [] {
      assert log + events == log;
    } else {
      assert (log + events)[..|log|] == log;
    }
  }

  class Publisher {
    var sent: seq<Doc>

    constructor ()
      ensures sent == []
    {
      sent := [];
    }

    method PublishRaw(payload: Doc, reply: Reply) returns (err: bool)
      modifies this
      ensures sent == Append(old(sent), !reply.FailedBefore?, payload)
      ensures err <==> !reply.Fine?
    {
      if reply.FailedBefore? {
        return true;
      }
      sent := sent + [payload];
      return reply.FailedAfter?;
    }
  }

  // ---- a worker driven by given answers ----

  /** The worlds that worker `i` passes through, taking the answers `from` to `next - 1`. */
  ghost predicate IsPath(path: seq<World>, w: World, i: nat, answers: Answers, from: nat, next: nat, w': World) {
    && from <= next && |path| == next - from + 1 && path[0] == w && path[next - from] == w'
    && forall k :: 0 <= k < next - from ==> StepAt(path, i, answers, from, k)
  }

  ghost predicate StepAt(path: seq<World>, i: nat, answers: Answers, from: nat, k: nat)
    requires k + 1 < |path|
  {
    path[k + 1] == Step(path[k], Advance(i, answers(from + k)))
  }

  /** Taking these answers brings worker `i` from `w` to `w'`. */
  ghost predicate Drives(w: World, i: nat, answers: Answers, from: nat, next: nat, w': World) {
    exists path :: IsPath(path, w, i, answers, from, next, w')
  }

  lemma Stays(w: World, i: nat, answers: Answers, from: nat)
    ensures Drives(w, i, answers, from, from, w)
  {
    assert IsPath([w], w, i, answers, from, from, w);
  }

  lemma StepsOn(w: World, i: nat, answers: Answers, from: nat, next: nat, u: World)
    requires Drives(w, i, answers, from, next, u)
    ensures from <= next && Drives(w, i, answers, from, next + 1, Step(u, Advance(i, answers(next))))
  {
    var path :| IsPath(path, w, i, answers, from, next, u);
    var u' := Step(u, Advance(i, answers(next)));
    var longer := path + [u'];
    forall k | 0 <= k < next + 1 - from
      ensures StepAt(longer, i, answers, from, k)
    {
      assert k < next - from ==> StepAt(path, i, answers, from, k);
    }
    assert IsPath(longer, w, i, answers, from, next + 1, u');
  }

  lemma DriveConcat(w: World, i: nat, answers: Answers, from: nat, mid: nat, u: World, next: nat, v: World)
    requires Drives(w, i, answers, from, mid, u) && Drives(u, i, answers, mid, next, v)
    ensures Drives(w, i, answers, from, next, v)
  {
    var a :| IsPath(a, w, i, answers, from, mid, u);
    var b :| IsPath(b, u, i, answers, mid, next, v);
    var path := a + b[1..];
    forall k | 0 <= k < next - from
      ensures StepAt(path, i, answers, from, k)
    {
      if k < mid - from {
        assert StepAt(a, i, answers, from, k);
      } else {
        assert StepAt(b, i, answers, mid, k - (mid - from));
      }
    }
    assert IsPath(path, w, i, answers, from, next, v);
  }

  /** Driving a worker is a run of the system, so everything proved of runs holds of it. */
  lemma DriveIsRun(w: World, i: nat, answers: Answers, from: nat, next: nat, w': World) returns (cs: seq<Choice>)
    requires Drives(w, i, answers, from, next, w')
    ensures Execute(w, cs) == w'
  {
    var path :| IsPath(path, w, i, answers, from, next, w');
    cs := PathIsRun(path, w, i, answers, from, next, w');
  }

  lemma {:induction false} PathIsRun(path: seq<World>, w: World, i: nat, answers: Answers, from: nat,
                                     next: nat, w': World)
    returns (cs: seq<Choice>)
    requires IsPath(path, w, i, answers, from, next, w')
    ensures Execute(w, cs) == w'
    decreases next - from
  {
    if from == next {
      cs := [];
    } else {
      var n := next - from - 1;
      var shorter := path[..n + 1];
      forall k | 0 <= k < n
        ensures StepAt(shorter, i, answers, from, k)
      {
        assert StepAt(path, i, answers, from, k);
      }
      var before := PathIsRun(shorter, w, i, answers, from, next - 1, path[n]);
      assert StepAt(path, i, answers, from, n);
      cs := before + [Advance(i, answers(next - 1))];
      assert cs[..|before|] == before;
    }
  }

  /** The protocol's state is that of the actual store and publisher, with worker `i` at `pc`. */
  ghost predicate Mirrors(w: World, i: nat, pc: Pc, store: Store, pub: Publisher)
    reads store, pub
  {
    i < |w.workers| && w.workers[i] == pc && w.tables == store.Now() && Sent(w.log) == pub.sent
  }

  /** One more step of worker `i`, with its known effect. */
  lemma Follow(w: World, i: nat, answers: Answers, from: nat, next: nat, u: World, e: Effect) returns (u': World)
    requires Drives(w, i, answers, from, next, u) && i < |u.workers|
    requires e == Act(u.tables, u.workers[i], answers(next)) && |e.events| <= 1
    ensures Drives(w, i, answers, from, next + 1, u')
    ensures i < |u'.workers| && u'.workers[i] == e.next && u'.tables == e.tables
    ensures Sent(u'.log) == SentAfter(Sent(u.log), e.events)
  {
    StepsOn(w, i, answers, from, next, u);
    u' := Apply(u, i, answers(next));
    SentMore(u.log, e.events);
  }

  class Worker {
    const store: Store
    const publisher: Publisher

    constructor (store: Store, publisher: Publisher)
      ensures this.store == store && this.publisher == publisher
    {
      this.store, this.publisher := store, publisher;
    }

    /** The budget gate. */
    method EnforceBudgetGate(job: Job, answers: Answers, from: nat, ghost w: World, ghost i: nat)
      returns (skip: bool, err: bool, next: nat, ghost w': World)
      requires Mirrors(w, i, ReadingConfig(job), store, publisher)
      ensures Drives(w, i, answers, from, next, w')
      ensures Mirrors(w', i, if err then Abandon(job) else if skip then Skip(job) else Pass(job), store, publisher)
      ensures GateSays(job, answers, from, skip, err) && next == GateEnd(job, answers, from)
    {
      var a := answers(from);
      Stays(w, i, answers, from);
      w' := Follow(w, i, answers, from, from, w, ReadConfig(w.tables, job, a));
      next := from + 1;
      if job.payload.topicID == "" {
        return false, false, next, w';
      }
      if !a.reply.Fine? {
        return false, true, next, w';
      }
      if !a.requireApproval {
        return false, false, next, w';
      }
      ghost var u := w';
      skip, err, next, w' := RequestApproval(job, answers, from + 1, w', i);
      DriveConcat(w, i, answers, from, from + 1, u, next, w');
    }

    /** Marks the run as waiting and asks for approval unless one is already pending for the topic. */
    method RequestApproval(job: Job, answers: Answers, from: nat, ghost w: World, ghost i: nat)
      returns (skip: bool, err: bool, next: nat, ghost w': World)
      requires Mirrors(w, i, MarkingPending(job), store, publisher)
      ensures Drives(w, i, answers, from, next, w')
      ensures Mirrors(w', i, if err then Abandon(job) else Skip(job), store, publisher)
      ensures skip && (err <==> RequestFails(answers, from)) && next == RequestEnd(answers, from)
    {
      Stays(w, i, answers, from);
      w' := Follow(w, i, answers, from, from, w,
                   Effect(w.tables, [], if Works(answers, from) then FindingApproval(job) else Abandon(job)));
      if !answers(from).reply.Fine? {
        return true, true, from + 1, w';
      }
      var existing := answers(from + 1);
      w' := Follow(w, i, answers, from, from + 1, w',
                   Effect(w.tables, [],
                          if existing.reply.Fine? && existing.approvalPending
                            then Skip(job) else CreatingApproval(job)));
      if existing.reply.Fine? && existing.approvalPending {
        return true, false, from + 2, w';
      }
      ghost var u := w';
      err, next, w' := CreateRequest(job, answers, from + 2, w', i);
      DriveConcat(w, i, answers, from, from + 2, u, next, w');
      return true, err, next, w';
    }

    method CreateRequest(job: Job, answers: Answers, from: nat, ghost w: World, ghost i: nat)
      returns (err: bool, next: nat, ghost w': World)
      requires Mirrors(w, i, CreatingApproval(job), store, publisher)
      ensures Drives(w, i, answers, from, next, w')
      ensures Mirrors(w', i, if err then Abandon(job) else Skip(job), store, publisher)
      ensures (err <==> !Works(answers, from)) && next == from + if err then 1 else 2
    {
      Stays(w, i, answers, from);
      w' := Follow(w, i, answers, from, from, w, CreateApproval(w.tables, job, answers(from).reply));
      if !answers(from).reply.Fine? {
        return true, from + 1, w';
      }
      w' := Follow(w, i, answers, from, from + 1, w', Effect(w.tables, [], Skip(job)));
      return false, from + 2, w';
    }

    /** Consumes one run event: claim it, then work on it. */
    method HandleRunEnqueued(msg: nat, env: Envelope, answers: Answers, from: nat, ghost w: World, ghost i: nat)
      returns (err: bool, next: nat, ghost w': World)
      requires Mirrors(w, i, Claiming(msg, env), store, publisher)
      modifies store, publisher
      ensures Drives(w, i, answers, from, next, w') && Mirrors(w', i, Acking(msg), store, publisher)
      ensures publisher.sent == if Takes(old(store.claims), env, answers(from))
        then AfterHandling(old(publisher.sent), msg, env, answers, from + 1) else old(publisher.sent)
      ensures var claims := old(store.claims)
          + if Claimable(KeyOf(env)) && !answers(from).reply.FailedBefore? then {KeyOf(env)} else {};
        store.Now() == if Takes(old(store.claims), env, answers(from))
                       then HandledTables(old(store.Now()).(claims := claims), msg, env, answers, from + 1)
                       else old(store.Now()).(claims := claims)
      ensures err <==> !Claimable(KeyOf(env)) || !Works(answers, from)
                       || (Takes(old(store.claims), env, answers(from)) && HandlingFails(msg, env, answers, from + 1))
    {
      Stays(w, i, answers, from);
      w' := Follow(w, i, answers, from, from, w, Claim(w.tables, msg, env, answers(from).reply));
      var claimed;
      claimed, err := store.ClaimIdempotency(env.eventType, env.eventID, answers(from).reply);
      if err || !claimed {
        return err, from + 1, w';
      }
      ghost var u := w';
      err, next, w' := HandleClaimed(msg, env, answers, from + 1, w', i);
      DriveConcat(w, i, answers, from, from + 1, u, next, w');
    }

    /** Decodes the event, creates its run if need be, passes the gate and starts the run's bootstrap task. */
    method HandleClaimed(msg: nat, env: Envelope, answers: Answers, from: nat, ghost w: World, ghost i: nat)
      returns (err: bool, next: nat, ghost w': World)
      requires Mirrors(w, i, Decoding(msg, env), store, publisher)
      modifies store, publisher
      ensures Drives(w, i, answers, from, next, w') && Mirrors(w', i, Acking(msg), store, publisher)
      ensures publisher.sent == AfterHandling(old(publisher.sent), msg, env, answers, from)
      ensures store.Now() == HandledTables(old(store.Now()), msg, env, answers, from)
      ensures err <==> HandlingFails(msg, env, answers, from)
    {
      var decoded := answers(from);
      Stays(w, i, answers, from);
      w' := Follow(w, i, answers, from, from, w, Decode(w.tables, msg, env, decoded));
      if env.data.None? {
        return true, from + 1, w';
      }
      var payload := env.data.value;
      var runID := payload.runID;
      if runID == "" {
        if !decoded.reply.Fine? || decoded.newRun == "" {
          return true, from + 1, w';
        }
        runID := decoded.newRun;
      }
      ghost var u := w';
      err, next, w' := GateRun(msg, env, runID, payload, answers, from + 1, w', i);
      DriveConcat(w, i, answers, from, from + 1, u, next, w');
      RunSettled(msg, env, runID, payload, answers, from, old(publisher.sent), publisher.sent, err);
    }

    method GateRun(msg: nat, env: Envelope, runID: string, payload: RunPayload, answers: Answers, from: nat,
                   ghost w: World, ghost i: nat)
      returns (err: bool, next: nat, ghost w': World)
      requires Mirrors(w, i, ReadingConfig(Start(msg, env, runID, payload)), store, publisher) && runID != ""
      modifies store, publisher
      ensures Drives(w, i, answers, from, next, w') && Mirrors(w', i, Acking(msg), store, publisher)
      ensures var starts := Passes(Start(msg, env, runID, payload), answers(from)) && Works(answers, from + 1)
        && Works(answers, from + 2);
        && publisher.sent == Append(old(publisher.sent), starts && !answers(from + 3).reply.FailedBefore?,
                                  DispatchDoc(env, runID, payload))
        && (err <==> RunFails(Start(msg, env, runID, payload), answers, from))
      ensures store.Now() == if Passes(Start(msg, env, runID, payload), answers(from))
        then StartTables(old(store.Now()), env, runID, payload, answers, from + 1) else old(store.Now())
    {
      var skip;
      skip, err, next, w' := EnforceBudgetGate(Start(msg, env, runID, payload), answers, from, w, i);
      GateMeans(Start(msg, env, runID, payload), answers, from, skip, err);
      if err || skip {
        return err, next, w';
      }
      ghost var u := w';
      err, next, w' := StartRun(msg, env, runID, payload, answers, from + 1, w', i);
      DriveConcat(w, i, answers, from, from + 1, u, next, w');
    }

    /** Records the run and runs its bootstrap task, which publishes the dispatch; one attempt only. */
    method StartRun(msg: nat, env: Envelope, runID: string, payload: RunPayload, answers: Answers, from: nat,
                    ghost w: World, ghost i: nat)
      returns (err: bool, next: nat, ghost w': World)
      requires Mirrors(w, i, SavingReceived(msg, env, runID, payload), store, publisher)
      modifies store, publisher
      ensures Drives(w, i, answers, from, next, w') && Mirrors(w', i, Acking(msg), store, publisher)
      ensures var saved := runID != "" && Works(answers, from) && Works(answers, from + 1);
        publisher.sent == Append(old(publisher.sent), saved && !answers(from + 2).reply.FailedBefore?,
                                  DispatchDoc(env, runID, payload))
      ensures err <==> !(runID != "" && Works(answers, from) && Works(answers, from + 1) && Works(answers, from + 2))
      ensures store.Now() == StartTables(old(store.Now()), env, runID, payload, answers, from)
    {
      Stays(w, i, answers, from);
      w' := Follow(w, i, answers, from, from, w,
                   Save(w.tables, ReceivedCheckpoint(env, runID, payload), answers(from).reply,
                        SavingStart(msg, env, runID, payload), Acking(msg)));
      err := store.UpsertCheckpoint(ReceivedCheckpoint(env, runID, payload), answers(from).reply);
      if err {
        return err, from + 1, w';
      }
      ghost var u, received := w', store.Now();
      assert received == Keep(old(store.Now()), ReceivedCheckpoint(env, runID, payload), answers(from));
      err, next, w' := ExecuteBootstrap(msg, env, runID, payload, answers, from + 1, w', i);
      assert store.Now() == BootstrapTables(received, env, runID, payload, answers, from + 1);
      DriveConcat(w, i, answers, from, from + 1, u, next, w');
    }

    /** The one task of the bootstrap graph, attempted once. */
    method ExecuteBootstrap(msg: nat, env: Envelope, runID: string, payload: RunPayload, answers: Answers, from: nat,
                            ghost w: World, ghost i: nat)
      returns (err: bool, next: nat, ghost w': World)
      requires Mirrors(w, i, SavingStart(msg, env, runID, payload), store, publisher)
      modifies store, publisher
      ensures Drives(w, i, answers, from, next, w') && Mirrors(w', i, Acking(msg), store, publisher)
      ensures var sends := runID != "" && Works(answers, from) && !answers(from + 1).reply.FailedBefore?;
        publisher.sent == Append(old(publisher.sent), sends, DispatchDoc(env, runID, payload))
      ensures err <==> !(runID != "" && Works(answers, from) && Works(answers, from + 1))
      ensures store.Now() == BootstrapTables(old(store.Now()), env, runID, payload, answers, from)
    {
      var t := BootstrapTask(env, runID, payload);
      Stays(w, i, answers, from);
      w' := Follow(w, i, answers, from, from, w,
                   Save(w.tables, StartCheckpoint(runID, t, 0), answers(from).reply,
                        Dispatching(msg, env, runID, payload), Acking(msg)));
      err := SaveTaskStart(store, runID, t, 0, answers(from).reply);
      if err {
        return err, from + 1, w';
      }
      ghost var u := w';
      err, next, w' := DispatchBootstrap(msg, env, runID, payload, answers, from + 1, w', i);
      DriveConcat(w, i, answers, from, from + 1, u, next, w');
    }

    method DispatchBootstrap(msg: nat, env: Envelope, runID: string, payload: RunPayload, answers: Answers, from: nat,
                             ghost w: World, ghost i: nat)
      returns (err: bool, next: nat, ghost w': World)
      requires Mirrors(w, i, Dispatching(msg, env, runID, payload), store, publisher)
      modifies store, publisher
      ensures Drives(w, i, answers, from, next, w') && Mirrors(w', i, Acking(msg), store, publisher)
      ensures publisher.sent == Append(old(publisher.sent), !answers(from).reply.FailedBefore?,
                                       DispatchDoc(env, runID, payload))
      ensures err <==> !Works(answers, from)
      ensures var failure := FailureCheckpoint(runID, BootstrapTask(env, runID, payload), 1, "publish failed");
        store.Now() == if err then Keep(old(store.Now()), failure, answers(from + 1)) else old(store.Now())
    {
      Stays(w, i, answers, from);
      w' := Follow(w, i, answers, from, from, w, Dispatch(w.tables, msg, env, runID, payload, answers(from).reply));
      err := publisher.PublishRaw(DispatchDoc(env, runID, payload), answers(from).reply);
      next := from + 1;
      if err {
        ghost var u := w';
        next, w' := RecordFailure(msg, env, runID, payload, answers, from + 1, w', i);
        DriveConcat(w, i, answers, from, from + 1, u, next, w');
      }
    }

    method RecordFailure(msg: nat, env: Envelope, runID: string, payload: RunPayload, answers: Answers, from: nat,
                         ghost w: World, ghost i: nat)
      returns (next: nat, ghost w': World)
      requires Mirrors(w, i, SavingFailure(msg, env, runID, payload), store, publisher)
      modifies store
      ensures Drives(w, i, answers, from, next, w') && Mirrors(w', i, Acking(msg), store, publisher)
      ensures store.Now() == Keep(old(store.Now()), FailureCheckpoint(runID, BootstrapTask(env, runID, payload), 1,
                                                                      "publish failed"), answers(from))
    {
      var t := BootstrapTask(env, runID, payload);
      Stays(w, i, answers, from);
      w' := Follow(w, i, answers, from, from, w,
                   Save(w.tables, FailureCheckpoint(runID, t, 1, "publish failed"), answers(from).reply,
                        Acking(msg), Acking(msg)));
      var saveErr := SaveTaskFailure(store, runID, t, 1, "publish failed", answers(from).reply);
      next := from + 1;
    }

    /** Re-dispatches what the checkpoint table says was dispatched. The first answer is that of the listing. */
    method ResumePending(answers: Answers, from: nat, ghost w: World, ghost i: nat)
      returns (resumed: nat, skipped: nat, next: nat, ghost rows: seq<Checkpoint>, ghost w': World)
      requires Mirrors(w, i, Idle, store, publisher)
      modifies store, publisher
      ensures Mirrors(w', i, Idle, store, publisher)
      ensures if Works(answers, from)
        then Drives(Step(w, StartResume(i, rows)), i, answers, from + 1, next, w') else w' == w
      ensures IsListing(rows, old(store.Now()), Dispatched)
      ensures if Works(answers, from)
        then Counted(rows, old(store.Now()), store.Now(), answers, from + 1, old(publisher.sent), publisher.sent,
                     resumed, skipped, next - 1)
        else
          && publisher.sent == old(publisher.sent) && store.Now() == old(store.Now())
          && resumed == skipped == 0 && next == from + 1
    {
      var listed := store.ListCheckpointsByStatus(Dispatched);
      rows := listed;
      if !answers(from).reply.Fine? {
        return 0, 0, from + 1, rows, w;
      }
      ghost var w0 := Step(w, StartResume(i, listed));
      resumed, skipped, next, w' := ResumeRows(listed, answers, from + 1, w0, i);
      w' := Follow(w0, i, answers, from + 1, next, w', NextRow(w'.tables, []));
      next := next + 1;
    }

    method ResumeRows(rows: seq<Checkpoint>, answers: Answers, from: nat, ghost w: World, ghost i: nat)
      returns (resumed: nat, skipped: nat, next: nat, ghost w': World)
      requires Mirrors(w, i, Resuming(rows), store, publisher)
      modifies store, publisher
      ensures Drives(w, i, answers, from, next, w') && Mirrors(w', i, Resuming([]), store, publisher)
      ensures Counted(rows, old(store.Now()), store.Now(), answers, from, old(publisher.sent), publisher.sent,
                      resumed, skipped, next)
    {
      resumed, skipped, next, w' := 0, 0, from, w;
      Stays(w, i, answers, from);
      assert rows[0..] == rows;
      for n := 0 to |rows|
        invariant Drives(w, i, answers, from, next, w') && Mirrors(w', i, Resuming(rows[n..]), store, publisher)
        invariant SameReceived(old(store.Now()), store.Now())
        invariant Counted(rows[..n], old(store.Now()), store.Now(), answers, from, old(publisher.sent), publisher.sent,
                          resumed, skipped, next)
      {
        var republished, waits;
        ghost var before, t, sent := next, store.Now(), publisher.sent;
        assert rows[n..][0] == rows[n] && rows[n..][1..] == rows[n + 1..];
        ghost var u := w';
        republished, waits, next, w' := ResumeRow(rows[n], rows[n + 1..], answers, next, w', i);
        DriveConcat(w, i, answers, from, before, u, next, w');
        CountsOneMore(rows, n, old(store.Now()), t, store.Now(), answers, from, before, old(publisher.sent), sent,
                      publisher.sent, resumed, skipped, republished, waits, next);
        resumed := resumed + if republished then 1 else 0;
        skipped := skipped + if waits then 1 else 0;
      }
      assert rows[..|rows|] == rows;
    }

    method ResumeRow(cp: Checkpoint, todo: seq<Checkpoint>, answers: Answers, from: nat, ghost w: World, ghost i: nat)
      returns (republished: bool, waits: bool, next: nat, ghost w': World)
      requires i < |w.workers| && w.workers[i].Resuming? && w.workers[i].todo != []
      requires w.workers[i].todo[0] == cp && w.workers[i].todo[1..] == todo
      requires Mirrors(w, i, w.workers[i], store, publisher)
      modifies store, publisher
      ensures Drives(w, i, answers, from, next, w') && Mirrors(w', i, Resuming(todo), store, publisher)
      ensures SameReceived(old(store.Now()), store.Now())
      ensures RowDone(cp, old(store.Now()), store.Now(), answers, from, old(publisher.sent), publisher.sent,
                      republished, waits, next)
    {
      Stays(w, i, answers, from);
      w' := Follow(w, i, answers, from, from, w, NextRow(w.tables, w.workers[i].todo));
      if cp.stage != STAGE_BOOTSTRAP || DispatchOf(cp).None? {
        return false, false, from + 1, w';
      }
      var dispatch := DispatchOf(cp).value;
      var payload := BuildResumePayload(store, cp.runID, dispatch, answers(from + 1).reply);
      w' := Follow(w, i, answers, from, from + 1, w',
                   LoadReceived(w'.tables, cp, dispatch, todo, answers(from + 1).reply));
      ghost var u := w';
      republished, waits, next, w' := GateRow(cp, dispatch, payload, todo, answers, from + 2, w', i);
      DriveConcat(w, i, answers, from, from + 2, u, next, w');
      RowSettled(cp, Resume(cp, dispatch, payload, todo), old(store.Now()), store.Now(), answers, from,
                 old(publisher.sent), publisher.sent, republished, waits, next);
    }

    method GateRow(cp: Checkpoint, dispatch: Doc, payload: RunPayload, todo: seq<Checkpoint>,
                   answers: Answers, from: nat, ghost w: World, ghost i: nat)
      returns (republished: bool, waits: bool, next: nat, ghost w': World)
      requires cp.stage == STAGE_BOOTSTRAP
      requires Mirrors(w, i, ReadingConfig(Resume(cp, dispatch, payload, todo)), store, publisher)
      modifies store, publisher
      ensures Drives(w, i, answers, from, next, w') && Mirrors(w', i, Resuming(todo), store, publisher)
      ensures SameReceived(old(store.Now()), store.Now())
      ensures var job := Resume(cp, dispatch, payload, todo);
        && (republished <==> Passes(job, answers(from)) && Works(answers, from + 1))
        && (waits <==> Waits(job, answers, from)) && next == SettledEnd(job, answers, from)
        && store.Now() == SettledTables(old(store.Now()), cp, job, answers, from)
        && publisher.sent == Append(old(publisher.sent),
                                  Passes(job, answers(from)) && !answers(from + 1).reply.FailedBefore?,
                                  dispatch)
    {
      var skip, err;
      skip, err, next, w' := EnforceBudgetGate(Resume(cp, dispatch, payload, todo), answers, from, w, i);
      GateMeans(Resume(cp, dispatch, payload, todo), answers, from, skip, err);
      if err {
        return false, false, next, w';
      }
      ghost var mid := next;
      ghost var u := w';
      republished, next, w' := SettleRow(skip, cp, dispatch, payload, todo, answers, next, w', i);
      DriveConcat(w, i, answers, from, mid, u, next, w');
      return republished, skip, next, w';
    }

    /** After the gate: the row is held back or republished. */
    method SettleRow(skip: bool, cp: Checkpoint, dispatch: Doc, payload: RunPayload, todo: seq<Checkpoint>,
                     answers: Answers, from: nat, ghost w: World, ghost i: nat)
      returns (republished: bool, next: nat, ghost w': World)
      requires cp.stage == STAGE_BOOTSTRAP
      requires var job := Resume(cp, dispatch, payload, todo);
        Mirrors(w, i, if skip then Skip(job) else Pass(job), store, publisher)
      modifies store, publisher
      ensures Drives(w, i, answers, from, next, w') && Mirrors(w', i, Resuming(todo), store, publisher)
      ensures SameReceived(old(store.Now()), store.Now())
      ensures republished <==> !skip && Works(answers, from)
      ensures next == from + if republished then 2 else 1
      ensures store.Now() == if skip && !answers(from).reply.FailedBefore?
          then MarkedAs(old(store.Now()), cp.runID, cp.stage, Completed)
        else if republished then Keep(old(store.Now()), cp.(retries := cp.retries + 1), answers(from + 1))
        else old(store.Now())
      ensures publisher.sent == Append(old(publisher.sent), !skip && !answers(from).reply.FailedBefore?, dispatch)
    {
      if skip {
        next, w' := HoldRow(cp, todo, answers, from, w, i);
        return false, next, w';
      }
      republished, next, w' := RepublishRow(cp, dispatch, todo, answers, from, w, i);
    }

    /** A row that waits for approval is marked completed; a later dispatched save can make it resumable
        again, for instance by a worker with an older listing. */
    method HoldRow(cp: Checkpoint, todo: seq<Checkpoint>, answers: Answers, from: nat, ghost w: World, ghost i: nat)
      returns (next: nat, ghost w': World)
      requires cp.stage == STAGE_BOOTSTRAP
      requires Mirrors(w, i, MarkingCompleted(cp, todo), store, publisher)
      modifies store
      ensures Drives(w, i, answers, from, next, w') && Mirrors(w', i, Resuming(todo), store, publisher)
      ensures SameReceived(old(store.Now()), store.Now())
      ensures next == from + 1
      ensures store.Now() == if answers(from).reply.FailedBefore? then old(store.Now())
        else MarkedAs(old(store.Now()), cp.runID, cp.stage, Completed)
    {
      Stays(w, i, answers, from);
      w' := Follow(w, i, answers, from, from, w, MarkCompleted(w.tables, cp, todo, answers(from).reply));
      var markErr := store.MarkCheckpointStatus(cp.runID, cp.stage, Completed, answers(from).reply);
      next := from + 1;
    }

    method RepublishRow(cp: Checkpoint, dispatch: Doc, todo: seq<Checkpoint>, answers: Answers, from: nat,
                        ghost w: World, ghost i: nat)
      returns (republished: bool, next: nat, ghost w': World)
      requires cp.stage == STAGE_BOOTSTRAP
      requires Mirrors(w, i, Redispatching(cp, dispatch, todo), store, publisher)
      modifies store, publisher
      ensures Drives(w, i, answers, from, next, w') && Mirrors(w', i, Resuming(todo), store, publisher)
      ensures SameReceived(old(store.Now()), store.Now())
      ensures (republished <==> Works(answers, from)) && next == from + if republished then 2 else 1
      ensures store.Now() == if republished
        then Keep(old(store.Now()), cp.(retries := cp.retries + 1), answers(from + 1)) else old(store.Now())
      ensures publisher.sent == Append(old(publisher.sent), !answers(from).reply.FailedBefore?, dispatch)
    {
      Stays(w, i, answers, from);
      w' := Follow(w, i, answers, from, from, w, Redispatch(w.tables, cp, dispatch, todo, answers(from).reply));
      var err := publisher.PublishRaw(dispatch, answers(from).reply);
      if err {
        return false, from + 1, w';
      }
      ghost var u := w';
      next, w' := BumpRow(cp.(retries := cp.retries + 1), todo, answers, from + 1, w', i);
      DriveConcat(w, i, answers, from, from + 1, u, next, w');
      return true, next, w';
    }

    method BumpRow(cp: Checkpoint, todo: seq<Checkpoint>, answers: Answers, from: nat, ghost w: World, ghost i: nat)
      returns (next: nat, ghost w': World)
      requires cp.stage == STAGE_BOOTSTRAP
      requires Mirrors(w, i, Bumping(cp, todo), store, publisher)
      modifies store
      ensures Drives(w, i, answers, from, next, w') && Mirrors(w', i, Resuming(todo), store, publisher)
      ensures store.Now() == Keep(old(store.Now()), cp, answers(from))
      ensures next == from + 1
      ensures SameReceived(old(store.Now()), store.Now())
    {
      Stays(w, i, answers, from);
      w' := Follow(w, i, answers, from, from, w,
                   Save(w.tables, cp, answers(from).reply, Resuming(todo), Resuming(todo)));
      var bumpErr := store.UpsertCheckpoint(cp, answers(from).reply);
      next := from + 1;
    }
  }
}
