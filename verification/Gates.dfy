/** Budget gates over whole runs: which publications a gate stands behind, and when no gate is read. */
module Gates {
  import opened CheckpointStore
  import opened Documents
  import opened Payloads
  import opened Recovery
  import opened WorkerProtocol
  import opened Wrappers

  // ---- counting gates and publications ----

  /** Which gates count: all that let a run through, or only those that read the configuration of one of
      these topics. */
  datatype Scope = AnyGate | ReadsOf(topics: set<string>)

  predicate InScope(topic: string, scope: Scope) {
    scope.AnyGate? || topic in scope.topics
  }

  predicate Counts(ev: Event, run: string, scope: Scope) {
    LetsThrough(ev, run) && (ev.ConfigRead? ==> InScope(ev.topic, scope)) && (ev.GateSkipped? ==> scope.AnyGate?)
  }

  function GatesPassed(log: seq<Event>, run: string, scope: Scope): nat {
    if log == [] then 0
    else GatesPassed(log[..|log| - 1], run, scope) + if Counts(log[|log| - 1], run, scope) then 1 else 0
  }

  function Publications(log: seq<Event>, run: string): nat {
    if log == [] then 0
    else Publications(log[..|log| - 1], run) + if log[|log| - 1].Published? && log[|log| - 1].run == run then 1 else 0
  }

  /** Between a gate that let `run` through and the publication that gate allows; a start only counts if
      its own topic does. */
  function Permitted(pc: Pc, run: string, scope: Scope): nat {
    match pc
    case SavingReceived(_, _, r, p) => if r == run && InScope(p.topicID, scope) then 1 else 0
    case SavingStart(_, _, r, p) => if r == run && InScope(p.topicID, scope) then 1 else 0
    case Dispatching(_, _, r, p) => if r == run && InScope(p.topicID, scope) then 1 else 0
    case Redispatching(cp, _, _) => if cp.runID == run then 1 else 0
    case _ => 0
  }

  function AllPermitted(workers: seq<Pc>, run: string, scope: Scope): nat {
    if workers == [] then 0
    else AllPermitted(workers[..|workers| - 1], run, scope) + Permitted(workers[|workers| - 1], run, scope)
  }

  lemma {:induction false} PermittedUpdate(workers: seq<Pc>, i: nat, pc: Pc, run: string, scope: Scope)
    requires i < |workers|
    ensures AllPermitted(workers[i := pc], run, scope) + Permitted(workers[i], run, scope)
      == AllPermitted(workers, run, scope) + Permitted(pc, run, scope)
  {
    var n := |workers| - 1;
    if i < n {
      assert workers[i := pc][..n] == workers[..n][i := pc];
      PermittedUpdate(workers[..n], i, pc, run, scope);
    } else {
      assert workers[i := pc][..n] == workers[..n];
    }
  }

  lemma {:induction false} AllIdle(workers: seq<Pc>, run: string, scope: Scope)
    requires forall i :: 0 <= i < |workers| ==> workers[i].Idle?
    ensures AllPermitted(workers, run, scope) == 0
  {
    if workers != [] {
      AllIdle(workers[..|workers| - 1], run, scope);
    }
  }

  lemma LoneEvent(ev: Event, run: string, scope: Scope)
    ensures GatesPassed([ev], run, scope) == if Counts(ev, run, scope) then 1 else 0
    ensures Publications([ev], run) == if ev.Published? && ev.run == run then 1 else 0
  {
    assert [ev][..0] == [];
  }

  lemma MoreEvents(log: seq<Event>, events: seq<Event>, run: string, scope: Scope)
    requires |events| <= 1
    ensures GatesPassed(log + events, run, scope) == GatesPassed(log, run, scope) + GatesPassed(events, run, scope)
    ensures Publications(log + events, run) == Publications(log, run) + Publications(events, run)
  {
    if events == [] {
      assert log + events == log;
    } else {
      assert events == [events[0]] && (log + events)[..|log|] == log;
      LoneEvent(events[0], run, scope);
    }
  }

  // ---- every publication has a gate of its own ----

  /** What the worker at `pc` is about to publish, or to be let through to publish, has a topic in scope. */
  predicate Scoped(pc: Pc, run: string, scope: Scope) {
    && (pc.Dispatching? && pc.run == run ==> InScope(pc.payload.topicID, scope))
    && (pc.ReadingConfig? && pc.job.Resume? && pc.job.cp.runID == run ==> InScope(pc.job.payload.topicID, scope))
  }

  predicate Sensible(scope: Scope) {
    scope.ReadsOf? ==> "" !in scope.topics
  }

  /** A step publishes, or becomes permitted to, only by giving up a permission or passing a gate. */
  lemma ActSpendsPermission(t: Tables, pc: Pc, a: Answer, run: string, scope: Scope)
    requires Scoped(pc, run, scope) && Sensible(scope)
    ensures var e := Act(t, pc, a);
      && |e.events| <= 1
      && Publications(e.events, run) + Permitted(e.next, run, scope)
         <= Permitted(pc, run, scope) + GatesPassed(e.events, run, scope)
  {
    var e := Act(t, pc, a);
    if e.events != [] {
      assert e.events == [e.events[0]];
      LoneEvent(e.events[0], run, scope);
    }
  }

  /** Publications made, and publications still permitted, are covered by passed gates. */
  ghost predicate Paid(w: World, run: string, scope: Scope) {
    Publications(w.log, run) + AllPermitted(w.workers, run, scope) <= GatesPassed(w.log, run, scope)
  }

  lemma AdvanceSpendsPermission(w: World, i: nat, a: Answer, run: string, scope: Scope)
    requires Paid(w, run, scope) && Sensible(scope) && i < |w.workers| && Scoped(w.workers[i], run, scope)
    ensures Paid(Apply(w, i, a), run, scope)
  {
    var e := Act(w.tables, w.workers[i], a);
    ActSpendsPermission(w.tables, w.workers[i], a, run, scope);
    PermittedUpdate(w.workers, i, e.next, run, scope);
    MoreEvents(w.log, e.events, run, scope);
  }

  lemma StepSpendsPermission(w: World, c: Choice, run: string, scope: Scope)
    requires Paid(w, run, scope) && Sensible(scope)
    requires forall i :: 0 <= i < |w.workers| ==> Scoped(w.workers[i], run, scope)
    ensures Paid(Step(w, c), run, scope)
  {
    match c
    case Enqueue(_) =>
    case Deliver(i, m) =>
      if Step(w, c) != w {
        PermittedUpdate(w.workers, i, Claiming(m, w.stream[m].envelope), run, scope);
      }
    case StartResume(i, rows) =>
      if Step(w, c) != w {
        PermittedUpdate(w.workers, i, Resuming(rows), run, scope);
      }
    case Crash(i) =>
      if i < |w.workers| {
        PermittedUpdate(w.workers, i, Idle, run, scope);
      }
    case Advance(i, a) =>
      if i < |w.workers| {
        AdvanceSpendsPermission(w, i, a, run, scope);
      }
  }

  /** Every payload that a handler has saved for the run names one of these topics and, if the run's first
      checkpoint was ever unreadable, so does the payload's context. */
  ghost predicate Keeps(log: seq<Event>, run: string, topics: set<string>) {
    forall e, p :: SavedReceived(log, run, e, p) ==>
      p.topicID in topics && (FirstUnread(run) in log ==> ContextTopic(p) in topics)
  }

  ghost predicate Covers(log: seq<Event>, run: string, scope: Scope) {
    scope.ReadsOf? ==> "" !in scope.topics && Keeps(log, run, scope.topics)
  }

  lemma SourceInScope(log: seq<Event>, run: string, dispatch: Doc, payload: RunPayload, topics: set<string>)
    requires Sourced(log, run, dispatch, payload) && FromHandler(log, run, dispatch) && Keeps(log, run, topics)
    ensures payload.topicID in topics
  {
    if e, p :|
      SavedReceived(log, run, e, p) && payload == Rebuilt(run, dispatch, Some(ReceivedCheckpoint(e, run, p)))
    {
      ReceivedTopicWins(run, dispatch, e, p);
    } else {
      var e, p :| dispatch == DispatchDoc(e, run, p) && Saved(ReceivedCheckpoint(e, run, p)) in log;
      assert SavedReceived(log, run, e, p);
      RebuildsWithoutReceived(e, run, p);
    }
  }

  lemma KeptIsScoped(w: World, i: nat, run: string, scope: Scope)
    requires Inv(w) && Covers(w.log, run, scope) && i < |w.workers|
    ensures Scoped(w.workers[i], run, scope)
  {
    var pc := w.workers[i];
    if scope.ReadsOf? {
      if pc.Dispatching? && pc.run == run {
        assert SavedReceived(w.log, run, pc.envelope, pc.payload);
      } else if pc.ReadingConfig? && pc.job.Resume? && pc.job.cp.runID == run {
        SourceInScope(w.log, run, pc.job.dispatch, pc.job.payload, scope.topics);
      }
    }
  }

  lemma LogGrows(w: World, c: Choice)
    ensures w.log <= Step(w, c).log
  {
  }

  lemma EarlierCovers(log: seq<Event>, log': seq<Event>, run: string, scope: Scope)
    requires log <= log' && Covers(log', run, scope)
    ensures Covers(log, run, scope)
  {
    if scope.ReadsOf? {
      forall e, p | SavedReceived(log, run, e, p)
        ensures p.topicID in scope.topics && (FirstUnread(run) in log ==> ContextTopic(p) in scope.topics)
      {
        assert SavedReceived(log', run, e, p);
      }
    }
  }

  lemma {:induction false} EveryRunPays(w: World, cs: seq<Choice>, run: string, scope: Scope)
    requires Initial(w) && Covers(Execute(w, cs).log, run, scope)
    ensures Paid(Execute(w, cs), run, scope)
  {
    if cs == [] {
      AllIdle(w.workers, run, scope);
    } else {
      var front, c := cs[..|cs| - 1], cs[|cs| - 1];
      var before := Execute(w, front);
      LogGrows(before, c);
      EarlierCovers(before.log, Execute(w, cs).log, run, scope);
      EveryRunPays(w, front, run, scope);
      RunsKeepInv(w, front);
      forall i | 0 <= i < |before.workers| {
        KeptIsScoped(before, i, run, scope);
      }
      StepSpendsPermission(before, c, run, scope);
    }
  }

  /** At no moment of any run have more dispatches of a run been published than gates have let it through,
      those counted that were not read for want of a topic. */
  lemma EachPublicationHasItsGate(w: World, cs: seq<Choice>, run: string)
    requires Initial(w)
    ensures var log := Execute(w, cs).log; Publications(log, run) <= GatesPassed(log, run, AnyGate)
  {
    EveryRunPays(w, cs, run, AnyGate);
  }

  /** Nor more than gates have read the configuration of one of the run's topics and found no demand,
      provided every payload saved for the run names one of them and, should the first checkpoint ever be
      unreadable, its context does too: then a resume cannot publish on the strength of an earlier gate. */
  lemma EachPublicationHasItsRead(w: World, cs: seq<Choice>, run: string, topics: set<string>)
    requires Initial(w) && "" !in topics && Keeps(Execute(w, cs).log, run, topics)
    ensures var log := Execute(w, cs).log; Publications(log, run) <= GatesPassed(log, run, ReadsOf(topics))
  {
    EveryRunPays(w, cs, run, ReadsOf(topics));
  }

  /** Every part of a history is the history of an earlier moment. */
  lemma {:induction false} EarlierMoment(w: World, cs: seq<Choice>, k: nat) returns (n: nat)
    requires Initial(w) && k <= |Execute(w, cs).log|
    ensures n <= |cs| && Execute(w, cs[..n]).log == Execute(w, cs).log[..k]
  {
    n := |cs|;
    assert cs[..n] == cs;
    if k < |Execute(w, cs).log| {
      var front := cs[..n - 1];
      var before, after := Execute(w, front), Execute(w, cs);
      LogGrows(before, cs[n - 1]);
      OneMoreAtMost(before, cs[n - 1]);
      n := EarlierMoment(w, front, k);
      assert cs[..n] == front[..n] && after.log[..k] == before.log[..k];
    }
  }

  lemma OneMoreAtMost(w: World, c: Choice)
    ensures |Step(w, c).log| <= |w.log| + 1
  {
  }

  lemma {:induction false} SomeGate(log: seq<Event>, run: string, scope: Scope) returns (j: nat)
    requires GatesPassed(log, run, scope) > 0
    ensures j < |log| && Counts(log[j], run, scope)
  {
    j := |log| - 1;
    if !Counts(log[j], run, scope) {
      j := SomeGate(log[..j], run, scope);
    }
  }

  /** Under the same condition a publication comes after a gate that read such a configuration. */
  lemma ReadBeforePublication(w: World, cs: seq<Choice>, i: nat, topics: set<string>) returns (j: nat)
    requires Initial(w) && i < |Execute(w, cs).log| && Execute(w, cs).log[i].Published?
    requires "" !in topics && Keeps(Execute(w, cs).log, Execute(w, cs).log[i].run, topics)
    ensures j < i
    ensures var log := Execute(w, cs).log;
      log[j].ConfigRead? && log[j].run == log[i].run && log[j].topic in topics && !log[j].demanded
  {
    var log := Execute(w, cs).log;
    var run := log[i].run;
    var n := EarlierMoment(w, cs, i + 1);
    assert log[..i + 1] <= log && log[..i + 1][..i] == log[..i];
    EarlierCovers(log[..i + 1], log, run, ReadsOf(topics));
    EachPublicationHasItsRead(w, cs[..n], run, topics);
    j := SomeGate(log[..i + 1], run, ReadsOf(topics));
  }

  // ---- when no configuration is read ----

  /** A start reads no configuration exactly when its own event names no topic. */
  lemma StartSkipsIff(w: World, cs: seq<Choice>, i: nat, job: Job, a: Answer)
    requires Initial(w) && i < |Execute(w, cs).workers|
    requires Execute(w, cs).workers[i] == ReadingConfig(job) && job.Start?
    ensures job.envelope.data.Some?
    ensures var u := Execute(w, cs);
      Step(u, Advance(i, a)).log == u.log + [GateSkipped(job.run)] <==> job.envelope.data.value.topicID == ""
  {
    RunsKeepInv(w, cs);
    var u := Execute(w, cs);
    var e := Act(u.tables, u.workers[i], a);
    assert PcOk(u.tables, u.log, u.workers[i]);
    if e.events != [] {
      assert (u.log + e.events)[|u.log|] == e.events[0];
      assert (u.log + [GateSkipped(job.run)])[|u.log|] == GateSkipped(job.run);
    }
  }

  /** The payloads behind a row that is being resumed, as handlers saved them: the first checkpoint's and
      the dispatch's. */
  lemma RowSources(w: World, cs: seq<Choice>, i: nat) returns (e: Envelope, p: RunPayload, d: Envelope, q: RunPayload)
    requires Initial(w) && i < |Execute(w, cs).workers| && Execute(w, cs).workers[i].LoadingReceived?
    ensures var u := Execute(w, cs);
      var pc := u.workers[i];
      var run := pc.cp.runID;
      && Lookup(u.tables, run, STAGE_RUN_RECEIVED) == Some(ReceivedCheckpoint(e, run, p))
      && SavedReceived(u.log, run, e, p)
      && pc.dispatch == DispatchDoc(d, run, q) && SavedReceived(u.log, run, d, q)
  {
    RunsKeepInv(w, cs);
    var u := Execute(w, cs);
    var pc := u.workers[i];
    var run := pc.cp.runID;
    assert PcOk(u.tables, u.log, pc);
    assert RowOk(u.tables, u.log, (run, STAGE_RUN_RECEIVED));
    e, p :| u.tables.checkpoints[(run, STAGE_RUN_RECEIVED)] == ReceivedCheckpoint(e, run, p)
         && Saved(ReceivedCheckpoint(e, run, p)) in u.log;
    d, q :| pc.dispatch == DispatchDoc(d, run, q) && Saved(ReceivedCheckpoint(d, run, q)) in u.log;
  }
  /** The topic a resume works with: that of the first checkpoint, or, unread, that of the context. */
  function TopicInHand(load: Answer, p: RunPayload, q: RunPayload): string {
    if load.reply.Fine? then p.topicID else ContextTopic(q)
  }

  function Unread(load: Answer, run: string): seq<Event> {
    if load.reply.Fine? then [] else [FirstUnread(run)]
  }

  /** What the gate of a resume is asked, whatever the answer to loading the first checkpoint. */
  lemma Loads(w: World, cs: seq<Choice>, i: nat, load: Answer, p: RunPayload, e: Envelope, q: RunPayload, d: Envelope)
    returns (u': World, payload: RunPayload)
    requires i < |Execute(w, cs).workers| && Execute(w, cs).workers[i].LoadingReceived?
    requires var u := Execute(w, cs);
      var pc := u.workers[i];
      Lookup(u.tables, pc.cp.runID, STAGE_RUN_RECEIVED) == Some(ReceivedCheckpoint(e, pc.cp.runID, p))
      && pc.dispatch == DispatchDoc(d, pc.cp.runID, q)
    ensures var u := Execute(w, cs);
      var pc := u.workers[i];
      && u' == Step(u, Advance(i, load)) && |u'.workers| == |u.workers|
      && u'.workers[i] == ReadingConfig(Resume(pc.cp, pc.dispatch, payload, pc.todo))
      && u'.log == u.log + Unread(load, pc.cp.runID)
    ensures payload.topicID == TopicInHand(load, p, q)
  {
    var u := Execute(w, cs);
    var pc := u.workers[i];
    var run := pc.cp.runID;
    payload := Rebuilt(run, pc.dispatch, if load.reply.Fine? then Lookup(u.tables, run, STAGE_RUN_RECEIVED) else None);
    ReceivedTopicWins(run, pc.dispatch, e, p);
    RebuildsWithoutReceived(d, run, q);
    u' := Moves(u, i, load, LoadReceived(u.tables, pc.cp, pc.dispatch, pc.todo, load.reply));
  }

  /** A resume reads no configuration exactly when the run's first checkpoint is read and names no topic,
      or cannot be read and the context of the dispatch names none. */
  lemma ResumeSkipsIff(w: World, cs: seq<Choice>, i: nat, load: Answer, gate: Answer)
    returns (e: Envelope, p: RunPayload, d: Envelope, q: RunPayload)
    requires Initial(w) && i < |Execute(w, cs).workers| && Execute(w, cs).workers[i].LoadingReceived?
    ensures var u := Execute(w, cs);
      var pc := u.workers[i];
      var run := pc.cp.runID;
      && Lookup(u.tables, run, STAGE_RUN_RECEIVED) == Some(ReceivedCheckpoint(e, run, p))
      && pc.dispatch == DispatchDoc(d, run, q) && SavedReceived(u.log, run, d, q)
      && (Step(Step(u, Advance(i, load)), Advance(i, gate)).log == u.log + Unread(load, run) + [GateSkipped(run)]
          <==> TopicInHand(load, p, q) == "")
  {
    e, p, d, q := RowSources(w, cs, i);
    var u, payload := Loads(w, cs, i, load, p, e, q, d);
    var job := u.workers[i].job;
    var effect := ReadConfig(u.tables, job, gate);
    var v := Moves(u, i, gate, effect);
    if effect.events != [] {
      assert (u.log + effect.events)[|u.log|] == effect.events[0];
      assert (u.log + [GateSkipped(RunOf(job))])[|u.log|] == GateSkipped(RunOf(job));
    }
  }

  const DEMAND := Answer(Fine, true, false, "")

  /** Loading the first checkpoint, a gate whose configuration demands approval, and one more call. */
  function Demanded(i: nat, load: Answer): seq<Choice> {
    [Advance(i, load), Advance(i, DEMAND), Advance(i, YES)]
  }

  lemma Execute3(w: World, a: Choice, b: Choice, c: Choice)
    ensures Execute(w, [a, b, c]) == Step(Step(Step(w, a), b), c)
  {
    assert [a, b, c] == [a, b] + [c];
    ExecuteConcat(w, [a, b], [c]);
    Execute2(w, a, b);
  }

  /** Though the configuration demands approval, a resume publishes exactly when it has no topic in hand. */
  lemma PublishesDespiteDemandIff(w: World, cs: seq<Choice>, i: nat, load: Answer)
    returns (e: Envelope, p: RunPayload, d: Envelope, q: RunPayload)
    requires Initial(w) && i < |Execute(w, cs).workers| && Execute(w, cs).workers[i].LoadingReceived?
    ensures var u := Execute(w, cs);
      var pc := u.workers[i];
      var run, topic := pc.cp.runID, TopicInHand(load, p, q);
      && Lookup(u.tables, run, STAGE_RUN_RECEIVED) == Some(ReceivedCheckpoint(e, run, p))
      && pc.dispatch == DispatchDoc(d, run, q) && SavedReceived(u.log, run, d, q)
      && Execute(u, Demanded(i, load)).log == u.log + Unread(load, run)
         + if topic == "" then [GateSkipped(run), Published(run, pc.dispatch)] else [ConfigRead(run, topic, true)]
  {
    e, p, d, q := RowSources(w, cs, i);
    var before := Execute(w, cs);
    Execute3(before, Advance(i, load), Advance(i, DEMAND), Advance(i, YES));
    var u, payload := Loads(w, cs, i, load, p, e, q, d);
    DemandSettles(u, i, u.workers[i].job);
  }

  /** What a resume does when its configuration, if read, demands approval. */
  lemma DemandSettles(u: World, i: nat, job: Job)
    requires i < |u.workers| && u.workers[i] == ReadingConfig(job) && job.Resume?
    ensures Step(Step(u, Advance(i, DEMAND)), Advance(i, YES)).log == u.log
      + if job.payload.topicID == "" then [GateSkipped(RunOf(job)), Published(RunOf(job), job.dispatch)]
        else [ConfigRead(RunOf(job), job.payload.topicID, true)]
  {
    var v := Moves(u, i, DEMAND, ReadConfig(u.tables, job, DEMAND));
    var effect := Act(v.tables, v.workers[i], YES);
    var x := Moves(v, i, YES, effect);
    if job.payload.topicID == "" {
      assert effect.events == [Published(RunOf(job), job.dispatch)];
      assert u.log + [GateSkipped(RunOf(job))] + effect.events == u.log + ([GateSkipped(RunOf(job))] + effect.events);
    } else {
      assert effect.events == [];
    }
  }

  // ---- a resume that passes on an earlier gate ----

  const SENDS := [Advance(0, YES), Advance(0, YES)]

  /** The first dispatch is published, and the message acknowledged. */
  lemma Dispatches(w: World, e: Envelope, p: RunPayload) returns (w': World)
    requires w.workers == [Dispatching(0, e, p.runID, p)]
    ensures w' == Execute(w, SENDS) && w'.workers == [Idle] && w'.tables == w.tables
    ensures w'.log == w.log + [Published(p.runID, DispatchDoc(e, p.runID, p))]
  {
    Execute2(w, Advance(0, YES), Advance(0, YES));
    OneWorker(w, YES, Effect(w.tables, [Published(p.runID, DispatchDoc(e, p.runID, p))], Acking(0)));
    w' := Step(Step(w, Advance(0, YES)), Advance(0, YES));
  }
  lemma SameContext(e: Envelope, p: RunPayload, d: Envelope, q: RunPayload, run: string)
    requires DispatchDoc(e, run, p) == DispatchDoc(d, run, q)
    ensures ContextTopic(p) == ContextTopic(q)
  {
    RebuildsWithoutReceived(e, run, p);
    RebuildsWithoutReceived(d, run, q);
  }

  /** A worker takes up a dispatched row. */
  lemma TakesUp(w: World, cp: Checkpoint, dispatch: Doc) returns (cs: seq<Choice>, w': World)
    requires w.workers == [Idle] && cp in w.tables.checkpoints.Values && cp.status == Dispatched
    requires cp.stage == STAGE_BOOTSTRAP && DispatchOf(cp) == Some(dispatch)
    ensures w' == Execute(w, cs) && w'.log == w.log && |w'.workers| == 1
    ensures w'.workers[0].LoadingReceived? && w'.workers[0].cp == cp && w'.workers[0].dispatch == dispatch
  {
    var rows := ListingStartingWith(w.tables, cp);
    cs := [StartResume(0, rows), Advance(0, YES)];
    Execute2(w, StartResume(0, rows), Advance(0, YES));
    var u := Step(w, StartResume(0, rows));
    assert u.workers == [Resuming(rows)];
    w' := Moves(u, 0, YES, NextRow(w.tables, rows));
    assert w.log + [] == w.log;
  }

  /** The first start of the run: its gate reads the configuration, and its dispatch is published. */
  lemma FirstStart(e: Envelope, p: RunPayload) returns (cs: seq<Choice>, w': World)
    requires Claimable(KeyOf(e)) && e.data == Some(p) && p.runID != ""
    ensures w' == Execute(Fresh(e), cs) && w'.workers == [Idle]
    ensures var start := StartCheckpoint(p.runID, BootstrapTask(e, p.runID, p), 0);
      && w'.log == [PastClaim(KeyOf(e)), PassedGate(p.runID, p.topicID), Saved(ReceivedCheckpoint(e, p.runID, p)),
                    Saved(start), Published(p.runID, DispatchDoc(e, p.runID, p))]
      && Lookup(w'.tables, p.runID, STAGE_BOOTSTRAP) == Some(start)
  {
    var u := Arrives(e, p);
    var v := SavesBoth(u, e, p);
    w' := Dispatches(v, e, p);
    cs := ARRIVAL + SAVES + SENDS;
    ExecuteConcat(Fresh(e), ARRIVAL, SAVES);
    ExecuteConcat(Fresh(e), ARRIVAL + SAVES, SENDS);
  }

  /** The history of the run below. */
  function Bypass(e: Envelope, p: RunPayload): seq<Event> {
    var run, dispatch := p.runID, DispatchDoc(e, p.runID, p);
    [PastClaim(KeyOf(e)), ConfigRead(run, p.topicID, false), Saved(ReceivedCheckpoint(e, run, p)),
     Saved(StartCheckpoint(run, BootstrapTask(e, run, p), 0)), Published(run, dispatch)]
    + [FirstUnread(run)] + [GateSkipped(run), Published(run, dispatch)]
  }

  /** A resume can publish on the strength of an earlier gate, though the configuration now demands
      approval: it does in this run, for every payload with a topic that its context does not name. */
  lemma ApprovalBypassed(e: Envelope, p: RunPayload) returns (lead: seq<Choice>)
    requires Claimable(KeyOf(e)) && e.data == Some(p) && p.runID != "" && p.topicID != "" && ContextTopic(p) == ""
    ensures Initial(Fresh(e)) && Execute(Fresh(e), lead + Demanded(0, NO)).log == Bypass(e, p)
    ensures Publications(Bypass(e, p), p.runID) == 2
    ensures GatesPassed(Bypass(e, p), p.runID, ReadsOf({p.topicID, ContextTopic(p)})) == 1
  {
    var first, u := FirstStart(e, p);
    var start := StartCheckpoint(p.runID, BootstrapTask(e, p.runID, p), 0);
    StartCheckpointHasDispatch(e, p.runID, p, 0);
    assert (p.runID, STAGE_BOOTSTRAP) in u.tables.checkpoints.Keys;
    var taken, v := TakesUp(u, start, DispatchDoc(e, p.runID, p));
    ExecuteConcat(Fresh(e), first, taken);
    var d, p', d', q := PublishesDespiteDemandIff(Fresh(e), first + taken, 0, NO);
    SameContext(e, p, d', q, p.runID);
    lead := first + taken;
    ExecuteConcat(Fresh(e), lead, Demanded(0, NO));
    BypassCounts(e, p);
  }

  lemma CountsNext(log: seq<Event>, k: nat, run: string, scope: Scope)
    requires k < |log|
    ensures GatesPassed(log[..k + 1], run, scope)
      == GatesPassed(log[..k], run, scope) + if Counts(log[k], run, scope) then 1 else 0
    ensures Publications(log[..k + 1], run)
      == Publications(log[..k], run) + if log[k].Published? && log[k].run == run then 1 else 0
  {
    assert log[..k + 1][..k] == log[..k];
  }

  lemma BypassCounts(e: Envelope, p: RunPayload)
    ensures Publications(Bypass(e, p), p.runID) == 2
    ensures GatesPassed(Bypass(e, p), p.runID, ReadsOf({p.topicID, ContextTopic(p)})) == 1
  {
    var log, run, scope := Bypass(e, p), p.runID, ReadsOf({p.topicID, ContextTopic(p)});
    assert log[..0] == [];
    CountsNext(log, 0, run, scope);
    CountsNext(log, 1, run, scope);
    CountsNext(log, 2, run, scope);
    CountsNext(log, 3, run, scope);
    CountsNext(log, 4, run, scope);
    CountsNext(log, 5, run, scope);
    CountsNext(log, 6, run, scope);
    CountsNext(log, 7, run, scope);
    assert log[..8] == log;
  }
  /** All that handlers have saved for the run names the topics that `p` names. */
  ghost predicate OnlyTopicsOf(log: seq<Event>, run: string, p: RunPayload) {
    forall e, q :: SavedReceived(log, run, e, q) ==> q.topicID == p.topicID && ContextTopic(q) == ContextTopic(p)
  }

  /** Publications never outnumber the gates that read one of the payload's topics. */
  ghost predicate AlwaysRead(w: World, run: string, p: RunPayload) {
    forall cs :: OnlyTopicsOf(Execute(w, cs).log, run, p) ==>
      Publications(Execute(w, cs).log, run)
      <= GatesPassed(Execute(w, cs).log, run, ReadsOf({p.topicID, ContextTopic(p)}))
  }

  /** For an event with a topic, every publication of its run has a gate of its own that read a
      configuration, in every run of the system, exactly when the context names a topic as well. */
  lemma AlwaysReadIff(e: Envelope, p: RunPayload)
    requires Claimable(KeyOf(e)) && e.data == Some(p) && p.runID != "" && p.topicID != ""
    ensures AlwaysRead(Fresh(e), p.runID, p) <==> ContextTopic(p) != ""
  {
    var run, topics := p.runID, {p.topicID, ContextTopic(p)};
    if ContextTopic(p) != "" {
      forall cs | OnlyTopicsOf(Execute(Fresh(e), cs).log, run, p)
        ensures Publications(Execute(Fresh(e), cs).log, run)
          <= GatesPassed(Execute(Fresh(e), cs).log, run, ReadsOf(topics))
      {
        EachPublicationHasItsRead(Fresh(e), cs, run, topics);
      }
    } else {
      var lead := ApprovalBypassed(e, p);
      BypassSavesOne(e, p);
      assert OnlyTopicsOf(Execute(Fresh(e), lead + Demanded(0, NO)).log, run, p);
    }
  }

  lemma BypassSavesOne(e: Envelope, p: RunPayload)
    ensures OnlyTopicsOf(Bypass(e, p), p.runID, p)
  {
    forall d, q | SavedReceived(Bypass(e, p), p.runID, d, q)
      ensures q.topicID == p.topicID && ContextTopic(q) == ContextTopic(p)
    {
      assert ReceivedCheckpoint(d, p.runID, q) == ReceivedCheckpoint(e, p.runID, p);
      SameDocSamePayload(q, p);
    }
  }
}
