/** The worker's protocol as interleaved atomic steps: any number of workers, redelivery, crashes, and
    remote calls that may fail before or after taking effect. */
module WorkerProtocol {
  import opened Wrappers
  import opened Documents
  import opened CheckpointStore
  import opened Payloads

  // ---- state ----

  datatype EntryStatus = Undelivered | Pending | Acked

  datatype Entry = Entry(envelope: Envelope, status: EntryStatus)

  /** What a budget gate is asked for: a run being started, or one being resumed with `todo` left. */
  datatype Job =
    | Start(msg: nat, envelope: Envelope, run: string, payload: RunPayload)
    | Resume(cp: Checkpoint, dispatch: Doc, payload: RunPayload, todo: seq<Checkpoint>)

  function RunOf(job: Job): string {
    match job
    case Start(_, _, run, _) => run
    case Resume(cp, _, _, _) => cp.runID
  }

  /** Where a worker stands between two atomic steps. */
  datatype Pc =
    | Idle
    | Claiming(msg: nat, envelope: Envelope)
    | Decoding(msg: nat, envelope: Envelope)
    | ReadingConfig(job: Job)
    | MarkingPending(job: Job)
    | FindingApproval(job: Job)
    | CreatingApproval(job: Job)
    | Announcing(job: Job)
    | SavingReceived(msg: nat, envelope: Envelope, run: string, payload: RunPayload)
    | SavingStart(msg: nat, envelope: Envelope, run: string, payload: RunPayload)
    | Dispatching(msg: nat, envelope: Envelope, run: string, payload: RunPayload)
    | SavingFailure(msg: nat, envelope: Envelope, run: string, payload: RunPayload)
    | Acking(msg: nat)
    | Resuming(todo: seq<Checkpoint>)
    | LoadingReceived(cp: Checkpoint, dispatch: Doc, todo: seq<Checkpoint>)
    | MarkingCompleted(cp: Checkpoint, todo: seq<Checkpoint>)
    | Redispatching(cp: Checkpoint, dispatch: Doc, todo: seq<Checkpoint>)
    | Bumping(cp: Checkpoint, todo: seq<Checkpoint>)

  datatype Event =
    | PastClaim(key: EventKey)
    | RunCreated(key: EventKey, run: string)
    | ConfigRead(run: string, topic: string, demanded: bool)
    | GateSkipped(run: string)
    | FirstUnread(run: string)
    | ApprovalRequested(run: string)
    | Saved(cp: Checkpoint)
    | Marked(run: string, stage: string)
    | Published(run: string, dispatch: Doc)

  /** Durable tables and stream, the workers' volatile positions, and everything that happened. */
  datatype World = World(tables: Tables, stream: seq<Entry>, workers: seq<Pc>, log: seq<Event>)

  /** What the rest of the system answers to one step. */
  datatype Answer = Answer(reply: Reply, requireApproval: bool, approvalPending: bool, newRun: string)

  datatype Choice =
    | Enqueue(envelope: Envelope)
    | Deliver(worker: nat, msg: nat)
    | StartResume(worker: nat, rows: seq<Checkpoint>)
    | Crash(worker: nat)
    | Advance(worker: nat, answer: Answer)

  // ---- one step of a worker ----

  /** What a step does to the tables, what it adds to the history, and where the worker goes. */
  datatype Effect = Effect(tables: Tables, events: seq<Event>, next: Pc)

  /** Saves a checkpoint, unless the call fails before taking effect. */
  function Save(t: Tables, cp: Checkpoint, reply: Reply, ok: Pc, failed: Pc): Effect {
    if !Storable(cp) || reply.FailedBefore? then Effect(t, [], failed)
    else Effect(Upserted(t, cp), [Saved(cp)], if reply.Fine? then ok else failed)
  }

  /** After a gate that lets the run through. */
  function Pass(job: Job): Pc {
    match job
    case Start(m, e, run, p) => SavingReceived(m, e, run, p)
    case Resume(cp, dispatch, _, todo) => Redispatching(cp, dispatch, todo)
  }

  /** After a gate that fails with an error. */
  function Abandon(job: Job): Pc {
    match job
    case Start(m, _, _, _) => Acking(m)
    case Resume(_, _, _, todo) => Resuming(todo)
  }

  /** After a gate that demands approval. */
  function Skip(job: Job): Pc {
    match job
    case Start(m, _, _, _) => Acking(m)
    case Resume(cp, _, _, todo) => MarkingCompleted(cp, todo)
  }

  function Claim(t: Tables, m: nat, e: Envelope, reply: Reply): Effect {
    var key := KeyOf(e);
    if !Claimable(key) || reply.FailedBefore? then Effect(t, [], Acking(m))
    else
      var t' := t.(claims := t.claims + {key});
      if key in t.claims || !reply.Fine? then Effect(t', [], Acking(m))
      else Effect(t', [PastClaim(key)], Decoding(m, e))
  }

  function Decode(t: Tables, m: nat, e: Envelope, a: Answer): Effect {
    if e.data.None? then Effect(t, [], Acking(m))
    else
      var p := e.data.value;
      if p.runID != "" then Effect(t, [], ReadingConfig(Start(m, e, p.runID, p)))
      else if a.reply.FailedBefore? || a.newRun == "" then Effect(t, [], Acking(m))
      else Effect(t, [RunCreated(KeyOf(e), a.newRun)],
                  if a.reply.Fine? then ReadingConfig(Start(m, e, a.newRun, p)) else Acking(m))
  }

  /** Without a topic nothing is read, and the run passes. */
  function ReadConfig(t: Tables, job: Job, a: Answer): Effect {
    var topic := job.payload.topicID;
    if topic == "" then Effect(t, [GateSkipped(RunOf(job))], Pass(job))
    else if !a.reply.Fine? then Effect(t, [], Abandon(job))
    else Effect(t, [ConfigRead(RunOf(job), topic, a.requireApproval)],
                if a.requireApproval then MarkingPending(job) else Pass(job))
  }

  function CreateApproval(t: Tables, job: Job, reply: Reply): Effect {
    Effect(t, if reply.FailedBefore? then [] else [ApprovalRequested(RunOf(job))],
           if reply.Fine? then Announcing(job) else Abandon(job))
  }

  function Dispatch(t: Tables, m: nat, e: Envelope, run: string, p: RunPayload, reply: Reply): Effect {
    Effect(t, if reply.FailedBefore? then [] else [Published(run, DispatchDoc(e, run, p))],
           if reply.Fine? then Acking(m) else SavingFailure(m, e, run, p))
  }

  /** The head of the resume loop: rows of other stages or of the wrong shape are passed over. */
  function NextRow(t: Tables, todo: seq<Checkpoint>): Effect {
    if todo == [] then Effect(t, [], Idle)
    else
      var cp, rest := todo[0], todo[1..];
      if cp.stage != STAGE_BOOTSTRAP || DispatchOf(cp).None? then Effect(t, [], Resuming(rest))
      else Effect(t, [], LoadingReceived(cp, DispatchOf(cp).value, rest))
  }

  function LoadReceived(t: Tables, cp: Checkpoint, dispatch: Doc, todo: seq<Checkpoint>, reply: Reply): Effect {
    var received := if reply.Fine? then Lookup(t, cp.runID, STAGE_RUN_RECEIVED) else None;
    Effect(t, if reply.Fine? then [] else [FirstUnread(cp.runID)],
           ReadingConfig(Resume(cp, dispatch, Rebuilt(cp.runID, dispatch, received), todo)))
  }

  function MarkCompleted(t: Tables, cp: Checkpoint, todo: seq<Checkpoint>, reply: Reply): Effect {
    if reply.FailedBefore? then Effect(t, [], Resuming(todo))
    else Effect(MarkedAs(t, cp.runID, cp.stage, Completed), [Marked(cp.runID, cp.stage)], Resuming(todo))
  }

  function Redispatch(t: Tables, cp: Checkpoint, dispatch: Doc, todo: seq<Checkpoint>, reply: Reply): Effect {
    Effect(t, if reply.FailedBefore? then [] else [Published(cp.runID, dispatch)],
           if reply.Fine? then Bumping(cp.(retries := cp.retries + 1), todo) else Resuming(todo))
  }

  function Act(t: Tables, pc: Pc, a: Answer): Effect {
    match pc
    case Idle => Effect(t, [], Idle)
    case Claiming(m, e) => Claim(t, m, e, a.reply)
    case Decoding(m, e) => Decode(t, m, e, a)
    case ReadingConfig(job) => ReadConfig(t, job, a)
    case MarkingPending(job) => Effect(t, [], if a.reply.Fine? then FindingApproval(job) else Abandon(job))
    case FindingApproval(job) => Effect(t, [],
        if a.reply.Fine? && a.approvalPending then Skip(job) else CreatingApproval(job))
    case CreatingApproval(job) => CreateApproval(t, job, a.reply)
    case Announcing(job) => Effect(t, [], Skip(job))
    case SavingReceived(m, e, run, p) => Save(t, ReceivedCheckpoint(e, run, p), a.reply,
                                              SavingStart(m, e, run, p), Acking(m))
    case SavingStart(m, e, run, p) =>
      Save(t, StartCheckpoint(run, BootstrapTask(e, run, p), 0), a.reply, Dispatching(m, e, run, p), Acking(m))
    case Dispatching(m, e, run, p) => Dispatch(t, m, e, run, p, a.reply)
    case SavingFailure(m, e, run, p) =>
      Save(t, FailureCheckpoint(run, BootstrapTask(e, run, p), 1, "publish failed"), a.reply, Acking(m), Acking(m))
    case Acking(m) => Effect(t, [], Idle)
    case Resuming(todo) => NextRow(t, todo)
    case LoadingReceived(cp, dispatch, todo) => LoadReceived(t, cp, dispatch, todo, a.reply)
    case MarkingCompleted(cp, todo) => MarkCompleted(t, cp, todo, a.reply)
    case Redispatching(cp, dispatch, todo) => Redispatch(t, cp, dispatch, todo, a.reply)
    case Bumping(cp, todo) => Save(t, cp, a.reply, Resuming(todo), Resuming(todo))
  }

  // ---- runs of the whole system ----

  function StreamAfter(stream: seq<Entry>, pc: Pc, reply: Reply): seq<Entry> {
    if pc.Acking? && pc.msg < |stream| && !reply.FailedBefore?
      then stream[pc.msg := stream[pc.msg].(status := Acked)] else stream
  }

  function Apply(w: World, i: nat, a: Answer): World
    requires i < |w.workers|
  {
    var e := Act(w.tables, w.workers[i], a);
    World(e.tables, StreamAfter(w.stream, w.workers[i], a.reply), w.workers[i := e.next], w.log + e.events)
  }

  ghost function Step(w: World, c: Choice): World {
    match c
    case Enqueue(e) => w.(stream := w.stream + [Entry(e, Undelivered)])
    case Deliver(i, m) =>
      if i < |w.workers| && w.workers[i].Idle? && m < |w.stream| && !w.stream[m].status.Acked? then
        w.(stream := w.stream[m := w.stream[m].(status := Pending)],
           workers := w.workers[i := Claiming(m, w.stream[m].envelope)])
      else w
    case StartResume(i, rows) =>
      if i < |w.workers| && w.workers[i].Idle? && IsListing(rows, w.tables, Dispatched)
      then w.(workers := w.workers[i := Resuming(rows)]) else w
    case Crash(i) => if i < |w.workers| then w.(workers := w.workers[i := Idle]) else w
    case Advance(i, a) => if i < |w.workers| then Apply(w, i, a) else w
  }

  ghost function Execute(w: World, cs: seq<Choice>): World {
    if cs == [] then w else Step(Execute(w, cs[..|cs| - 1]), cs[|cs| - 1])
  }

  ghost predicate Initial(w: World) {
    w.tables == Tables({}, map[]) && w.log == [] && forall i :: 0 <= i < |w.workers| ==> w.workers[i].Idle?
  }

  // ---- what every reachable world satisfies ----

  /** A gate lets this run through: its configuration was read and demands nothing, or was not read. */
  predicate LetsThrough(ev: Event, run: string) {
    ev == GateSkipped(run) || (ev.ConfigRead? && ev.run == run && !ev.demanded)
  }

  ghost predicate GatePassed(log: seq<Event>, run: string) {
    exists ev :: ev in log && LetsThrough(ev, run)
  }

  /** A dispatched bootstrap checkpoint of this run carrying this dispatch payload was saved. */
  ghost predicate DurablySaved(log: seq<Event>, run: string, dispatch: Doc) {
    exists cp :: Saved(cp) in log && IsDispatch(cp, run, dispatch) && CarriesToken(cp, dispatch)
  }

  /** The dispatch carries the token of its checkpoint. */
  predicate CarriesToken(cp: Checkpoint, dispatch: Doc) {
    StringAt(dispatch, "checkpoint_token") == Some(cp.token)
  }

  predicate IsDispatch(cp: Checkpoint, run: string, dispatch: Doc) {
    cp.runID == run && cp.stage == STAGE_BOOTSTRAP && cp.status == Dispatched && DispatchOf(cp) == Some(dispatch)
  }

  /** Every publication comes after a durable save of the same payload, of the first checkpoint that the
      payload was made from, and after a gate that let its run through. */
  ghost predicate PublicationsJustified(log: seq<Event>) {
    forall i :: 0 <= i < |log| && log[i].Published? ==> Justified(log[..i], log[i].run, log[i].dispatch)
  }

  ghost predicate Justified(log: seq<Event>, run: string, dispatch: Doc) {
    DurablySaved(log, run, dispatch) && GatePassed(log, run) && FromHandler(log, run, dispatch)
  }

  ghost predicate ClaimsOnce(log: seq<Event>) {
    forall i, j :: 0 <= i < j < |log| && log[i].PastClaim? && log[j].PastClaim? ==> log[i].key != log[j].key
  }

  ghost predicate CreatesOnce(log: seq<Event>) {
    forall i, j :: 0 <= i < j < |log| && log[i].RunCreated? && log[j].RunCreated? ==> log[i].key != log[j].key
  }

  ghost predicate NoRunCreated(log: seq<Event>, key: EventKey) {
    forall e :: e in log && e.RunCreated? ==> e.key != key
  }

  /** Some handler saved the payload that this dispatch was made from, as the first checkpoint of the run. */
  ghost predicate FromHandler(log: seq<Event>, run: string, dispatch: Doc) {
    exists e, p :: dispatch == DispatchDoc(e, run, p) && Saved(ReceivedCheckpoint(e, run, p)) in log
  }

  /** A dispatched bootstrap checkpoint can be resumed: its shape is right, it was durably saved, and so
      was the payload behind it. */
  ghost predicate Resumable(log: seq<Event>, cp: Checkpoint) {
    cp.stage == STAGE_BOOTSTRAP && cp.status == Dispatched ==>
      && DispatchOf(cp).Some?
      && DurablySaved(log, cp.runID, DispatchOf(cp).value)
      && FromHandler(log, cp.runID, DispatchOf(cp).value)
  }

  ghost predicate HasReceived(t: Tables, run: string) {
    (run, STAGE_RUN_RECEIVED) in t.checkpoints
  }

  /** A checkpoint the resume loop has in hand. */
  ghost predicate Listed(t: Tables, log: seq<Event>, cp: Checkpoint) {
    cp.status == Dispatched && Resumable(log, cp) && cp.runID != ""
      && (cp.stage == STAGE_BOOTSTRAP ==> HasReceived(t, cp.runID))
  }

  ghost predicate AllListed(t: Tables, log: seq<Event>, rows: seq<Checkpoint>) {
    forall i :: 0 <= i < |rows| ==> Listed(t, log, rows[i])
  }

  ghost predicate InHand(t: Tables, log: seq<Event>, cp: Checkpoint, todo: seq<Checkpoint>) {
    Listed(t, log, cp) && cp.stage == STAGE_BOOTSTRAP && AllListed(t, log, todo)
  }

  ghost predicate SavedReceived(log: seq<Event>, run: string, e: Envelope, p: RunPayload) {
    Saved(ReceivedCheckpoint(e, run, p)) in log
  }

  /** A resume has put its payload together from a first checkpoint some handler saved, or, when that
      could not be read, from the dispatch alone. */
  ghost predicate Sourced(log: seq<Event>, run: string, dispatch: Doc, payload: RunPayload) {
    || (exists e, p :: SavedReceived(log, run, e, p)
                    && payload == Rebuilt(run, dispatch, Some(ReceivedCheckpoint(e, run, p))))
    || (FirstUnread(run) in log && payload == Rebuilt(run, dispatch, None))
  }

  /** A start works on the event's own payload, a resume on a payload put together as above. */
  ghost predicate JobOk(t: Tables, log: seq<Event>, job: Job) {
    match job
    case Start(_, e, run, p) => run != "" && e.data == Some(p)
    case Resume(cp, dispatch, p, todo) =>
      InHand(t, log, cp, todo) && DispatchOf(cp) == Some(dispatch) && Sourced(log, cp.runID, dispatch, p)
  }

  /** What a worker at `pc` knows about the durable past. */
  ghost predicate PcOk(t: Tables, log: seq<Event>, pc: Pc) {
    match pc
    case Decoding(_, e) => KeyOf(e) in t.claims && NoRunCreated(log, KeyOf(e))
    case ReadingConfig(job) => JobOk(t, log, job)
    case MarkingPending(job) => JobOk(t, log, job)
    case FindingApproval(job) => JobOk(t, log, job)
    case CreatingApproval(job) => JobOk(t, log, job)
    case Announcing(job) => JobOk(t, log, job)
    case SavingReceived(_, _, run, _) => run != "" && GatePassed(log, run)
    case SavingStart(_, e, run, p) =>
      run != "" && GatePassed(log, run) && HasReceived(t, run) && Saved(ReceivedCheckpoint(e, run, p)) in log
    case Dispatching(_, e, run, p) =>
      && run != "" && HasReceived(t, run) && Justified(log, run, DispatchDoc(e, run, p))
      && Saved(ReceivedCheckpoint(e, run, p)) in log
    case SavingFailure(_, _, run, _) => run != "" && HasReceived(t, run)
    case Resuming(todo) => AllListed(t, log, todo)
    case LoadingReceived(cp, dispatch, todo) => InHand(t, log, cp, todo) && DispatchOf(cp) == Some(dispatch)
    case MarkingCompleted(cp, todo) => InHand(t, log, cp, todo)
    case Redispatching(cp, dispatch, todo) => InHand(t, log, cp, todo) && DispatchOf(cp) == Some(dispatch)
      && GatePassed(log, cp.runID)
    case Bumping(cp, todo) => InHand(t, log, cp, todo)
    case _ => true
  }

  // ---- the invariant ----

  /** A row sits under its own key; a dispatched bootstrap row can be resumed; a bootstrap row has the
      run's first checkpoint beside it, which still carries the payload some handler stored. */
  ghost predicate RowOk(t: Tables, log: seq<Event>, k: RowKey)
    requires k in t.checkpoints
  {
    var cp := t.checkpoints[k];
    && cp.runID == k.0 != "" && cp.stage == k.1 && Resumable(log, cp)
    && (k.1 == STAGE_BOOTSTRAP ==> HasReceived(t, k.0))
    && (k.1 == STAGE_RUN_RECEIVED ==> exists e, p :: cp == ReceivedCheckpoint(e, k.0, p) && Saved(cp) in log)
  }

  ghost predicate RowsOk(t: Tables, log: seq<Event>) {
    forall k :: k in t.checkpoints ==> RowOk(t, log, k)
  }

  ghost predicate KeysClaimed(t: Tables, log: seq<Event>) {
    forall e :: e in log && (e.PastClaim? || e.RunCreated?) ==> e.key in t.claims
  }

  ghost predicate OneDecoder(workers: seq<Pc>) {
    forall i, j :: 0 <= i < j < |workers| && workers[i].Decoding? && workers[j].Decoding? ==>
      KeyOf(workers[i].envelope) != KeyOf(workers[j].envelope)
  }

  ghost predicate History(log: seq<Event>) {
    ClaimsOnce(log) && CreatesOnce(log) && PublicationsJustified(log)
  }

  ghost predicate Inv(w: World) {
    && KeysClaimed(w.tables, w.log) && History(w.log) && RowsOk(w.tables, w.log) && OneDecoder(w.workers)
    && forall i :: 0 <= i < |w.workers| ==> PcOk(w.tables, w.log, w.workers[i])
  }

  // ---- facts about the past stay true ----

  ghost predicate Grows(t: Tables, t': Tables) {
    t.claims <= t'.claims && t.checkpoints.Keys <= t'.checkpoints.Keys
  }

  lemma ResumableStays(log: seq<Event>, more: seq<Event>, cp: Checkpoint)
    requires Resumable(log, cp)
    ensures Resumable(log + more, cp)
  {
  }

  lemma ListedStays(t: Tables, log: seq<Event>, t': Tables, more: seq<Event>, cp: Checkpoint)
    requires Listed(t, log, cp) && Grows(t, t')
    ensures Listed(t', log + more, cp)
  {
    ResumableStays(log, more, cp);
  }

  lemma AllListedStays(t: Tables, log: seq<Event>, t': Tables, more: seq<Event>, rows: seq<Checkpoint>)
    requires AllListed(t, log, rows) && Grows(t, t')
    ensures AllListed(t', log + more, rows)
  {
    forall i | 0 <= i < |rows| {
      ListedStays(t, log, t', more, rows[i]);
    }
  }

  lemma InHandStays(t: Tables, log: seq<Event>, t': Tables, more: seq<Event>, cp: Checkpoint, todo: seq<Checkpoint>)
    requires InHand(t, log, cp, todo) && Grows(t, t')
    ensures InHand(t', log + more, cp, todo)
  {
    ListedStays(t, log, t', more, cp);
    AllListedStays(t, log, t', more, todo);
  }

  lemma SourcedStays(log: seq<Event>, more: seq<Event>, job: Job)
    requires job.Resume? && Sourced(log, job.cp.runID, job.dispatch, job.payload)
    ensures Sourced(log + more, job.cp.runID, job.dispatch, job.payload)
  {
    var run := job.cp.runID;
    if e, p :|
      SavedReceived(log, run, e, p) && job.payload == Rebuilt(run, job.dispatch, Some(ReceivedCheckpoint(e, run, p)))
    {
      assert SavedReceived(log + more, run, e, p);
    }
  }

  predicate HasJob(pc: Pc) {
    pc.ReadingConfig? || pc.MarkingPending? || pc.FindingApproval? || pc.CreatingApproval? || pc.Announcing?
  }

  predicate HasRow(pc: Pc) {
    pc.LoadingReceived? || pc.MarkingCompleted? || pc.Redispatching? || pc.Bumping?
  }

  /** What other workers do cannot invalidate what a worker knows. */
  lemma PcStays(t: Tables, log: seq<Event>, t': Tables, more: seq<Event>, pc: Pc)
    requires PcOk(t, log, pc) && Grows(t, t')
    requires pc.Decoding? ==> NoRunCreated(more, KeyOf(pc.envelope))
    ensures PcOk(t', log + more, pc)
  {
    if HasJob(pc) && pc.job.Resume? {
      InHandStays(t, log, t', more, pc.job.cp, pc.job.todo);
      SourcedStays(log, more, pc.job);
    } else if HasRow(pc) {
      InHandStays(t, log, t', more, pc.cp, pc.todo);
    } else if pc.Resuming? {
      AllListedStays(t, log, t', more, pc.todo);
    }
  }

  lemma RowStays(t: Tables, log: seq<Event>, t': Tables, more: seq<Event>, k: RowKey)
    requires k in t.checkpoints && RowOk(t, log, k) && Grows(t, t')
    requires t'.checkpoints[k] == t.checkpoints[k]
    ensures RowOk(t', log + more, k)
  {
    ResumableStays(log, more, t.checkpoints[k]);
  }

  lemma RowsStay(t: Tables, log: seq<Event>, claims: set<EventKey>, more: seq<Event>)
    requires RowsOk(t, log) && t.claims <= claims
    ensures RowsOk(t.(claims := claims), log + more)
  {
    forall k | k in t.checkpoints {
      RowStays(t, log, t.(claims := claims), more, k);
    }
  }

  /** Saving a checkpoint keeps every row in order, provided the new row is. */
  lemma RowsAfterSave(t: Tables, log: seq<Event>, cp: Checkpoint)
    requires RowsOk(t, log)
    requires RowOk(Upserted(t, cp), log + [Saved(cp)], (cp.runID, cp.stage))
    ensures RowsOk(Upserted(t, cp), log + [Saved(cp)])
  {
    forall k | k in Upserted(t, cp).checkpoints
      ensures RowOk(Upserted(t, cp), log + [Saved(cp)], k)
    {
      if k != (cp.runID, cp.stage) {
        RowStays(t, log, Upserted(t, cp), [Saved(cp)], k);
      }
    }
  }

  lemma RowsAfterMark(t: Tables, log: seq<Event>, run: string, stage: string, more: seq<Event>)
    requires RowsOk(t, log) && stage == STAGE_BOOTSTRAP
    ensures RowsOk(MarkedAs(t, run, stage, Completed), log + more)
  {
    var t' := MarkedAs(t, run, stage, Completed);
    forall k | k in t'.checkpoints
      ensures RowOk(t', log + more, k)
    {
      if k != (run, stage) {
        RowStays(t, log, t', more, k);
      }
    }
  }

  // ---- every step keeps the invariant ----

  ghost predicate EventOk(t: Tables, log: seq<Event>, pc: Pc, e: Effect, ev: Event) {
    match ev
    case PastClaim(key) => key !in t.claims && key in e.tables.claims && e.next.Decoding?
      && KeyOf(e.next.envelope) == key
    case RunCreated(key, _) => pc.Decoding? && key == KeyOf(pc.envelope) && !e.next.Decoding?
    case Published(run, dispatch) => Justified(log, run, dispatch)
    case _ => true
  }

  ghost predicate EffectOk(t: Tables, log: seq<Event>, pc: Pc, e: Effect) {
    && Grows(t, e.tables) && RowsOk(e.tables, log + e.events) && PcOk(e.tables, log + e.events, e.next)
    && |e.events| <= 1 && (e.events != [] ==> EventOk(t, log, pc, e, e.events[0]))
    && (e.next.Decoding? ==> e.events == [PastClaim(KeyOf(e.next.envelope))])
  }

  /** A step that changes nothing durable but perhaps adds an event. */
  lemma QuietEffect(t: Tables, log: seq<Event>, pc: Pc, e: Effect)
    requires RowsOk(t, log) && e.tables == t && |e.events| <= 1 && !e.next.Decoding?
    requires e.events != [] ==> EventOk(t, log, pc, e, e.events[0])
    requires PcOk(t, log + e.events, e.next)
    ensures EffectOk(t, log, pc, e)
  {
    RowsStay(t, log, t.claims, e.events);
    assert t.(claims := t.claims) == t;
  }

  lemma ClaimOk(t: Tables, log: seq<Event>, m: nat, env: Envelope, reply: Reply)
    requires RowsOk(t, log) && KeysClaimed(t, log)
    ensures EffectOk(t, log, Claiming(m, env), Claim(t, m, env, reply))
  {
    var e := Claim(t, m, env, reply);
    RowsStay(t, log, e.tables.claims, e.events);
    assert t.(claims := e.tables.claims) == e.tables;
  }

  lemma DecodeOk(t: Tables, log: seq<Event>, m: nat, env: Envelope, a: Answer)
    requires RowsOk(t, log) && PcOk(t, log, Decoding(m, env))
    ensures EffectOk(t, log, Decoding(m, env), Decode(t, m, env, a))
  {
    QuietEffect(t, log, Decoding(m, env), Decode(t, m, env, a));
  }

  lemma GateExits(t: Tables, log: seq<Event>, more: seq<Event>, job: Job)
    requires JobOk(t, log, job)
    ensures PcOk(t, log + more, Abandon(job)) && PcOk(t, log + more, Skip(job)) && JobOk(t, log + more, job)
    ensures GatePassed(log + more, RunOf(job)) ==> PcOk(t, log + more, Pass(job))
  {
    if job.Resume? {
      InHandStays(t, log, t, more, job.cp, job.todo);
      SourcedStays(log, more, job);
    }
  }

  lemma LetThroughNow(log: seq<Event>, ev: Event, run: string)
    ensures LetsThrough(ev, run) ==> GatePassed(log + [ev], run)
  {
    assert ev in log + [ev];
  }

  lemma ReadConfigOk(t: Tables, log: seq<Event>, job: Job, a: Answer)
    requires RowsOk(t, log) && JobOk(t, log, job)
    ensures EffectOk(t, log, ReadingConfig(job), ReadConfig(t, job, a))
  {
    var e := ReadConfig(t, job, a);
    assert PcOk(t, log + e.events, e.next) by {
      GateExits(t, log, e.events, job);
      if e.events != [] {
        assert e.events == [e.events[0]];
        LetThroughNow(log, e.events[0], RunOf(job));
      }
    }
    QuietEffect(t, log, ReadingConfig(job), e);
  }

  lemma ApprovalOk(t: Tables, log: seq<Event>, pc: Pc, a: Answer)
    requires HasJob(pc) && !pc.ReadingConfig? && RowsOk(t, log) && PcOk(t, log, pc)
    ensures EffectOk(t, log, pc, Act(t, pc, a))
  {
    var e := Act(t, pc, a);
    GateExits(t, log, e.events, pc.job);
    StaysInGate(t, log + e.events, pc, a);
    QuietEffect(t, log, pc, e);
  }

  lemma StaysInGate(t: Tables, log: seq<Event>, pc: Pc, a: Answer)
    requires HasJob(pc) && !pc.ReadingConfig? && JobOk(t, log, pc.job)
    requires PcOk(t, log, Abandon(pc.job)) && PcOk(t, log, Skip(pc.job))
    ensures PcOk(t, log, Act(t, pc, a).next)
  {
  }

  /** Saving a checkpoint whose row is in order. */
  lemma SaveEffect(t: Tables, log: seq<Event>, pc: Pc, cp: Checkpoint, reply: Reply, ok: Pc, failed: Pc)
    requires RowsOk(t, log) && !ok.Decoding? && !failed.Decoding?
    requires Storable(cp) ==> RowOk(Upserted(t, cp), log + [Saved(cp)], (cp.runID, cp.stage))
    requires PcOk(t, log, failed) && PcOk(Upserted(t, cp), log + [Saved(cp)], failed)
    requires Storable(cp) ==> PcOk(Upserted(t, cp), log + [Saved(cp)], ok)
    ensures EffectOk(t, log, pc, Save(t, cp, reply, ok, failed))
  {
    var e := Save(t, cp, reply, ok, failed);
    if e.events == [] {
      assert log + e.events == log;
      QuietEffect(t, log, pc, e);
    } else {
      RowsAfterSave(t, log, cp);
    }
  }

  lemma SaveReceivedOk(t: Tables, log: seq<Event>, pc: Pc, reply: Reply)
    requires pc.SavingReceived? && RowsOk(t, log) && PcOk(t, log, pc)
    ensures EffectOk(t, log, pc, Act(t, pc, Answer(reply, false, false, "")))
  {
    var cp := ReceivedCheckpoint(pc.envelope, pc.run, pc.payload);
    var next := log + [Saved(cp)];
    assert next[|log|] == Saved(cp) && Saved(cp) in next;
    SaveEffect(t, log, pc, cp, reply, SavingStart(pc.msg, pc.envelope, pc.run, pc.payload), Acking(pc.msg));
  }

  lemma SaveStartOk(t: Tables, log: seq<Event>, pc: Pc, reply: Reply)
    requires pc.SavingStart? && RowsOk(t, log) && PcOk(t, log, pc)
    ensures EffectOk(t, log, pc, Act(t, pc, Answer(reply, false, false, "")))
  {
    var dispatch := DispatchDoc(pc.envelope, pc.run, pc.payload);
    var cp := StartCheckpoint(pc.run, BootstrapTask(pc.envelope, pc.run, pc.payload), 0);
    StartCheckpointHasDispatch(pc.envelope, pc.run, pc.payload, 0);
    var next := log + [Saved(cp)];
    assert next[|log|] == Saved(cp) && Saved(cp) in next && IsDispatch(cp, pc.run, dispatch);
    assert CarriesToken(cp, dispatch) && DurablySaved(next, pc.run, dispatch);
    SaveEffect(t, log, pc, cp, reply, Dispatching(pc.msg, pc.envelope, pc.run, pc.payload), Acking(pc.msg));
  }

  lemma SaveFailureOk(t: Tables, log: seq<Event>, pc: Pc, reply: Reply)
    requires pc.SavingFailure? && RowsOk(t, log) && PcOk(t, log, pc)
    ensures EffectOk(t, log, pc, Act(t, pc, Answer(reply, false, false, "")))
  {
    var cp := FailureCheckpoint(pc.run, BootstrapTask(pc.envelope, pc.run, pc.payload), 1, "publish failed");
    SaveEffect(t, log, pc, cp, reply, Acking(pc.msg), Acking(pc.msg));
  }

  lemma DispatchOk(t: Tables, log: seq<Event>, pc: Pc, a: Answer)
    requires pc.Dispatching? && RowsOk(t, log) && PcOk(t, log, pc)
    ensures EffectOk(t, log, pc, Act(t, pc, a))
  {
    QuietEffect(t, log, pc, Act(t, pc, a));
  }

  lemma NextRowOk(t: Tables, log: seq<Event>, todo: seq<Checkpoint>)
    requires RowsOk(t, log) && AllListed(t, log, todo)
    ensures EffectOk(t, log, Resuming(todo), NextRow(t, todo))
  {
    assert log + [] == log;
    if todo != [] {
      assert Listed(t, log, todo[0]) && AllListed(t, log, todo[1..]);
    }
    QuietEffect(t, log, Resuming(todo), NextRow(t, todo));
  }

  lemma LoadReceivedOk(t: Tables, log: seq<Event>, pc: Pc, a: Answer)
    requires pc.LoadingReceived? && RowsOk(t, log) && PcOk(t, log, pc)
    ensures EffectOk(t, log, pc, Act(t, pc, a))
  {
    var e := Act(t, pc, a);
    var run := pc.cp.runID;
    InHandStays(t, log, t, e.events, pc.cp, pc.todo);
    assert Sourced(log + e.events, run, pc.dispatch, e.next.job.payload) by {
      if a.reply.Fine? {
        assert RowOk(t, log, (run, STAGE_RUN_RECEIVED));
        var env, p :| t.checkpoints[(run, STAGE_RUN_RECEIVED)] == ReceivedCheckpoint(env, run, p)
                   && Saved(ReceivedCheckpoint(env, run, p)) in log;
        assert SavedReceived(log + e.events, run, env, p);
      } else {
        assert e.events[0] in log + e.events;
      }
    }
    QuietEffect(t, log, pc, e);
  }

  lemma MarkCompletedOk(t: Tables, log: seq<Event>, pc: Pc, a: Answer)
    requires pc.MarkingCompleted? && RowsOk(t, log) && PcOk(t, log, pc)
    ensures EffectOk(t, log, pc, Act(t, pc, a))
  {
    var e := Act(t, pc, a);
    if a.reply.FailedBefore? {
      assert log + [] == log;
      QuietEffect(t, log, pc, e);
    } else {
      RowsAfterMark(t, log, pc.cp.runID, pc.cp.stage, e.events);
      AllListedStays(t, log, e.tables, e.events, pc.todo);
    }
  }

  lemma RedispatchOk(t: Tables, log: seq<Event>, pc: Pc, a: Answer)
    requires pc.Redispatching? && RowsOk(t, log) && PcOk(t, log, pc)
    ensures EffectOk(t, log, pc, Act(t, pc, a))
  {
    var e := Act(t, pc, a);
    var bumped := pc.cp.(retries := pc.cp.retries + 1);
    assert Listed(t, log, bumped);
    QuietEffect(t, log, pc, e);
  }

  lemma BumpOk(t: Tables, log: seq<Event>, pc: Pc, reply: Reply)
    requires pc.Bumping? && RowsOk(t, log) && PcOk(t, log, pc)
    ensures EffectOk(t, log, pc, Act(t, pc, Answer(reply, false, false, "")))
  {
    var cp := pc.cp;
    var t' := Upserted(t, cp);
    ListedStays(t, log, t', [Saved(cp)], cp);
    AllListedStays(t, log, t', [Saved(cp)], pc.todo);
    SaveEffect(t, log, pc, cp, reply, Resuming(pc.todo), Resuming(pc.todo));
  }

  /** Only the reply matters to the table-writing steps. */
  lemma OnlyReply(t: Tables, pc: Pc, a: Answer)
    requires pc.SavingReceived? || pc.SavingStart? || pc.SavingFailure? || pc.Bumping?
    ensures Act(t, pc, a) == Act(t, pc, Answer(a.reply, false, false, ""))
  {
  }

  predicate Resumes(pc: Pc) {
    pc.Resuming? || HasRow(pc)
  }

  lemma ResumeOk(t: Tables, log: seq<Event>, pc: Pc, a: Answer)
    requires Resumes(pc) && RowsOk(t, log) && PcOk(t, log, pc)
    ensures EffectOk(t, log, pc, Act(t, pc, a))
  {
    match pc
    case Resuming(todo) => NextRowOk(t, log, todo);
    case LoadingReceived(_, _, _) => LoadReceivedOk(t, log, pc, a);
    case MarkingCompleted(_, _) => MarkCompletedOk(t, log, pc, a);
    case Redispatching(_, _, _) => RedispatchOk(t, log, pc, a);
    case Bumping(_, _) => OnlyReply(t, pc, a); BumpOk(t, log, pc, a.reply);
  }

  predicate Starts(pc: Pc) {
    pc.SavingReceived? || pc.SavingStart? || pc.Dispatching? || pc.SavingFailure?
  }

  lemma StartOk(t: Tables, log: seq<Event>, pc: Pc, a: Answer)
    requires Starts(pc) && RowsOk(t, log) && PcOk(t, log, pc)
    ensures EffectOk(t, log, pc, Act(t, pc, a))
  {
    match pc
    case SavingReceived(_, _, _, _) => OnlyReply(t, pc, a); SaveReceivedOk(t, log, pc, a.reply);
    case SavingStart(_, _, _, _) => OnlyReply(t, pc, a); SaveStartOk(t, log, pc, a.reply);
    case Dispatching(_, _, _, _) => DispatchOk(t, log, pc, a);
    case SavingFailure(_, _, _, _) => OnlyReply(t, pc, a); SaveFailureOk(t, log, pc, a.reply);
  }

  lemma RestOk(t: Tables, log: seq<Event>, pc: Pc, a: Answer)
    requires pc.Idle? || pc.Acking?
    requires RowsOk(t, log)
    ensures EffectOk(t, log, pc, Act(t, pc, a))
  {
    assert log + [] == log;
    QuietEffect(t, log, pc, Act(t, pc, a));
  }

  lemma ActOk(t: Tables, log: seq<Event>, pc: Pc, a: Answer)
    requires RowsOk(t, log) && KeysClaimed(t, log) && PcOk(t, log, pc)
    ensures EffectOk(t, log, pc, Act(t, pc, a))
  {
    if Resumes(pc) {
      ResumeOk(t, log, pc, a);
    } else if Starts(pc) {
      StartOk(t, log, pc, a);
    } else if HasJob(pc) {
      if pc.ReadingConfig? {
        ReadConfigOk(t, log, pc.job, a);
      } else {
        ApprovalOk(t, log, pc, a);
      }
    } else if pc.Claiming? {
      ClaimOk(t, log, pc.msg, pc.envelope, a.reply);
    } else if pc.Decoding? {
      DecodeOk(t, log, pc.msg, pc.envelope, a);
    } else {
      RestOk(t, log, pc, a);
    }
  }

  // ---- history ----

  lemma PublicationsAfter(log: seq<Event>, ev: Event)
    requires PublicationsJustified(log) && (ev.Published? ==> Justified(log, ev.run, ev.dispatch))
    ensures PublicationsJustified(log + [ev])
  {
    var next := log + [ev];
    forall i | 0 <= i < |next| && next[i].Published?
      ensures Justified(next[..i], next[i].run, next[i].dispatch)
    {
      assert i < |log| ==> next[..i] == log[..i];
      assert i == |log| ==> next[..i] == log;
    }
  }

  lemma HistoryAfter(t: Tables, log: seq<Event>, pc: Pc, e: Effect)
    requires History(log) && KeysClaimed(t, log) && PcOk(t, log, pc) && EffectOk(t, log, pc, e)
    ensures History(log + e.events) && KeysClaimed(e.tables, log + e.events)
  {
    if e.events == [] {
      assert log + e.events == log;
    } else {
      var ev := e.events[0];
      assert e.events == [ev];
      PublicationsAfter(log, ev);
    }
  }

  /** No two workers hold the same claimed event, so no other worker is waiting to create its run. */
  lemma OthersStay(w: World, i: nat, j: nat, e: Effect)
    requires Inv(w) && i < |w.workers| && j < |w.workers| && i != j
    requires EffectOk(w.tables, w.log, w.workers[i], e)
    ensures PcOk(e.tables, w.log + e.events, w.workers[j])
    ensures e.next.Decoding? && w.workers[j].Decoding? ==> KeyOf(e.next.envelope) != KeyOf(w.workers[j].envelope)
  {
    var pc := w.workers[j];
    if pc.Decoding? {
      assert e.events != [] && e.events[0].RunCreated? ==> w.workers[i].Decoding?;
      assert w.workers[i].Decoding? ==> KeyOf(w.workers[i].envelope) != KeyOf(pc.envelope);
    }
    PcStays(w.tables, w.log, e.tables, e.events, pc);
  }

  lemma ApplyKeepsInv(w: World, i: nat, a: Answer)
    requires Inv(w) && i < |w.workers|
    ensures Inv(Apply(w, i, a))
  {
    var e := Act(w.tables, w.workers[i], a);
    ActOk(w.tables, w.log, w.workers[i], a);
    HistoryAfter(w.tables, w.log, w.workers[i], e);
    forall j | 0 <= j < |w.workers| && j != i
      ensures PcOk(e.tables, w.log + e.events, w.workers[j])
      ensures e.next.Decoding? && w.workers[j].Decoding? ==> KeyOf(e.next.envelope) != KeyOf(w.workers[j].envelope)
    {
      OthersStay(w, i, j, e);
    }
  }

  lemma StepKeepsInv(w: World, c: Choice)
    requires Inv(w)
    ensures Inv(Step(w, c))
  {
    match c
    case Advance(i, a) =>
      if i < |w.workers| {
        ApplyKeepsInv(w, i, a);
      }
    case _ =>
  }

  lemma {:induction false} RunsKeepInv(w: World, cs: seq<Choice>)
    requires Initial(w)
    ensures Inv(Execute(w, cs))
  {
    if cs != [] {
      RunsKeepInv(w, cs[..|cs| - 1]);
      StepKeepsInv(Execute(w, cs[..|cs| - 1]), cs[|cs| - 1]);
    }
  }

  // ---- main results, for every run of the system ----

  /** At most one activation per event gets past the claim, and at most one run is created for it. */
  lemma OneActivationPerEvent(w: World, cs: seq<Choice>, i: nat, j: nat)
    requires Initial(w) && i < j < |Execute(w, cs).log|
    ensures var log := Execute(w, cs).log;
      && (log[i].PastClaim? && log[j].PastClaim? ==> log[i].key != log[j].key)
      && (log[i].RunCreated? && log[j].RunCreated? ==> log[i].key != log[j].key)
  {
    RunsKeepInv(w, cs);
  }

  /** Every dispatch published was saved before, as a dispatched bootstrap checkpoint of the same run,
      and a gate had let that run through, with its configuration read or, for want of a topic, unread. */
  lemma PublishedOnlyIfSaved(w: World, cs: seq<Choice>, i: nat)
    requires Initial(w) && i < |Execute(w, cs).log| && Execute(w, cs).log[i].Published?
    ensures var log := Execute(w, cs).log;
      && (exists j, cp :: 0 <= j < i && log[j] == Saved(cp) && IsDispatch(cp, log[i].run, log[i].dispatch))
      && (exists j :: 0 <= j < i && LetsThrough(log[j], log[i].run))
  {
    RunsKeepInv(w, cs);
    var log := Execute(w, cs).log;
    assert Justified(log[..i], log[i].run, log[i].dispatch);
    var cp :| Saved(cp) in log[..i] && IsDispatch(cp, log[i].run, log[i].dispatch);
    var j :| 0 <= j < i && log[..i][j] == Saved(cp);
    assert log[j] == Saved(cp);
    var ev :| ev in log[..i] && LetsThrough(ev, log[i].run);
    var k :| 0 <= k < i && log[..i][k] == ev;
    assert LetsThrough(log[k], log[i].run);
  }

  /** After any run, with whatever crashes, every dispatched bootstrap row destructures, and the
      first checkpoint of its run is there and carries a payload that some handler stored. */
  lemma DispatchedRowsAreResumable(w: World, cs: seq<Choice>, run: string)
    requires Initial(w)
    requires var t := Execute(w, cs).tables;
      (run, STAGE_BOOTSTRAP) in t.checkpoints && t.checkpoints[(run, STAGE_BOOTSTRAP)].status == Dispatched
    ensures var w' := Execute(w, cs);
      var cp := w'.tables.checkpoints[(run, STAGE_BOOTSTRAP)];
      && DispatchOf(cp).Some? && DurablySaved(w'.log, run, DispatchOf(cp).value)
      && HasReceived(w'.tables, run)
      && exists e, p :: w'.tables.checkpoints[(run, STAGE_RUN_RECEIVED)] == ReceivedCheckpoint(e, run, p)
                     && Saved(ReceivedCheckpoint(e, run, p)) in w'.log
  {
    RunsKeepInv(w, cs);
    var w' := Execute(w, cs);
    assert RowOk(w'.tables, w'.log, (run, STAGE_BOOTSTRAP));
    assert RowOk(w'.tables, w'.log, (run, STAGE_RUN_RECEIVED));
  }

  /** In every reachable state, what a resume rebuilds from a dispatched row as it is stored and from the
      run's first checkpoint as it is stored is the payload that the run's handlers saved, provided they
      all saved the same. */
  lemma ResumeRebuildsPayload(w: World, cs: seq<Choice>, run: string, p: RunPayload)
    requires Initial(w)
    requires var t := Execute(w, cs).tables;
      (run, STAGE_BOOTSTRAP) in t.checkpoints && t.checkpoints[(run, STAGE_BOOTSTRAP)].status == Dispatched
    requires forall e, q ::
      Saved(ReceivedCheckpoint(e, run, q)) in Execute(w, cs).log ==> ReceivedDoc(q) == ReceivedDoc(p)
    ensures var t := Execute(w, cs).tables;
      var cp := t.checkpoints[(run, STAGE_BOOTSTRAP)];
      DispatchOf(cp).Some? && Rebuilt(run, DispatchOf(cp).value, Lookup(t, run, STAGE_RUN_RECEIVED)) == p.(runID := run)
  {
    RunsKeepInv(w, cs);
    var w' := Execute(w, cs);
    var cp := w'.tables.checkpoints[(run, STAGE_BOOTSTRAP)];
    assert RowOk(w'.tables, w'.log, (run, STAGE_BOOTSTRAP));
    assert RowOk(w'.tables, w'.log, (run, STAGE_RUN_RECEIVED));
    var e, q :| DispatchOf(cp).value == DispatchDoc(e, run, q) && Saved(ReceivedCheckpoint(e, run, q)) in w'.log;
    var e', q' :| w'.tables.checkpoints[(run, STAGE_RUN_RECEIVED)] == ReceivedCheckpoint(e', run, q')
               && Saved(ReceivedCheckpoint(e', run, q')) in w'.log;
    SameDocSamePayload(p, q);
    RebuildsStoredPayload(e, run, q);
  }

  lemma SameDocSamePayload(p: RunPayload, q: RunPayload)
    requires ReceivedDoc(p) == ReceivedDoc(q)
    ensures p.(runID := "") == q.(runID := "")
  {
    var d := ReceivedDoc(p);
    assert d["topic_id"] == ReceivedDoc(q)["topic_id"] && d["user_id"] == ReceivedDoc(q)["user_id"];
    assert d["trigger"] == ReceivedDoc(q)["trigger"];
    assert d["preferences"] == ReceivedDoc(q)["preferences"] && d["context"] == ReceivedDoc(q)["context"];
  }
}
