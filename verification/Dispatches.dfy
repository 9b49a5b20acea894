/** What a dispatched task says: the documents on the task stream, field by field. */
module Dispatches {
  import opened CheckpointStore
  import opened Documents
  import opened Payloads
  import opened WorkerProtocol
  import opened Wrappers

  /** A task.dispatch of a run's bootstrap task, with what the run's handler put into it. */
  ghost predicate DispatchesRun(d: Doc, run: string, p: RunPayload) {
    && StringAt(d, "run_id") == Some(run)
    && StringAt(d, "task_id") == Some("bootstrap:" + run)
    && StringAt(d, "task_type") == Some("bootstrap")
    && "priority" in d && d["priority"] == VNumber(1)
    && ObjectAt(d, "plan_snapshot") == Some(map["kind" := VString("bootstrap")])
    && ObjectAt(d, "parameters").Some?
    && ObjectAt(ObjectAt(d, "parameters").value, "context") == p.context
    && ObjectAt(ObjectAt(d, "parameters").value, "preferences") == p.preferences
  }

  lemma DispatchDocMeans(e: Envelope, run: string, p: RunPayload)
    ensures DispatchesRun(DispatchDoc(e, run, p), run, p)
    ensures StringAt(DispatchDoc(e, run, p), "checkpoint_token") == Some("bootstrap:" + e.eventID + ":" + run)
  {
    var d := DispatchDoc(e, run, p);
    assert ObjectAt(d, "parameters") == Some(map["context" := Stored(p.context),
                                                 "preferences" := Stored(p.preferences)]);
  }

  /** Events are told apart by type and id. */
  lemma SameEventIff(e: Envelope, f: Envelope)
    ensures KeyOf(e) == KeyOf(f) <==> e.eventType == f.eventType && e.eventID == f.eventID
  {
  }

  /** The first checkpoint of a run, field by field. */
  lemma ReceivedMeans(e: Envelope, run: string, p: RunPayload)
    ensures var cp := ReceivedCheckpoint(e, run, p);
      && cp.runID == run && cp.stage == "run.enqueued" && cp.status == Received
      && cp.token == e.eventID + ":" + run && cp.retries == 0 && cp.payload.Some?
      && StringAt(cp.payload.value, "topic_id") == Some(p.topicID)
      && StringAt(cp.payload.value, "user_id") == Some(p.userID)
      && StringAt(cp.payload.value, "trigger") == Some(p.trigger)
      && ObjectAt(cp.payload.value, "preferences") == p.preferences
      && ObjectAt(cp.payload.value, "context") == p.context
  {
  }

  /** What a resume makes of any stored documents: each field is the first checkpoint's, if it holds one of
      the right type, and otherwise the dispatch's, where topic and user are looked for in the context and
      the trigger nowhere. */
  lemma RebuiltMeans(run: string, dispatch: Doc, received: Option<Checkpoint>)
    ensures var p := Rebuilt(run, dispatch, received);
      var first: Doc := if received.Some? && received.value.payload.Some? then received.value.payload.value else map[];
      var params := OrElse(ObjectAt(dispatch, "parameters"), map[]);
      var ctx := OrElse(ObjectAt(params, "context"), map[]);
      && p.runID == run
      && p.topicID == OrElse(StringAt(first, "topic_id"), OrElse(StringAt(ctx, "topic_id"), ""))
      && p.userID == OrElse(StringAt(first, "user_id"), OrElse(StringAt(ctx, "user_id"), ""))
      && p.trigger == OrElse(StringAt(first, "trigger"), "")
      && p.preferences == (if ObjectAt(first, "preferences").Some? then ObjectAt(first, "preferences")
                           else ObjectAt(params, "preferences"))
      && p.context == if ObjectAt(first, "context").Some? then ObjectAt(first, "context")
                      else ObjectAt(params, "context")
  {
  }

  /** The checkpoint of a started bootstrap task, and the one of its failure. */
  lemma BootstrapRowsMean(e: Envelope, run: string, p: RunPayload, attempt: nat, error: string)
    ensures var cp := StartCheckpoint(run, BootstrapTask(e, run, p), attempt);
      && cp.runID == run && cp.stage == "bootstrap.dispatch" && cp.status == Dispatched && cp.retries == attempt
      && cp.token == "bootstrap:" + e.eventID + ":" + run && DispatchOf(cp) == Some(DispatchDoc(e, run, p))
      && cp.payload.Some? && StringAt(cp.payload.value, "task_id") == Some("bootstrap.dispatch")
    ensures var cp := FailureCheckpoint(run, BootstrapTask(e, run, p), attempt, error);
      && cp.runID == run && cp.stage == "bootstrap.dispatch" && cp.status == Completed && cp.retries == attempt
      && cp.token == "bootstrap:" + e.eventID + ":" + run && DispatchOf(cp) == Some(DispatchDoc(e, run, p))
      && cp.payload.Some? && StringAt(cp.payload.value, "error") == Some(error)
  {
    StartCheckpointHasDispatch(e, run, p, attempt);
  }

  /** Every dispatch published in any run of the system is a complete bootstrap task of the run it is
      published for: it names that run, carries the token of a dispatched checkpoint of the run saved before,
      and the context and preferences that a handler saved before in the run's first checkpoint. */
  lemma PublishedIsComplete(w: World, cs: seq<Choice>, i: nat) returns (cp: Checkpoint, e: Envelope, p: RunPayload)
    requires Initial(w) && i < |Execute(w, cs).log| && Execute(w, cs).log[i].Published?
    ensures var log := Execute(w, cs).log;
      var run, d := log[i].run, log[i].dispatch;
      && DispatchesRun(d, run, p)
      && Saved(cp) in log[..i] && cp.runID == run && cp.stage == "bootstrap.dispatch" && cp.status == Dispatched
      && StringAt(d, "checkpoint_token") == Some(cp.token)
      && Saved(ReceivedCheckpoint(e, run, p)) in log[..i]
  {
    RunsKeepInv(w, cs);
    var log := Execute(w, cs).log;
    var run, d := log[i].run, log[i].dispatch;
    assert Justified(log[..i], run, d);
    cp :| Saved(cp) in log[..i] && IsDispatch(cp, run, d) && CarriesToken(cp, d);
    e, p :| d == DispatchDoc(e, run, p) && Saved(ReceivedCheckpoint(e, run, p)) in log[..i];
    DispatchDocMeans(e, run, p);
  }
}
