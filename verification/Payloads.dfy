/** The payloads of run events, dispatches and checkpoints, and how a resume rebuilds them. */
module Payloads {
  import opened Wrappers
  import opened Documents
  import opened CheckpointStore

  const STAGE_RUN_RECEIVED := "run.enqueued"
  const STAGE_BOOTSTRAP := "bootstrap.dispatch"

  datatype RunPayload = RunPayload(runID: string, topicID: string, userID: string, trigger: string,
                                   preferences: Option<Doc>, context: Option<Doc>)

  /** A stream message: its event key and its data, absent when it does not decode. */
  datatype Envelope = Envelope(eventType: string, eventID: string, data: Option<RunPayload>)

  function KeyOf(e: Envelope): EventKey {
    (e.eventType, e.eventID)
  }

  function ReceivedDoc(p: RunPayload): Doc {
    map["topic_id" := VString(p.topicID), "user_id" := VString(p.userID), "trigger" := VString(p.trigger),
        "preferences" := Stored(p.preferences), "context" := Stored(p.context)]
  }

  function ReceivedCheckpoint(e: Envelope, runID: string, p: RunPayload): Checkpoint {
    Checkpoint(runID, STAGE_RUN_RECEIVED, Received, e.eventID + ":" + runID, Some(ReceivedDoc(p)), 0)
  }

  function DispatchToken(e: Envelope, runID: string): string {
    "bootstrap:" + e.eventID + ":" + runID
  }

  /** The task.dispatch payload of a run's bootstrap task. */
  function DispatchDoc(e: Envelope, runID: string, p: RunPayload): Doc {
    map["run_id" := VString(runID), "task_id" := VString("bootstrap:" + runID), "task_type" := VString("bootstrap"),
        "priority" := VNumber(1), "plan_snapshot" := VObject(map["kind" := VString("bootstrap")]),
        "parameters" := VObject(map["context" := Stored(p.context), "preferences" := Stored(p.preferences)]),
        "checkpoint_token" := VString(DispatchToken(e, runID))]
  }

  function BootstrapTask(e: Envelope, runID: string, p: RunPayload): TaskInfo {
    TaskInfo(STAGE_BOOTSTRAP, STAGE_BOOTSTRAP, DispatchToken(e, runID),
             map["dispatch" := VObject(DispatchDoc(e, runID, p))])
  }

  /** What a resume takes out of a checkpoint: the wrapped dispatch payload, if the shape is right. */
  function DispatchOf(cp: Checkpoint): Option<Doc> {
    if cp.payload.None? then None
    else
      var wrapper := ObjectAt(cp.payload.value, "payload");
      if wrapper.None? then None else ObjectAt(wrapper.value, "dispatch")
  }

  /** What a resume can recover from the dispatch payload alone. */
  function FromDispatch(runID: string, dispatch: Doc): RunPayload {
    var empty := RunPayload(runID, "", "", "", None, None);
    match ObjectAt(dispatch, "parameters")
    case None => empty
    case Some(params) =>
      var withContext := match ObjectAt(params, "context")
        case None => empty
        case Some(c) => empty.(context := Some(c), topicID := OrElse(StringAt(c, "topic_id"), ""),
                               userID := OrElse(StringAt(c, "user_id"), ""));
      match ObjectAt(params, "preferences")
      case None => withContext
      case Some(prefs) => withContext.(preferences := Some(prefs))
  }

  /** `p` with every field that the run's first checkpoint also holds taken from there. */
  function Overlaid(p: RunPayload, received: Option<Checkpoint>): RunPayload {
    if received.None? || received.value.payload.None? then p
    else
      var d := received.value.payload.value;
      p.(topicID := OrElse(StringAt(d, "topic_id"), p.topicID),
         userID := OrElse(StringAt(d, "user_id"), p.userID),
         trigger := OrElse(StringAt(d, "trigger"), p.trigger),
         preferences := if ObjectAt(d, "preferences").Some? then ObjectAt(d, "preferences") else p.preferences,
         context := if ObjectAt(d, "context").Some? then ObjectAt(d, "context") else p.context)
  }

  /** The payload a resume works with; `received` is the run's first checkpoint, if it could be read. */
  function Rebuilt(runID: string, dispatch: Doc, received: Option<Checkpoint>): RunPayload {
    Overlaid(FromDispatch(runID, dispatch), received)
  }

  method BuildResumePayload(store: Store?, runID: string, dispatch: Doc, reply: Reply) returns (payload: RunPayload)
    ensures payload == Rebuilt(runID, dispatch,
      if store == null || !reply.Fine? then None else Lookup(store.Now(), runID, STAGE_RUN_RECEIVED))
  {
    payload := ReadDispatch(runID, dispatch);
    if store == null {
      return;
    }
    var cp, err := store.GetCheckpoint(runID, STAGE_RUN_RECEIVED, reply);
    if err || cp.None? || cp.value.payload.None? {
      return;
    }
    payload := ReadReceived(payload, cp.value, cp.value.payload.value);
  }

  method ReadDispatch(runID: string, dispatch: Doc) returns (payload: RunPayload)
    ensures payload == FromDispatch(runID, dispatch)
  {
    payload := RunPayload(runID, "", "", "", None, None);
    var params := ObjectAt(dispatch, "parameters");
    if params.Some? {
      var ctx := ObjectAt(params.value, "context");
      if ctx.Some? {
        payload := payload.(context := ctx);
        var topic := StringAt(ctx.value, "topic_id");
        if topic.Some? {
          payload := payload.(topicID := topic.value);
        }
        var user := StringAt(ctx.value, "user_id");
        if user.Some? {
          payload := payload.(userID := user.value);
        }
      }
      var prefs := ObjectAt(params.value, "preferences");
      if prefs.Some? {
        payload := payload.(preferences := prefs);
      }
    }
  }

  method ReadReceived(base: RunPayload, cp: Checkpoint, d: Doc) returns (payload: RunPayload)
    requires cp.payload == Some(d)
    ensures payload == Overlaid(base, Some(cp))
  {
    payload := base;
    var topic := StringAt(d, "topic_id");
    if topic.Some? {
      payload := payload.(topicID := topic.value);
    }
    var user := StringAt(d, "user_id");
    if user.Some? {
      payload := payload.(userID := user.value);
    }
    var trigger := StringAt(d, "trigger");
    if trigger.Some? {
      payload := payload.(trigger := trigger.value);
    }
    var prefs := ObjectAt(d, "preferences");
    if prefs.Some? {
      payload := payload.(preferences := prefs);
    }
    var ctx := ObjectAt(d, "context");
    if ctx.Some? {
      payload := payload.(context := ctx);
    }
  }

  /** The checkpoint a handler saves has the shape a resume destructures, and yields the dispatch back. */
  lemma StartCheckpointHasDispatch(e: Envelope, runID: string, p: RunPayload, attempt: nat)
    ensures DispatchOf(StartCheckpoint(runID, BootstrapTask(e, runID, p), attempt)) == Some(DispatchDoc(e, runID, p))
    ensures StartCheckpoint(runID, BootstrapTask(e, runID, p), attempt).stage == STAGE_BOOTSTRAP
  {
  }

  /** A resume rebuilds the payload the handler worked on, field by field. */
  lemma RebuildsStoredPayload(e: Envelope, runID: string, p: RunPayload)
    ensures Rebuilt(runID, DispatchDoc(e, runID, p), Some(ReceivedCheckpoint(e, runID, p))) == p.(runID := runID)
  {
    var d := DispatchDoc(e, runID, p);
    assert ObjectAt(d, "parameters") == Some(map["context" := Stored(p.context),
                                                 "preferences" := Stored(p.preferences)]);
  }

  /** A first checkpoint that can be read decides the topic. */
  lemma ReceivedTopicWins(runID: string, dispatch: Doc, e: Envelope, p: RunPayload)
    ensures Rebuilt(runID, dispatch, Some(ReceivedCheckpoint(e, runID, p))).topicID == p.topicID
  {
  }

  /** The topic that a payload's context happens to name. */
  function ContextTopic(p: RunPayload): string {
    if p.context.Some? then OrElse(StringAt(p.context.value, "topic_id"), "") else ""
  }

  /** Without the first checkpoint the trigger is lost, and the topic and user are only those the
      context happens to carry. */
  lemma RebuildsWithoutReceived(e: Envelope, runID: string, p: RunPayload)
    ensures Rebuilt(runID, DispatchDoc(e, runID, p), None) ==
      RunPayload(runID,
                 ContextTopic(p),
                 if p.context.Some? then OrElse(StringAt(p.context.value, "user_id"), "") else "",
                 "", p.preferences, p.context)
  {
    var d := DispatchDoc(e, runID, p);
    assert ObjectAt(d, "parameters") == Some(map["context" := Stored(p.context),
                                                 "preferences" := Stored(p.preferences)]);
  }
}
