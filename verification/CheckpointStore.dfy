/** The idempotency and checkpoint tables, and the executor's checkpoint manager on top of them. */
module CheckpointStore {
  import opened Wrappers
  import opened Documents

  datatype Status = Received | Dispatched | Completed

  datatype Checkpoint = Checkpoint(runID: string, stage: string, status: Status, token: string,
                                   payload: Option<Doc>, retries: nat)

  type EventKey = (string, string)
  type RowKey = (string, string)

  /** The two tables: claimed event keys, and at most one checkpoint row per run and stage. */
  datatype Tables = Tables(claims: set<EventKey>, checkpoints: map<RowKey, Checkpoint>)

  predicate Claimable(key: EventKey) {
    key.0 != "" && key.1 != ""
  }

  predicate Storable(cp: Checkpoint) {
    cp.runID != "" && cp.stage != ""
  }

  function Upserted(t: Tables, cp: Checkpoint): Tables {
    t.(checkpoints := t.checkpoints[(cp.runID, cp.stage) := cp])
  }

  function MarkedAs(t: Tables, runID: string, stage: string, status: Status): Tables {
    if (runID, stage) in t.checkpoints then
      t.(checkpoints := t.checkpoints[(runID, stage) := t.checkpoints[(runID, stage)].(status := status)])
    else t
  }

  function Lookup(t: Tables, runID: string, stage: string): Option<Checkpoint> {
    if (runID, stage) in t.checkpoints then Some(t.checkpoints[(runID, stage)]) else None
  }

  /** Writing a row changes that row and no other, and marking one changes its status alone. */
  lemma RowsMean(t: Tables, cp: Checkpoint, runID: string, stage: string, status: Status)
    ensures Upserted(t, cp).claims == t.claims && MarkedAs(t, runID, stage, status).claims == t.claims
    ensures Lookup(Upserted(t, cp), cp.runID, cp.stage) == Some(cp)
    ensures runID != cp.runID || stage != cp.stage ==> Lookup(Upserted(t, cp), runID, stage) == Lookup(t, runID, stage)
    ensures Lookup(t, runID, stage).Some? ==>
      Lookup(MarkedAs(t, runID, stage, status), runID, stage)
      == Some(Lookup(t, runID, stage).value.(status := status))
    ensures Lookup(t, runID, stage).None? ==> MarkedAs(t, runID, stage, status) == t
    ensures runID != cp.runID || stage != cp.stage ==>
      Lookup(MarkedAs(t, runID, stage, status), cp.runID, cp.stage) == Lookup(t, cp.runID, cp.stage)
  {
  }

  /** `rows` lists the rows with a status once each, in any order. */
  ghost predicate IsListing(rows: seq<Checkpoint>, t: Tables, status: Status) {
    && (forall i, j :: 0 <= i < j < |rows| ==> rows[i] != rows[j])
    && forall cp :: cp in rows <==> cp in t.checkpoints.Values && cp.status == status
  }

  class Store {
    var claims: set<EventKey>
    var checkpoints: map<RowKey, Checkpoint>

    constructor ()
      ensures Now() == Tables({}, map[])
    {
      claims, checkpoints := {}, map[];
    }

    ghost function Now(): Tables
      reads this
    {
      Tables(claims, checkpoints)
    }

    method ClaimIdempotency(scope: string, key: string, reply: Reply) returns (claimed: bool, err: bool)
      modifies this
      ensures Now() == old(Now()).(claims := old(claims)
        + if Claimable((scope, key)) && !reply.FailedBefore? then {(scope, key)} else {})
      ensures err <==> scope == "" || key == "" || !reply.Fine?
      ensures claimed <==> !err && (scope, key) !in old(claims)
    {
      if scope == "" || key == "" || reply.FailedBefore? {
        return false, true;
      }
      var inserted := (scope, key) !in claims;
      claims := claims + {(scope, key)};
      if reply.FailedAfter? {
        return false, true;
      }
      return inserted, false;
    }

    method UpsertCheckpoint(cp: Checkpoint, reply: Reply) returns (err: bool)
      modifies this
      ensures Now() == if Storable(cp) && !reply.FailedBefore? then Upserted(old(Now()), cp) else old(Now())
      ensures err <==> cp.runID == "" || cp.stage == "" || !reply.Fine?
    {
      if cp.runID == "" || cp.stage == "" || reply.FailedBefore? {
        return true;
      }
      checkpoints := checkpoints[(cp.runID, cp.stage) := cp];
      return reply.FailedAfter?;
    }

    method GetCheckpoint(runID: string, stage: string, reply: Reply) returns (cp: Option<Checkpoint>, err: bool)
      ensures err <==> !reply.Fine?
      ensures cp == if err then None else Lookup(Now(), runID, stage)
    {
      if !reply.Fine? {
        return None, true;
      }
      if (runID, stage) in checkpoints {
        return Some(checkpoints[(runID, stage)]), false;
      }
      return None, false;
    }

    method ListCheckpointsByStatus(status: Status) returns (rows: seq<Checkpoint>)
      ensures IsListing(rows, Now(), status)
    {
      rows := [];
      var unseen := checkpoints.Values;
      while unseen != {}
        invariant unseen <= checkpoints.Values
        invariant forall i, j :: 0 <= i < j < |rows| ==> rows[i] != rows[j]
        invariant forall cp :: cp in rows <==> cp in checkpoints.Values && cp !in unseen && cp.status == status
      {
        var cp :| cp in unseen;
        if cp.status == status {
          rows := rows + [cp];
        }
        unseen := unseen - {cp};
      }
    }

    method MarkCheckpointStatus(runID: string, stage: string, status: Status, reply: Reply) returns (err: bool)
      modifies this
      ensures Now() == if reply.FailedBefore? then old(Now()) else MarkedAs(old(Now()), runID, stage, status)
      ensures err <==> !reply.Fine?
    {
      if reply.FailedBefore? {
        return true;
      }
      if (runID, stage) in checkpoints {
        checkpoints := checkpoints[(runID, stage) := checkpoints[(runID, stage)].(status := status)];
      }
      return reply.FailedAfter?;
    }
  }

  // ---- the executor's checkpoints ----

  /** The part of an executor task that its checkpoints record. */
  datatype TaskInfo = TaskInfo(id: string, stage: string, token: string, payload: Doc)

  function StageOf(t: TaskInfo): string {
    if t.stage == "" then t.id else t.stage
  }

  function TokenOf(t: TaskInfo): string {
    if t.token == "" then t.id else t.token
  }

  function StartCheckpoint(runID: string, t: TaskInfo, attempt: nat): Checkpoint {
    Checkpoint(runID, StageOf(t), Dispatched, TokenOf(t),
               Some(map["task_id" := VString(t.id), "payload" := VObject(t.payload)]), attempt)
  }

  function FailureCheckpoint(runID: string, t: TaskInfo, attempt: nat, error: string): Checkpoint {
    var base: Doc := map["task_id" := VString(t.id), "error" := VString(error)];
    Checkpoint(runID, StageOf(t), Completed, TokenOf(t),
               Some(if t.payload == map[] then base else base["payload" := VObject(t.payload)]), attempt)
  }

  /** A task's checkpoints go under its stage and token or, for want of one, under its id, and hold its
      payload; that of a failure holds the error too. */
  lemma TaskRowsMean(runID: string, t: TaskInfo, attempt: nat, error: string)
    ensures var start, failure := StartCheckpoint(runID, t, attempt), FailureCheckpoint(runID, t, attempt, error);
      && start.runID == failure.runID == runID && start.retries == failure.retries == attempt
      && start.stage == failure.stage == (if t.stage == "" then t.id else t.stage)
      && start.token == failure.token == (if t.token == "" then t.id else t.token)
      && start.status == Dispatched && failure.status == Completed
      && start.payload == Some(map["task_id" := VString(t.id), "payload" := VObject(t.payload)])
      && failure.payload.Some?
      && StringAt(failure.payload.value, "task_id") == Some(t.id)
      && StringAt(failure.payload.value, "error") == Some(error)
      && ObjectAt(failure.payload.value, "payload") == if t.payload == map[] then None else Some(t.payload)
  {
  }

  method SaveTaskStart(store: Store?, runID: string, t: TaskInfo, attempt: nat, reply: Reply) returns (err: bool)
    modifies store
    ensures store == null ==> !err
    ensures store != null ==>
      && (err <==> !Storable(StartCheckpoint(runID, t, attempt)) || !reply.Fine?)
      && store.Now() == if Storable(StartCheckpoint(runID, t, attempt)) && !reply.FailedBefore?
                        then Upserted(old(store.Now()), StartCheckpoint(runID, t, attempt)) else old(store.Now())
  {
    if store == null {
      return false;
    }
    var stage := t.stage;
    if stage == "" {
      stage := t.id;
    }
    var token := t.token;
    if token == "" {
      token := t.id;
    }
    var cp := Checkpoint(runID, stage, Dispatched, token,
                         Some(map["task_id" := VString(t.id), "payload" := VObject(t.payload)]), attempt);
    err := store.UpsertCheckpoint(cp, reply);
  }

  method SaveTaskFailure(store: Store?, runID: string, t: TaskInfo, attempt: nat, error: string, reply: Reply)
    returns (err: bool)
    modifies store
    ensures store == null ==> !err
    ensures store != null ==>
      && (err <==> !Storable(FailureCheckpoint(runID, t, attempt, error)) || !reply.Fine?)
      && store.Now() == if Storable(FailureCheckpoint(runID, t, attempt, error)) && !reply.FailedBefore?
                        then Upserted(old(store.Now()), FailureCheckpoint(runID, t, attempt, error))
                        else old(store.Now())
  {
    if store == null {
      return false;
    }
    var payload: Doc := map["task_id" := VString(t.id)];
    if |t.payload| > 0 {
      payload := payload["payload" := VObject(t.payload)];
    }
    payload := payload["error" := VString(error)];
    assert t.payload == map[] <==> |t.payload| == 0;
    var cp := Checkpoint(runID, if t.stage == "" then t.id else t.stage, Completed,
                         if t.token == "" then t.id else t.token, Some(payload), attempt);
    assert payload == FailureCheckpoint(runID, t, attempt, error).payload.value;
    err := store.UpsertCheckpoint(cp, reply);
  }
}
