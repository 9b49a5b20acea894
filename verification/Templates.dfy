/** Procedural templates: plan stages seen often enough in one topic become template suggestions. */
module Templates {
  import opened Dag
  import opened Tasks
  import opened PlanDocument
  import opened Snapshot
  import opened Text
  import opened Wrappers

  const THRESHOLD := 3

  /** A stage is recognised by its snapshot, within one topic. */
  datatype Key = Key(topic: string, snapshot: StageSnapshot)

  /** The title a snapshot's stage name and task types amount to. */
  type Naming = StageSnapshot -> string

  datatype Row = Row(occurrences: nat, templateID: Option<nat>)
  datatype Name = Name(topic: string, title: string)
  datatype Usage = Usage(key: Key, templateID: nat)

  /** Whom the planner names as the creator of the templates it makes. */
  const CREATOR := "system"

  /** The template tables and the ids of the users table. A topic has at most one template of a given name,
      and a template's creator, if it has one, is a user. */
  datatype Tables = Tables(
    users: set<string>, rows: map<Key, Row>, templates: map<Name, nat>, nextID: nat, versions: set<nat>,
    usage: seq<Usage>, metrics: map<nat, nat>)

  function Empty(users: set<string>): Tables {
    Tables(users, map[], map[], 0, {}, [], map[])
  }

  predicate Accepts(users: set<string>, creator: string) {
    creator == "" || creator in users
  }

  /** How each store call of one sighting ends. */
  datatype Calls = Calls(upsert: Reply, create: Reply, version: Reply, link: Reply, usage: Reply, metrics: Reply)

  predicate AllFine(c: Calls) {
    c.upsert.Fine? && c.create.Fine? && c.version.Fine? && c.link.Fine? && c.usage.Fine? && c.metrics.Fine?
  }

  function Metric(metrics: map<nat, nat>, id: nat): nat {
    if id in metrics then metrics[id] else 0
  }

  function NameOf(k: Key, naming: Naming): Name {
    Name(k.topic, naming(k.snapshot))
  }

  // ---- the statements on the tables ----

  function Upserted(db: Tables, k: Key): Tables {
    db.(rows := db.rows[k :=
      if k in db.rows then db.rows[k].(occurrences := db.rows[k].occurrences + 1) else Row(1, None)])
  }

  function Created(db: Tables, name: Name): Tables {
    db.(templates := db.templates[name := db.nextID], nextID := db.nextID + 1)
  }

  function Linked(db: Tables, k: Key, id: nat): Tables {
    if k in db.rows then db.(rows := db.rows[k := db.rows[k].(templateID := Some(id))]) else db
  }

  function Counted(db: Tables, id: nat): Tables {
    db.(metrics := db.metrics[id := Metric(db.metrics, id) + 1])
  }

  function Promoted(db: Tables, k: Key, name: Name, c: Calls): Tables {
    if c.create.FailedBefore? || name in db.templates || !Accepts(db.users, CREATOR) then db
    else if c.create.FailedAfter? || c.version.FailedBefore? then Created(db, name)
    else
      var made := Created(db, name).(versions := db.versions + {db.nextID});
      if c.version.FailedAfter? || c.link.FailedBefore? then made else Linked(made, k, db.nextID)
  }

  function Used(db: Tables, k: Key, id: nat, c: Calls): Tables {
    if c.usage.FailedBefore? then db
    else
      var logged := db.(usage := db.usage + [Usage(k, id)]);
      if c.usage.FailedAfter? || c.metrics.FailedBefore? then logged else Counted(logged, id)
  }

  /** One sighting of a stage. */
  function Sight(db: Tables, k: Key, naming: Naming, c: Calls): Tables {
    if c.upsert.FailedBefore? then db
    else
      var seen := Upserted(db, k);
      if c.upsert.FailedAfter? then seen
      else if seen.rows[k].templateID.Some? then Used(seen, k, seen.rows[k].templateID.value, c)
      else if seen.rows[k].occurrences >= THRESHOLD then Promoted(seen, k, NameOf(k, naming), c)
      else seen
  }

  class TemplateStore {
    const users: set<string>
    var rows: map<Key, Row>
    var templates: map<Name, nat>
    var nextID: nat
    var versions: set<nat>
    var usage: seq<Usage>
    var metrics: map<nat, nat>

    constructor (users: set<string>)
      ensures Now() == Empty(users)
    {
      this.users := users;
      rows, templates, nextID, versions, usage, metrics := map[], map[], 0, {}, [], map[];
    }

    ghost function Now(): Tables
      reads this
    {
      Tables(users, rows, templates, nextID, versions, usage, metrics)
    }

    method UpsertFingerprint(k: Key, reply: Reply) returns (state: Option<Row>)
      modifies this
      ensures Now() == if reply.FailedBefore? then old(Now()) else Upserted(old(Now()), k)
      ensures state == if reply.Fine? then Some(Now().rows[k]) else None
    {
      if reply.FailedBefore? {
        return None;
      }
      if k in rows {
        rows := rows[k := rows[k].(occurrences := rows[k].occurrences + 1)];
      } else {
        rows := rows[k := Row(1, None)];
      }
      return if reply.Fine? then Some(rows[k]) else None;
    }

    /** The template and its first version are inserted by separate statements. */
    method CreateTemplate(name: Name, creator: string, created: Reply, versioned: Reply) returns (id: Option<nat>)
      modifies this
      ensures var inserts := !created.FailedBefore? && name !in old(templates) && Accepts(users, creator);
        && Now() == (if !inserts then old(Now())
                     else if created.FailedAfter? || versioned.FailedBefore? then Created(old(Now()), name)
                     else Created(old(Now()), name).(versions := old(versions) + {old(nextID)}))
        && id == if inserts && created.Fine? && versioned.Fine? then Some(old(nextID)) else None
    {
      if created.FailedBefore? || name in templates || !(creator == "" || creator in users) {
        return None;
      }
      var made := nextID;
      templates, nextID := templates[name := made], nextID + 1;
      if created.FailedAfter? || versioned.FailedBefore? {
        return None;
      }
      versions := versions + {made};
      return if versioned.Fine? then Some(made) else None;
    }

    method LinkFingerprint(k: Key, id: nat, reply: Reply)
      modifies this
      ensures Now() == if reply.FailedBefore? then old(Now()) else Linked(old(Now()), k, id)
    {
      if !reply.FailedBefore? && k in rows {
        rows := rows[k := rows[k].(templateID := Some(id))];
      }
    }

    method RecordUsage(k: Key, id: nat, c: Calls)
      modifies this
      ensures Now() == Used(old(Now()), k, id, c)
    {
      if c.usage.FailedBefore? {
        return;
      }
      usage := usage + [Usage(k, id)];
      if c.usage.FailedAfter? || c.metrics.FailedBefore? {
        return;
      }
      metrics := metrics[id := (if id in metrics then metrics[id] else 0) + 1];
    }
  }

  // ---- annotating a plan ----

  datatype Event = Event(key: Key, calls: Calls)

  function After(db: Tables, events: seq<Event>, naming: Naming): Tables {
    if events == [] then db
    else
      var last := events[|events| - 1];
      Sight(After(db, events[..|events| - 1], naming), last.key, naming, last.calls)
  }

  /** The sightings of a plan: one per stage with a recognised task, in stage order. */
  ghost predicate Witnessed(events: seq<Event>, topic: string, stages: seq<Stage>, tasks: map<Id, Task>,
                            calls: nat -> Calls) {
    if stages == [] then events == []
    else
      var n := |stages| - 1;
      if forall id :: id in stages[n].tasks ==> id !in tasks then Witnessed(events, topic, stages[..n], tasks, calls)
      else
        && events != []
        && events[|events| - 1].key.topic == topic && events[|events| - 1].calls == calls(n)
        && IsSnapshot(events[|events| - 1].key.snapshot, stages[n], tasks)
        && Witnessed(events[..|events| - 1], topic, stages[..n], tasks, calls)
  }

  lemma OneMoreStage(events: seq<Event>, topic: string, stages: seq<Stage>, i: nat, tasks: map<Id, Task>,
                     calls: nat -> Calls, snapshot: Option<StageSnapshot>)
    requires i < |stages| && Witnessed(events, topic, stages[..i], tasks, calls)
    requires snapshot.None? <==> forall id :: id in stages[i].tasks ==> id !in tasks
    requires snapshot.Some? ==> IsSnapshot(snapshot.value, stages[i], tasks)
    ensures snapshot.None? ==> Witnessed(events, topic, stages[..i + 1], tasks, calls)
    ensures snapshot.Some? ==>
      Witnessed(events + [Event(Key(topic, snapshot.value), calls(i))], topic, stages[..i + 1], tasks, calls)
  {
    var more := stages[..i + 1];
    assert more[..i] == stages[..i] && more[i] == stages[i];
    if snapshot.Some? {
      var e := Event(Key(topic, snapshot.value), calls(i));
      var events' := events + [e];
      assert events'[..|events|] == events && events'[|events|] == e;
      assert exists id :: id in more[i].tasks && id in tasks;
      assert Witnessed(events', topic, more, tasks, calls);
    } else {
      assert Witnessed(events, topic, more, tasks, calls);
    }
  }

  method SightStage(store: TemplateStore, k: Key, naming: Naming, c: Calls)
    modifies store
    ensures store.Now() == Sight(old(store.Now()), k, naming, c)
  {
    var state := store.UpsertFingerprint(k, c.upsert);
    if state.None? {
      return;
    }
    if state.value.templateID.None? && state.value.occurrences >= THRESHOLD {
      var id := store.CreateTemplate(NameOf(k, naming), CREATOR, c.create, c.version);
      if id.Some? {
        store.LinkFingerprint(k, id.value, c.link);
      }
    }
    if state.value.templateID.Some? {
      store.RecordUsage(k, state.value.templateID.value, c);
    }
  }

  method AnnotateProceduralTemplates(store: TemplateStore, topicID: string, doc: Document, tasks: map<Id, Task>,
                                     naming: Naming, calls: nat -> Calls)
    returns (ghost events: seq<Event>)
    requires Indexed(tasks)
    modifies store
    ensures store.Now() == After(old(store.Now()), events, naming)
    ensures if TrimSpace(topicID) == "" then events == []
      else Witnessed(events, TrimSpace(topicID), doc.executionLayers, tasks, calls)
    ensures (forall i :: AllFine(calls(i))) ==> forall e :: e in events ==> AllFine(e.calls)
  {
    events := [];
    var topic := TrimSpace(topicID);
    if topic == "" {
      return;
    }
    var stages := doc.executionLayers;
    for i := 0 to |stages|
      invariant store.Now() == After(old(store.Now()), events, naming)
      invariant Witnessed(events, topic, stages[..i], tasks, calls)
      invariant (forall i :: AllFine(calls(i))) ==> forall e :: e in events ==> AllFine(e.calls)
    {
      var snapshot := ComputeStageSnapshot(stages[i], tasks);
      OneMoreStage(events, topic, stages, i, tasks, calls, snapshot);
      if snapshot.None? {
        continue;
      }
      var k := Key(topic, snapshot.value);
      SightStage(store, k, naming, calls(i));
      events := events + [Event(k, calls(i))];
    }
    assert stages[..|stages|] == stages;
  }
}
