/** What repeated sightings of plan stages lead to. */
module Promotion {
  import opened Templates
  import opened Wrappers

  function Count(events: seq<Event>, k: Key): nat {
    if events == [] then 0
    else Count(events[..|events| - 1], k) + if events[|events| - 1].key == k then 1 else 0
  }

  ghost predicate Namesakes(k: Key, j: Key, naming: Naming) {
    k != j && NameOf(k, naming) == NameOf(j, naming)
  }

  /** `k` has been seen often enough, and nothing of the same name has. */
  ghost predicate Leads(events: seq<Event>, k: Key, naming: Naming) {
    Count(events, k) >= THRESHOLD && forall j :: Namesakes(k, j, naming) ==> Count(events, j) < THRESHOLD
  }

  /** `k` was the first of its name to be seen often enough. */
  ghost predicate First(events: seq<Event>, k: Key, naming: Naming) {
    exists n :: 0 <= n <= |events| && Leads(events[..n], k, naming)
  }

  lemma CountNext(events: seq<Event>, e: Event, k: Key)
    ensures Count(events + [e], k) == Count(events, k) + if e.key == k then 1 else 0
  {
    assert (events + [e])[..|events|] == events;
  }

  lemma FirstNext(events: seq<Event>, e: Event, k: Key, naming: Naming)
    ensures First(events + [e], k, naming) <==> First(events, k, naming) || Leads(events + [e], k, naming)
  {
    var next := events + [e];
    assert next[..|next|] == next;
    assert forall n :: 0 <= n <= |events| ==> next[..n] == events[..n];
    if First(events, k, naming) {
      var n :| 0 <= n <= |events| && Leads(events[..n], k, naming);
      assert Leads(next[..n], k, naming);
    }
  }

  lemma OthersLeadBefore(events: seq<Event>, e: Event, k: Key, naming: Naming)
    requires Leads(events + [e], k, naming) && (e.key != k || Count(events, k) >= THRESHOLD)
    ensures First(events, k, naming)
  {
    CountNext(events, e, k);
    forall j | Namesakes(k, j, naming)
      ensures Count(events, j) < THRESHOLD
    {
      CountNext(events, e, j);
    }
    assert events[..|events|] == events;
  }

  lemma {:induction false} CountGrows(events: seq<Event>, n: nat, k: Key)
    requires n <= |events|
    ensures Count(events[..n], k) <= Count(events, k)
  {
    if n == |events| {
      assert events[..n] == events;
    } else {
      var front := events[..|events| - 1];
      assert front[..n] == events[..n];
      CountGrows(front, n, k);
    }
  }

  lemma FirstIsFrequent(events: seq<Event>, k: Key, naming: Naming)
    requires First(events, k, naming)
    ensures Count(events, k) >= THRESHOLD
  {
    var n :| 0 <= n <= |events| && Leads(events[..n], k, naming);
    CountGrows(events, n, k);
  }

  ghost predicate OccurrencesAre(rows: map<Key, Row>, events: seq<Event>) {
    forall k :: (k in rows <==> Count(events, k) > 0) && (k in rows ==> rows[k].occurrences == Count(events, k))
  }

  /** A name is taken exactly when some stage of that name has been seen often enough. */
  ghost predicate NamesAre(templates: map<Name, nat>, events: seq<Event>, naming: Naming) {
    && (forall k :: Count(events, k) >= THRESHOLD ==> NameOf(k, naming) in templates)
    && (forall name :: name in templates ==> exists k :: NameOf(k, naming) == name && Count(events, k) >= THRESHOLD)
  }

  ghost predicate FreshIDs(templates: map<Name, nat>, nextID: nat, metrics: map<nat, nat>) {
    && (forall name :: name in templates ==> templates[name] < nextID)
    && (forall m, n :: m in templates && n in templates && m != n ==> templates[m] != templates[n])
    && (forall id :: id in metrics ==> id < nextID)
  }

  /** Exactly the first of each name is linked, and it is linked to the template of that name. */
  ghost predicate LinksAre(rows: map<Key, Row>, templates: map<Name, nat>, events: seq<Event>, naming: Naming) {
    forall k :: k in rows ==>
      && (rows[k].templateID.Some? <==> First(events, k, naming))
      && (rows[k].templateID.Some? ==>
            NameOf(k, naming) in templates && rows[k].templateID.value == templates[NameOf(k, naming)])
  }

  /** A linked stage has been used once for each sighting after the one that made its template. */
  ghost predicate UsagesAre(usage: seq<Usage>, rows: map<Key, Row>, events: seq<Event>) {
    forall u: Usage :: multiset(usage)[u] ==
      if u.key in rows && rows[u.key].templateID == Some(u.templateID) && Count(events, u.key) >= THRESHOLD
      then Count(events, u.key) - THRESHOLD else 0
  }

  ghost predicate MetricsAre(rows: map<Key, Row>, metrics: map<nat, nat>) {
    forall k :: k in rows && rows[k].templateID.Some? ==>
      rows[k].occurrences >= THRESHOLD && Metric(metrics, rows[k].templateID.value) == rows[k].occurrences - THRESHOLD
  }

  ghost predicate Lawful(db: Tables, events: seq<Event>, naming: Naming) {
    && OccurrencesAre(db.rows, events) && NamesAre(db.templates, events, naming)
      && FreshIDs(db.templates, db.nextID, db.metrics)
    && LinksAre(db.rows, db.templates, events, naming) && UsagesAre(db.usage, db.rows, events)
      && MetricsAre(db.rows, db.metrics)
  }

  lemma FirstUnchanged(events: seq<Event>, e: Event, j: Key, naming: Naming)
    requires Count(events, e.key) + 1 == THRESHOLD ==> !Leads(events + [e], e.key, naming)
    ensures First(events + [e], j, naming) <==> First(events, j, naming)
  {
    FirstNext(events, e, j, naming);
    if Leads(events + [e], j, naming) {
      CountNext(events, e, j);
      OthersLeadBefore(events, e, j, naming);
    }
  }

  lemma SeenOccurrences(db: Tables, events: seq<Event>, e: Event)
    requires OccurrencesAre(db.rows, events)
    ensures OccurrencesAre(Upserted(db, e.key).rows, events + [e])
  {
    forall k {
      CountNext(events, e, k);
    }
  }

  /** Links after a sighting that makes no template. */
  lemma LinksKept(db: Tables, events: seq<Event>, e: Event, naming: Naming)
    requires OccurrencesAre(db.rows, events) && LinksAre(db.rows, db.templates, events, naming)
    requires Count(events, e.key) + 1 == THRESHOLD ==> !Leads(events + [e], e.key, naming)
    ensures LinksAre(Upserted(db, e.key).rows, Upserted(db, e.key).templates, events + [e], naming)
  {
    var k, seen := e.key, Upserted(db, e.key);
    if First(events, k, naming) {
      FirstIsFrequent(events, k, naming);
    }
    forall j | j in seen.rows
      ensures seen.rows[j].templateID.Some? <==> First(events + [e], j, naming)
    {
      FirstUnchanged(events, e, j, naming);
    }
  }

  lemma UnlinkedUsages(db: Tables, events: seq<Event>, e: Event)
    requires UsagesAre(db.usage, db.rows, events) && (e.key in db.rows ==> db.rows[e.key].templateID.None?)
    ensures UsagesAre(Upserted(db, e.key).usage, Upserted(db, e.key).rows, events + [e])
  {
    forall u: Usage {
      CountNext(events, e, u.key);
    }
  }

  lemma UnlinkedMetrics(db: Tables, k: Key)
    requires MetricsAre(db.rows, db.metrics) && (k in db.rows ==> db.rows[k].templateID.None?)
    ensures MetricsAre(Upserted(db, k).rows, db.metrics)
  {
  }

  /** A sighting that neither makes a template nor uses one. */
  lemma PlainSighting(db: Tables, events: seq<Event>, e: Event, naming: Naming)
    requires Lawful(db, events, naming) && (e.key in db.rows ==> db.rows[e.key].templateID.None?)
    requires Count(events, e.key) + 1 >= THRESHOLD ==> NameOf(e.key, naming) in db.templates
    ensures Lawful(Upserted(db, e.key), events + [e], naming)
  {
    var seen, next := Upserted(db, e.key), events + [e];
    assert OccurrencesAre(seen.rows, next) by { SeenOccurrences(db, events, e); }
    assert LinksAre(seen.rows, seen.templates, next, naming) by {
      NotLeading(db, events, e, naming);
      LinksKept(db, events, e, naming);
    }
    assert NamesAre(seen.templates, next, naming) by { KeepsNames(db, events, e, naming); }
    assert UsagesAre(seen.usage, seen.rows, next) by { UnlinkedUsages(db, events, e); }
    UnlinkedMetrics(db, e.key);
  }

  lemma NotLeading(db: Tables, events: seq<Event>, e: Event, naming: Naming)
    requires NamesAre(db.templates, events, naming)
    requires Count(events, e.key) + 1 >= THRESHOLD ==> NameOf(e.key, naming) in db.templates
    ensures Count(events, e.key) + 1 == THRESHOLD ==> !Leads(events + [e], e.key, naming)
  {
    if Count(events, e.key) + 1 == THRESHOLD {
      var j :| NameOf(j, naming) == NameOf(e.key, naming) && Count(events, j) >= THRESHOLD;
      CountNext(events, e, j);
      assert Namesakes(e.key, j, naming);
    }
  }

  lemma KeepsNames(db: Tables, events: seq<Event>, e: Event, naming: Naming)
    requires NamesAre(db.templates, events, naming)
    requires Count(events, e.key) + 1 >= THRESHOLD ==> NameOf(e.key, naming) in db.templates
    ensures NamesAre(db.templates, events + [e], naming)
  {
    forall k {
      CountNext(events, e, k);
    }
    forall name | name in db.templates
      ensures exists k :: NameOf(k, naming) == name && Count(events + [e], k) >= THRESHOLD
    {
      var k :| NameOf(k, naming) == name && Count(events, k) >= THRESHOLD;
      assert Count(events + [e], k) >= THRESHOLD;
    }
  }

  lemma OnlyOneFirst(events: seq<Event>, j: Key, k: Key, naming: Naming)
    requires Namesakes(j, k, naming) && First(events, j, naming)
    ensures !First(events, k, naming)
  {
    var m :| 0 <= m <= |events| && Leads(events[..m], j, naming);
    forall n | 0 <= n <= |events|
      ensures !Leads(events[..n], k, naming)
    {
      if m <= n {
        assert events[..n][..m] == events[..m];
        CountGrows(events[..n], m, j);
        assert Namesakes(k, j, naming);
      } else {
        assert events[..m][..n] == events[..n];
        CountGrows(events[..m], n, k);
      }
    }
  }

  /** Different linked stages are linked to different templates. */
  lemma LinksDiffer(db: Tables, events: seq<Event>, j: Key, k: Key, naming: Naming)
    requires LinksAre(db.rows, db.templates, events, naming) && FreshIDs(db.templates, db.nextID, db.metrics)
    requires j in db.rows && k in db.rows && j != k && db.rows[j].templateID.Some? && db.rows[k].templateID.Some?
    ensures db.rows[j].templateID != db.rows[k].templateID
  {
    if NameOf(j, naming) == NameOf(k, naming) {
      OnlyOneFirst(events, k, j, naming);
    }
  }

  lemma UsingMetrics(db: Tables, events: seq<Event>, k: Key, naming: Naming)
    requires LinksAre(db.rows, db.templates, events, naming) && FreshIDs(db.templates, db.nextID, db.metrics)
      && MetricsAre(db.rows, db.metrics)
    requires k in db.rows && db.rows[k].templateID.Some?
    ensures MetricsAre(Counted(Upserted(db, k), db.rows[k].templateID.value).rows,
                       Counted(Upserted(db, k), db.rows[k].templateID.value).metrics)
  {
    forall j | j in db.rows && j != k && db.rows[j].templateID.Some?
      ensures db.rows[j].templateID != db.rows[k].templateID
    {
      LinksDiffer(db, events, j, k, naming);
    }
  }

  lemma UsingKeepsLinks(db: Tables, events: seq<Event>, e: Event, naming: Naming)
    requires OccurrencesAre(db.rows, events) && NamesAre(db.templates, events, naming)
      && LinksAre(db.rows, db.templates, events, naming)
    requires e.key in db.rows && db.rows[e.key].templateID.Some?
    ensures LinksAre(Upserted(db, e.key).rows, db.templates, events + [e], naming)
    ensures NamesAre(db.templates, events + [e], naming) && Count(events, e.key) >= THRESHOLD
  {
    assert Count(events, e.key) >= THRESHOLD by { FirstIsFrequent(events, e.key, naming); }
    LinksKept(db, events, e, naming);
    KeepsNames(db, events, e, naming);
  }

  lemma UsingKeepsIDs(db: Tables, events: seq<Event>, k: Key, naming: Naming)
    requires LinksAre(db.rows, db.templates, events, naming) && FreshIDs(db.templates, db.nextID, db.metrics)
      && MetricsAre(db.rows, db.metrics)
    requires k in db.rows && db.rows[k].templateID.Some?
    ensures var after := Counted(Upserted(db, k), db.rows[k].templateID.value);
      MetricsAre(after.rows, after.metrics) && FreshIDs(db.templates, db.nextID, after.metrics)
  {
    UsingMetrics(db, events, k, naming);
  }

  lemma UsedWhenFine(db: Tables, k: Key, id: nat, c: Calls)
    requires AllFine(c)
    ensures Used(db, k, id, c) == db.(usage := db.usage + [Usage(k, id)], metrics := Counted(db, id).metrics)
  {
  }

  /** A sighting that uses the template it is linked to. */
  lemma UsingSighting(db: Tables, events: seq<Event>, e: Event, naming: Naming)
    requires Lawful(db, events, naming) && e.key in db.rows && db.rows[e.key].templateID.Some? && AllFine(e.calls)
    ensures Lawful(Used(Upserted(db, e.key), e.key, db.rows[e.key].templateID.value, e.calls), events + [e], naming)
  {
    var k, next := e.key, events + [e];
    var id := db.rows[k].templateID.value;
    var seen := Upserted(db, k);
    var after := Used(seen, k, id, e.calls);
    UsedWhenFine(seen, k, id, e.calls);
    assert OccurrencesAre(seen.rows, next) by { SeenOccurrences(db, events, e); }
    assert LinksAre(seen.rows, db.templates, next, naming) && NamesAre(db.templates, next, naming)
      && Count(events, k) >= THRESHOLD by {
      UsingKeepsLinks(db, events, e, naming);
    }
    assert MetricsAre(seen.rows, Counted(seen, id).metrics)
      && FreshIDs(db.templates, db.nextID, Counted(seen, id).metrics) by {
      UsingKeepsIDs(db, events, k, naming);
    }
    assert UsagesAre(db.usage + [Usage(k, id)], seen.rows, next) by { UsageNext(db, events, e, id); }
  }

  lemma UsageNext(db: Tables, events: seq<Event>, e: Event, id: nat)
    requires UsagesAre(db.usage, db.rows, events) && e.key in db.rows && db.rows[e.key].templateID == Some(id)
    requires Count(events, e.key) >= THRESHOLD
    ensures UsagesAre(db.usage + [Usage(e.key, id)], Upserted(db, e.key).rows, events + [e])
  {
    forall u: Usage {
      CountNext(events, e, u.key);
    }
  }

  lemma PromotingLeads(db: Tables, events: seq<Event>, e: Event, naming: Naming)
    requires NamesAre(db.templates, events, naming) && Count(events, e.key) + 1 >= THRESHOLD
      && NameOf(e.key, naming) !in db.templates
    ensures Count(events + [e], e.key) == THRESHOLD && Leads(events + [e], e.key, naming)
    ensures forall j :: First(events + [e], j, naming) <==> First(events, j, naming) || j == e.key
  {
    var k, next := e.key, events + [e];
    forall j
      ensures Count(next, j) == Count(events, j) + if j == k then 1 else 0
    {
      CountNext(events, e, j);
    }
    assert Count(events, k) < THRESHOLD;
    assert forall j :: Namesakes(k, j, naming) ==> Count(events, j) < THRESHOLD;
    forall j
      ensures First(next, j, naming) <==> First(events, j, naming) || j == k
    {
      FirstNext(events, e, j, naming);
      if j != k && Leads(next, j, naming) {
        OthersLeadBefore(events, e, j, naming);
      }
    }
  }

  lemma PromotingNames(db: Tables, events: seq<Event>, e: Event, naming: Naming)
    requires NamesAre(db.templates, events, naming) && Count(events, e.key) + 1 >= THRESHOLD
    ensures NamesAre(Created(db, NameOf(e.key, naming)).templates, events + [e], naming)
  {
    forall j {
      CountNext(events, e, j);
    }
    forall name | name in db.templates
      ensures exists j :: NameOf(j, naming) == name && Count(events + [e], j) >= THRESHOLD
    {
      var j :| NameOf(j, naming) == name && Count(events, j) >= THRESHOLD;
      assert Count(events + [e], j) >= THRESHOLD;
    }
  }

  lemma PromotingUsages(db: Tables, events: seq<Event>, e: Event, id: nat)
    requires UsagesAre(db.usage, db.rows, events) && (e.key in db.rows ==> db.rows[e.key].templateID.None?)
    requires Count(events + [e], e.key) == THRESHOLD
    ensures UsagesAre(Linked(Upserted(db, e.key), e.key, id).usage,
                      Linked(Upserted(db, e.key), e.key, id).rows, events + [e])
  {
    forall u: Usage {
      CountNext(events, e, u.key);
    }
  }

  lemma PromotingLinks(db: Tables, events: seq<Event>, next: seq<Event>, k: Key, naming: Naming)
    requires LinksAre(db.rows, db.templates, events, naming) && (k in db.rows ==> db.rows[k].templateID.None?)
    requires NameOf(k, naming) !in db.templates
    requires forall j :: First(next, j, naming) <==> First(events, j, naming) || j == k
    ensures var after := Linked(Created(Upserted(db, k), NameOf(k, naming)), k, db.nextID);
      LinksAre(after.rows, after.templates, next, naming)
  {
  }

  lemma PromotingMetrics(db: Tables, k: Key, name: Name)
    requires FreshIDs(db.templates, db.nextID, db.metrics) && MetricsAre(db.rows, db.metrics) && LinkedBelow(db)
    requires Upserted(db, k).rows[k].occurrences == THRESHOLD
    requires k in db.rows ==> db.rows[k].templateID.None?
    ensures var after := Linked(Created(Upserted(db, k), name), k, db.nextID);
      && MetricsAre(after.rows, after.metrics)
      && (name !in db.templates ==> FreshIDs(after.templates, after.nextID, after.metrics))
  {
    assert db.nextID !in db.metrics;
  }

  ghost predicate LinkedBelow(db: Tables) {
    forall k :: k in db.rows && db.rows[k].templateID.Some? ==> db.rows[k].templateID.value < db.nextID
  }

  /** A sighting that makes a template. */
  lemma PromotingSighting(db: Tables, events: seq<Event>, e: Event, naming: Naming)
    requires Lawful(db, events, naming) && (e.key in db.rows ==> db.rows[e.key].templateID.None?) && AllFine(e.calls)
    requires CREATOR in db.users
    requires Count(events, e.key) + 1 >= THRESHOLD && NameOf(e.key, naming) !in db.templates
    ensures Lawful(Promoted(Upserted(db, e.key), e.key, NameOf(e.key, naming), e.calls), events + [e], naming)
  {
    var k, next := e.key, events + [e];
    var after := Promoted(Upserted(db, k), k, NameOf(k, naming), e.calls);
    SeenOccurrences(db, events, e);
    assert OccurrencesAre(after.rows, next);
    PromotingLeads(db, events, e, naming);
    PromotingLinks(db, events, next, k, naming);
    assert LinksAre(after.rows, after.templates, next, naming);
    PromotingNames(db, events, e, naming);
    assert NamesAre(after.templates, next, naming);
    PromotingUsages(db, events, e, db.nextID);
    assert UsagesAre(after.usage, after.rows, next);
    PromotingMetrics(db, k, NameOf(k, naming));
    assert MetricsAre(after.rows, after.metrics) && FreshIDs(after.templates, after.nextID, after.metrics);
  }

  lemma {:induction false} UsersStay(db: Tables, events: seq<Event>, naming: Naming)
    ensures After(db, events, naming).users == db.users
  {
    if events != [] {
      UsersStay(db, events[..|events| - 1], naming);
    }
  }

  lemma SightingIsLawful(db: Tables, events: seq<Event>, e: Event, naming: Naming)
    requires Lawful(db, events, naming) && AllFine(e.calls) && CREATOR in db.users
    ensures Lawful(Sight(db, e.key, naming, e.calls), events + [e], naming)
  {
    if e.key in db.rows && db.rows[e.key].templateID.Some? {
      UsingSighting(db, events, e, naming);
    } else if Count(events, e.key) + 1 >= THRESHOLD && NameOf(e.key, naming) !in db.templates {
      PromotingSighting(db, events, e, naming);
    } else {
      PlainSighting(db, events, e, naming);
    }
  }

  /** The law of promotion, for a users table that accepts the creator the planner names. After any
      sightings whose store calls succeed: occurrences count sightings; a name is taken once some stage of
      that name was seen three times; the first such stage alone is linked; and both its usages and its
      template's metrics are the sightings after the third. */
  lemma {:induction false} LawOfPromotion(users: set<string>, events: seq<Event>, naming: Naming)
    requires CREATOR in users && forall e :: e in events ==> AllFine(e.calls)
    ensures Lawful(After(Empty(users), events, naming), events, naming)
  {
    if events != [] {
      var before, e := events[..|events| - 1], events[|events| - 1];
      LawOfPromotion(users, before, naming);
      UsersStay(Empty(users), before, naming);
      assert events == before + [e];
      SightingIsLawful(After(Empty(users), before, naming), before, e, naming);
    }
  }

  lemma ValuesOfCreated(db: Tables, name: Name)
    requires name !in db.templates
    ensures Created(db, name).templates.Values == db.templates.Values + {db.nextID}
  {
    var templates := Created(db, name).templates;
    assert templates[name] == db.nextID;
    assert forall other :: other in db.templates ==> templates[other] == db.templates[other];
  }

  /** Only templates have a first version, and unless a call fails, every template has one. */
  lemma {:induction false} VersionsAreTemplates(users: set<string>, events: seq<Event>, naming: Naming)
    ensures var db := After(Empty(users), events, naming);
      && db.versions <= db.templates.Values
      && ((forall e :: e in events ==> AllFine(e.calls)) ==> db.versions == db.templates.Values)
  {
    if events != [] {
      var before, e := events[..|events| - 1], events[|events| - 1];
      VersionsAreTemplates(users, before, naming);
      assert events == before + [e];
      var db := After(Empty(users), before, naming);
      if NameOf(e.key, naming) !in db.templates {
        ValuesOfCreated(Upserted(db, e.key), NameOf(e.key, naming));
      }
    }
  }

  // ---- a creator the schema does not accept ----

  /** Nothing but occurrences. */
  ghost predicate Bare(db: Tables) {
    && db.templates == map[] && db.versions == {} && db.usage == [] && db.metrics == map[]
    && forall k :: k in db.rows ==> db.rows[k].templateID.None?
  }

  lemma {:induction false} NothingPromoted(users: set<string>, events: seq<Event>, naming: Naming)
    requires !Accepts(users, CREATOR)
    ensures Bare(After(Empty(users), events, naming))
    ensures (forall e :: e in events ==> e.calls.upsert.Fine?)
      ==> OccurrencesAre(After(Empty(users), events, naming).rows, events)
  {
    if events != [] {
      var before, e := events[..|events| - 1], events[|events| - 1];
      NothingPromoted(users, before, naming);
      UsersStay(Empty(users), before, naming);
      assert events == before + [e];
      var db := After(Empty(users), before, naming);
      if OccurrencesAre(db.rows, before) {
        SeenOccurrences(db, before, e);
      }
    }
  }

  /** The form of the ids in the users table: 32 hexadecimal digits in five groups. */
  predicate IsUUID(s: string) {
    && |s| == 36 && s[8] == s[13] == s[18] == s[23] == '-'
    && forall i :: 0 <= i < 36 && i !in {8, 13, 18, 23} ==> '0' <= s[i] <= '9' || 'a' <= s[i] <= 'f'
  }

  /** On the schema as it is, with UUIDs for users, no stage is ever promoted, whatever the calls do: no
      template, no link and no usage, while occurrences go on counting. */
  lemma NeverPromotedOnSchema(users: set<string>, events: seq<Event>, naming: Naming)
    requires forall u :: u in users ==> IsUUID(u)
    ensures var db := After(Empty(users), events, naming);
      && Bare(db)
      && ((forall e :: e in events ==> e.calls.upsert.Fine?) ==> OccurrencesAre(db.rows, events))
  {
    assert !Accepts(users, CREATOR) by {
      assert !IsUUID(CREATOR);
    }
    NothingPromoted(users, events, naming);
  }

  // ---- one stage ----

  /** A stage no other stage of its topic shares a name with, after `n` sightings whose calls succeed: it
      has a template, its own, exactly when `n` is at least three and the creator is accepted, and then
      exactly `n - 3` recorded usages. */
  lemma UnsharedNameIsPromoted(users: set<string>, events: seq<Event>, k: Key, naming: Naming)
    requires forall e :: e in events ==> AllFine(e.calls)
    requires forall e :: e in events && e.key != k ==>
      !(e.key.topic == k.topic && naming(e.key.snapshot) == naming(k.snapshot))
    ensures var db, n := After(Empty(users), events, naming), Count(events, k);
      var name, accepted := Name(k.topic, naming(k.snapshot)), "system" in users;
      && (name in db.templates <==> n >= 3 && accepted)
      && (n > 0 <==> k in db.rows)
      && (n > 0 ==> db.rows[k].occurrences == n && (db.rows[k].templateID.Some? <==> n >= 3 && accepted))
      && (n >= 3 && accepted ==>
            var id := db.templates[name];
            && db.rows[k].templateID == Some(id)
            && multiset(db.usage)[Usage(k, id)] == n - 3 == Metric(db.metrics, id))
  {
    if CREATOR in users {
      LawOfPromotion(users, events, naming);
      LoneStage(users, events, k, naming);
    } else {
      NothingPromoted(users, events, naming);
    }
  }

  /** Sightings are counted one by one. */
  lemma {:induction false} CountMeans(events: seq<Event>, k: Key)
    ensures Count(events, k) == multiset(KeysOf(events))[k]
  {
    if events != [] {
      var front := events[..|events| - 1];
      CountMeans(front, k);
      assert KeysOf(events) == KeysOf(front) + [events[|events| - 1].key];
    }
  }

  function KeysOf(events: seq<Event>): seq<Key> {
    seq(|events|, i requires 0 <= i < |events| => events[i].key)
  }

  lemma LoneStage(users: set<string>, events: seq<Event>, k: Key, naming: Naming)
    requires forall e :: e in events ==> !Namesakes(k, e.key, naming)
    ensures First(events, k, naming) <==> Count(events, k) >= THRESHOLD
    ensures forall j :: NameOf(j, naming) == NameOf(k, naming) && Count(events, j) >= THRESHOLD ==> j == k
  {
    forall j | Namesakes(k, j, naming)
      ensures Count(events, j) == 0
    {
      NeverSeen(events, j);
    }
    if Count(events, k) >= THRESHOLD {
      assert events[..|events|] == events;
      assert Leads(events[..|events|], k, naming);
    } else if First(events, k, naming) {
      FirstIsFrequent(events, k, naming);
    }
    forall j | NameOf(j, naming) == NameOf(k, naming) && Count(events, j) >= THRESHOLD
      ensures j == k
    {
      assert j != k ==> Namesakes(k, j, naming);
    }
  }

  lemma {:induction false} NeverSeen(events: seq<Event>, j: Key)
    requires forall e :: e in events ==> e.key != j
    ensures Count(events, j) == 0
  {
    if events != [] {
      assert events[|events| - 1] in events;
      NeverSeen(events[..|events| - 1], j);
    }
  }

  // ---- when calls fail ----

  /** A taken name none of whose stages is linked to its template. */
  ghost predicate Orphaned(db: Tables, name: Name, naming: Naming) {
    name in db.templates && forall k :: k in db.rows && NameOf(k, naming) == name ==> db.rows[k].templateID.None?
  }

  /** Once a name is taken without a link, as happens when inserting the first version or linking
      fails, no stage of that name is ever linked again, whatever the later calls do. */
  lemma {:induction false} OrphansStay(db: Tables, events: seq<Event>, name: Name, naming: Naming)
    requires Orphaned(db, name, naming)
    ensures Orphaned(After(db, events, naming), name, naming)
  {
    if events != [] {
      OrphansStay(db, events[..|events| - 1], name, naming);
    }
  }

  lemma FailedVersionOrphans(db: Tables, k: Key, naming: Naming, c: Calls)
    requires c.upsert.Fine? && c.create.Fine? && NameOf(k, naming) !in db.templates && CREATOR in db.users
    requires k in db.rows && db.rows[k].occurrences + 1 >= THRESHOLD
    requires forall j :: j in db.rows && NameOf(j, naming) == NameOf(k, naming) ==> db.rows[j].templateID.None?
    ensures Orphaned(Sight(db, k, naming, c), NameOf(k, naming), naming) <==> !c.version.Fine? || c.link.FailedBefore?
  {
    var after := Sight(db, k, naming, c);
    assert NameOf(k, naming) in after.templates;
    if c.version.Fine? && !c.link.FailedBefore? {
      assert after.rows[k].templateID.Some?;
    }
  }

  /** Whatever fails, a link needs three sightings, and usages do not run ahead of sightings. */
  ghost predicate Modest(rows: map<Key, Row>, usage: seq<Usage>) {
    && (forall k :: k in rows && rows[k].templateID.Some? ==> rows[k].occurrences >= THRESHOLD)
    && (forall u: Usage :: multiset(usage)[u] > 0 ==>
          u.key in rows && rows[u.key].templateID == Some(u.templateID)
            && multiset(usage)[u] + THRESHOLD <= rows[u.key].occurrences)
  }

  lemma ModestUpsert(db: Tables, k: Key)
    requires Modest(db.rows, db.usage)
    ensures var rows := Upserted(db, k).rows;
      && Modest(rows, db.usage)
      && (rows[k].templateID.Some? ==> Modest(rows, db.usage + [Usage(k, rows[k].templateID.value)]))
  {
  }

  lemma ModestLink(db: Tables, k: Key, id: nat)
    requires Modest(db.rows, db.usage) && k in db.rows && db.rows[k].templateID.None?
      && db.rows[k].occurrences >= THRESHOLD
    ensures Modest(Linked(db, k, id).rows, db.usage)
  {
  }

  lemma {:induction false} StaysModest(users: set<string>, events: seq<Event>, naming: Naming)
    ensures var db := After(Empty(users), events, naming); Modest(db.rows, db.usage)
  {
    if events != [] {
      var before, e := events[..|events| - 1], events[|events| - 1];
      StaysModest(users, before, naming);
      var db := After(Empty(users), before, naming);
      ModestUpsert(db, e.key);
      var seen := Upserted(db, e.key);
      if seen.rows[e.key].templateID.None? && seen.rows[e.key].occurrences >= THRESHOLD {
        ModestLink(Created(seen, NameOf(e.key, naming)).(versions := seen.versions + {seen.nextID}), e.key,
                   seen.nextID);
      }
    }
  }
}
