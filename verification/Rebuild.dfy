/** The embedding rebuild: paging through all episodes by creation time. */
module Rebuild {
  import opened Wrappers

  /** `createdAt` is in nanoseconds since the epoch. */
  datatype Episode = Episode(runID: string, topicID: string, createdAt: int)

  predicate Matches(e: Episode, to: Option<int>) {
    to.Some? ==> e.createdAt <= to.value
  }

  ghost function Below(all: set<Episode>, to: Option<int>): set<Episode> {
    set e | e in all && Matches(e, to)
  }

  /** A page: the newest matching episodes, newest first, at most `limit` of them. Which of several
      episodes with the same creation time come first is up to the database. */
  ghost predicate IsPage(rows: seq<Episode>, all: set<Episode>, to: Option<int>, limit: nat) {
    && (forall i, j :: 0 <= i < j < |rows| ==> rows[i] != rows[j] && rows[i].createdAt >= rows[j].createdAt)
    && (forall e :: e in rows ==> e in Below(all, to))
    && |rows| <= limit
    && (|rows| < limit ==> forall e :: e in Below(all, to) ==> e in rows)
    && (forall e :: e in Below(all, to) && e !in rows
          ==> forall i :: 0 <= i < |rows| ==> e.createdAt <= rows[i].createdAt)
  }

  class EpisodeStore {
    const all: set<Episode>

    constructor (all: set<Episode>)
      ensures this.all == all
    {
      this.all := all;
    }

    method ListEpisodes(to: Option<int>, requested: int) returns (rows: seq<Episode>)
      ensures IsPage(rows, all, to, if requested <= 0 || requested > 200 then 50 else requested)
    {
      var limit := requested;
      if limit <= 0 || limit > 200 {
        limit := 50;
      }
      rows := [];
      var rest := set e | e in all && Matches(e, to);
      while rest != {} && |rows| < limit
        invariant |rows| <= limit && rest <= Below(all, to)
        invariant forall e :: e in rows <==> e in Below(all, to) && e !in rest
        invariant forall i, j :: 0 <= i < j < |rows| ==> rows[i] != rows[j] && rows[i].createdAt >= rows[j].createdAt
        invariant forall e, i :: e in rest && 0 <= i < |rows| ==> e.createdAt <= rows[i].createdAt
      {
        NewestExists(rest);
        var e :| e in rest && forall f :: f in rest ==> f.createdAt <= e.createdAt;
        rows := rows + [e];
        rest := rest - {e};
      }
    }
  }

  lemma {:induction false} NewestExists(s: set<Episode>)
    requires s != {}
    ensures exists e :: e in s && forall f :: f in s ==> f.createdAt <= e.createdAt
    decreases s
  {
    var x :| x in s;
    var rest := s - {x};
    if rest == {} {
      assert s == {x};
    } else {
      NewestExists(rest);
      var m :| m in rest && forall f :: f in rest ==> f.createdAt <= m.createdAt;
      var best := if m.createdAt <= x.createdAt then x else m;
      assert forall f :: f in s ==> f == x || f in rest;
      assert best in s && forall f :: f in s ==> f.createdAt <= best.createdAt;
    }
  }

  predicate Ingestible(e: Episode) {
    e.runID != "" && e.topicID != ""
  }

  ghost predicate AfterEpoch(all: set<Episode>) {
    forall e :: e in all ==> e.createdAt > 0
  }

  function NextCursor(last: int): int {
    if last - 1 < 0 then 0 else last - 1
  }

  // ---- which creation times lose nothing ----

  /** How many episodes are newer than `t`, and how many at least as new. */
  ghost function Newer(all: set<Episode>, t: int): nat {
    |NewerThan(all, t)|
  }

  ghost function NewerThan(all: set<Episode>, t: int): set<Episode> {
    set e | e in all && e.createdAt > t
  }

  ghost function From(all: set<Episode>, t: int): set<Episode> {
    set e | e in all && e.createdAt >= t
  }

  ghost function AtLeast(all: set<Episode>, t: int): nat {
    |From(all, t)|
  }

  /** In the list of creation times, newest first, position `m` falls between two equal times. */
  ghost predicate Splits(all: set<Episode>, m: nat) {
    exists e :: e in all && Newer(all, e.createdAt) < m < AtLeast(all, e.createdAt)
  }

  predicate Multiple(m: nat, size: nat)
    requires size > 0
  {
    m == 0 || (m >= size && Multiple(m - size, size))
  }

  /** No multiple of the page size falls between two equal times. */
  ghost predicate NoTieSplit(all: set<Episode>, size: nat)
    requires size > 0
  {
    forall m: nat :: Splits(all, m) ==> !Multiple(m, size)
  }

  ghost predicate Distinct(all: set<Episode>) {
    forall e, f :: e in all && f in all && e.createdAt == f.createdAt ==> e == f
  }

  /** Distinct creation times are never split. */
  lemma DistinctNeverSplits(all: set<Episode>, size: nat)
    requires Distinct(all) && size > 0
    ensures NoTieSplit(all, size)
  {
    forall e | e in all
      ensures AtLeast(all, e.createdAt) <= Newer(all, e.createdAt) + 1
    {
      var newer := NewerThan(all, e.createdAt);
      assert From(all, e.createdAt) == newer + {e};
    }
  }

  // ---- what has been listed ----

  ghost predicate NoRepeats(s: seq<Episode>) {
    forall i, j :: 0 <= i < j < |s| ==> s[i] != s[j]
  }

  ghost function Members(s: seq<Episode>): set<Episode> {
    set e | e in s
  }

  /** The episodes newer than the cursor. */
  ghost function Above(all: set<Episode>, cursor: Option<int>): set<Episode> {
    set e | e in all && !Matches(e, cursor)
  }

  /** Between pages, when every episode is after the epoch: what was listed is newer than the cursor. Either
      it is all of that, pages were full as long as there was more to list, and no tie has been split so
      far; or some tie was split and an episode newer than the cursor has been passed over. */
  ghost predicate Paged(all: set<Episode>, size: nat, cursor: Option<int>, listed: seq<Episode>)
    requires size > 0
  {
    && NoRepeats(listed) && Members(listed) <= Above(all, cursor)
    && if Members(listed) == Above(all, cursor)
       then (Multiple(|listed|, size) || Below(all, cursor) == {})
         && forall m: nat :: m <= |listed| && Multiple(m, size) ==> !Splits(all, m)
       else !NoTieSplit(all, size)
  }

  lemma {:induction false} SizeOfMembers(s: seq<Episode>)
    requires NoRepeats(s)
    ensures |Members(s)| == |s|
  {
    if s != [] {
      var front := s[..|s| - 1];
      SizeOfMembers(front);
      assert Members(s) == Members(front) + {s[|s| - 1]};
      assert s[|s| - 1] !in Members(front);
    }
  }

  lemma SizeOfPart(a: set<Episode>, b: set<Episode>)
    requires a <= b
    ensures |a| <= |b| && (a != b ==> |a| < |b|)
  {
    var rest := b - a;
    assert b == a + rest;
  }

  /** At the last time of a page, everything newer is listed. */
  lemma PageNewer(all: set<Episode>, cursor: Option<int>, rows: seq<Episode>, limit: nat)
    requires IsPage(rows, all, cursor, limit) && rows != [] && AfterEpoch(all)
    ensures var last := rows[|rows| - 1].createdAt;
      && Above(all, Some(NextCursor(last))) == From(all, last)
      && Above(all, cursor) <= Above(all, Some(NextCursor(last)))
      && (forall e :: e in Below(all, cursor) && e.createdAt > last ==> e in rows)
      && (forall e :: e in rows ==> e.createdAt >= last && e !in Above(all, cursor))
  {
    var last := rows[|rows| - 1];
    assert last in rows && last in Below(all, cursor);
    forall e | e in rows
      ensures e.createdAt >= last.createdAt
    {
      var i :| 0 <= i < |rows| && rows[i] == e;
    }
  }

  /** Moving the cursor past a page leaves fewer episodes, unless it stops at the epoch. */
  lemma PageShrinks(all: set<Episode>, cursor: Option<int>, rows: seq<Episode>, limit: nat)
    requires IsPage(rows, all, cursor, limit) && rows != []
    ensures var next := Some(NextCursor(rows[|rows| - 1].createdAt));
      && (AfterEpoch(all) ==> |Below(all, next)| + 1 <= |Below(all, cursor)|)
      && forall e :: e in Below(all, cursor) && e.createdAt <= 0 ==> e in Below(all, next)
  {
    var last := rows[|rows| - 1];
    var next := Some(NextCursor(last.createdAt));
    assert last in rows && last in Below(all, cursor);
    if AfterEpoch(all) {
      assert last !in Below(all, next);
      SizeOfPart(Below(all, next), Below(all, cursor));
    }
  }

  lemma PageIsNew(all: set<Episode>, cursor: Option<int>, listed: seq<Episode>, rows: seq<Episode>, limit: nat)
    requires IsPage(rows, all, cursor, limit) && rows != [] && AfterEpoch(all)
    requires NoRepeats(listed) && Members(listed) <= Above(all, cursor)
    ensures NoRepeats(listed + rows) && Members(listed + rows) == Members(listed) + Members(rows)
    ensures Members(listed + rows) <= Above(all, Some(NextCursor(rows[|rows| - 1].createdAt)))
  {
    PageNewer(all, cursor, rows, limit);
    var both := listed + rows;
    forall i, j | 0 <= i < j < |both|
      ensures both[i] != both[j]
    {
      if i < |listed| && |listed| <= j {
        assert both[i] in Members(listed) && both[j] in rows;
      }
    }
  }

  /** A page that leaves out an episode of its last creation time is full, and splits a tie. */
  lemma PageSplits(all: set<Episode>, size: nat, cursor: Option<int>, listed: seq<Episode>, rows: seq<Episode>)
    requires IsPage(rows, all, cursor, size) && rows != [] && AfterEpoch(all) && size > 0
    requires Paged(all, size, cursor, listed) && Members(listed) == Above(all, cursor)
    requires Members(listed + rows) != Above(all, Some(NextCursor(rows[|rows| - 1].createdAt)))
    ensures !NoTieSplit(all, size)
  {
    var last := rows[|rows| - 1];
    PageNewer(all, cursor, rows, size);
    PageIsNew(all, cursor, listed, rows, size);
    var both := Members(listed + rows);
    var newer := NewerThan(all, last.createdAt);
    var atLeast := From(all, last.createdAt);
    SizeOfMembers(listed + rows);
    SizeOfPart(both, atLeast);
    assert last in rows && last in both && newer <= both;
    SizeOfPart(newer, both);
    assert Below(all, cursor) != {};
    FullPage(|listed|, |rows|, size);
    assert Splits(all, |listed| + |rows|) by {
      assert last in all && Newer(all, last.createdAt) < |listed| + |rows| < AtLeast(all, last.createdAt);
    }
  }

  /** Multiples of the page size are at least a page apart. */
  lemma {:induction false} Gap(a: nat, m: nat, size: nat)
    requires size > 0 && Multiple(a, size) && Multiple(m, size) && a < m
    ensures a + size <= m
  {
    if a > 0 {
      Gap(a - size, m - size, size);
    }
  }

  /** The next multiple of the page size is the end of the next full page. */
  lemma FullPage(listed: nat, rows: nat, size: nat)
    requires size > 0 && Multiple(listed, size) && rows <= size
    ensures rows == size ==> Multiple(listed + rows, size)
    ensures forall m: nat :: listed < m <= listed + rows && Multiple(m, size) ==> m == listed + rows && rows == size
  {
    forall m: nat | listed < m <= listed + rows && Multiple(m, size)
      ensures m == listed + size
    {
      Gap(listed, m, size);
    }
  }

  /** The end of a page that leaves out nothing splits no tie. */
  lemma CleanEnd(all: set<Episode>, listed: seq<Episode>, last: int)
    requires NoRepeats(listed) && Members(listed) == From(all, last)
    ensures !Splits(all, |listed|)
  {
    SizeOfMembers(listed);
    forall e | e in all
      ensures !(Newer(all, e.createdAt) < |listed| < AtLeast(all, e.createdAt))
    {
      if e.createdAt >= last {
        SizeOfPart(From(all, e.createdAt), Members(listed));
      } else {
        SizeOfPart(Members(listed), NewerThan(all, e.createdAt));
      }
    }
  }

  /** A page that leaves out nothing of its last creation time. */
  lemma PageCovers(all: set<Episode>, size: nat, cursor: Option<int>, listed: seq<Episode>, rows: seq<Episode>)
    requires IsPage(rows, all, cursor, size) && rows != [] && AfterEpoch(all) && size > 0
    requires Paged(all, size, cursor, listed) && Members(listed) == Above(all, cursor)
    requires Members(listed + rows) == Above(all, Some(NextCursor(rows[|rows| - 1].createdAt)))
    ensures Paged(all, size, Some(NextCursor(rows[|rows| - 1].createdAt)), listed + rows)
  {
    var last := rows[|rows| - 1];
    PageIsNew(all, cursor, listed, rows, size);
    PageNewer(all, cursor, rows, size);
    CleanEnd(all, listed + rows, last.createdAt);
    assert last in rows && last in Below(all, cursor);
    FullPage(|listed|, |rows|, size);
    if |rows| < size {
      LastPage(all, cursor, rows, size);
    }
  }

  /** Once an episode has been passed over, it stays passed over. */
  lemma StaysPassed(all: set<Episode>, size: nat, cursor: Option<int>, listed: seq<Episode>, rows: seq<Episode>)
    requires IsPage(rows, all, cursor, size) && rows != [] && AfterEpoch(all)
    requires Members(listed) <= Above(all, cursor) && Members(listed) != Above(all, cursor)
    ensures Members(listed + rows) != Above(all, Some(NextCursor(rows[|rows| - 1].createdAt)))
  {
    PageNewer(all, cursor, rows, size);
    var e :| e in Above(all, cursor) && e !in Members(listed);
    assert e in Above(all, Some(NextCursor(rows[|rows| - 1].createdAt))) && e !in rows;
  }

  lemma NextPage(all: set<Episode>, size: nat, cursor: Option<int>, listed: seq<Episode>, rows: seq<Episode>)
    requires IsPage(rows, all, cursor, size) && rows != [] && AfterEpoch(all) && size > 0
    requires Paged(all, size, cursor, listed)
    ensures Paged(all, size, Some(NextCursor(rows[|rows| - 1].createdAt)), listed + rows)
  {
    var next := Some(NextCursor(rows[|rows| - 1].createdAt));
    if Members(listed) == Above(all, cursor) && Members(listed + rows) == Above(all, next) {
      PageCovers(all, size, cursor, listed, rows);
    } else {
      PageIsNew(all, cursor, listed, rows, size);
      if Members(listed) == Above(all, cursor) {
        PageSplits(all, size, cursor, listed, rows);
      } else {
        StaysPassed(all, size, cursor, listed, rows);
      }
    }
  }

  /** A page that is not full is the last one. */
  lemma LastPage(all: set<Episode>, cursor: Option<int>, rows: seq<Episode>, size: nat)
    requires IsPage(rows, all, cursor, size) && rows != [] && AfterEpoch(all) && |rows| < size
    ensures Below(all, Some(NextCursor(rows[|rows| - 1].createdAt))) == {}
  {
    PageNewer(all, cursor, rows, size);
    var last := rows[|rows| - 1];
    var next := Some(NextCursor(last.createdAt));
    assert last in rows && last in Below(all, cursor);
    forall e | e in all
      ensures e !in Below(all, next)
    {
      assert e in Below(all, cursor) ==> e in rows;
    }
  }

  /** When nothing is left to list, everything has been listed exactly if no tie was split. */
  lemma NothingLeft(all: set<Episode>, size: nat, cursor: Option<int>, listed: seq<Episode>)
    requires size > 0 && Paged(all, size, cursor, listed) && Below(all, cursor) == {}
    ensures Members(listed) == all <==> NoTieSplit(all, size)
  {
    assert Above(all, cursor) == all by {
      forall e | e in all
        ensures e in Above(all, cursor)
      {
        assert e !in Below(all, cursor);
      }
    }
    if Members(listed) == all {
      SizeOfMembers(listed);
      forall m: nat | Splits(all, m)
        ensures !Multiple(m, size)
      {
        var e :| e in all && Newer(all, e.createdAt) < m < AtLeast(all, e.createdAt);
        SizeOfPart(From(all, e.createdAt), all);
      }
    }
  }

  // ---- the loop ----

  function Kept(rows: seq<Episode>): seq<Episode> {
    if rows == [] then []
    else Kept(rows[..|rows| - 1]) + if Ingestible(rows[|rows| - 1]) then [rows[|rows| - 1]] else []
  }

  lemma {:induction false} KeptMembers(rows: seq<Episode>)
    requires NoRepeats(rows)
    ensures forall e :: e in Kept(rows) <==> e in rows && Ingestible(e)
    ensures NoRepeats(Kept(rows))
  {
    if rows != [] {
      var front, last := rows[..|rows| - 1], rows[|rows| - 1];
      KeptMembers(front);
      assert forall e :: e in rows <==> e in front || e == last;
      assert last !in front;
      assert forall i :: 0 <= i < |Kept(front)| ==> Kept(front)[i] in Kept(front);
    }
  }

  lemma {:induction false} KeptConcat(a: seq<Episode>, b: seq<Episode>)
    ensures Kept(a + b) == Kept(a) + Kept(b)
  {
    if b == [] {
      assert a + b == a;
    } else {
      KeptConcat(a, b[..|b| - 1]);
      assert (a + b)[..|a + b| - 1] == a + b[..|b| - 1];
    }
  }

  method IngestPage(episodes: seq<Episode>, before: seq<Episode>) returns (ingested: seq<Episode>)
    ensures ingested == before + Kept(episodes)
  {
    ingested := before;
    for k := 0 to |episodes|
      invariant ingested == before + Kept(episodes[..k])
    {
      assert episodes[..k + 1][..k] == episodes[..k];
      var summary := episodes[k];
      if summary.runID == "" || summary.topicID == "" {
        continue;
      }
      ingested := ingested + [summary];
    }
    assert episodes[..|episodes|] == episodes;
  }

  /** Pages through the store for at most `rounds` pages; `finished` says whether the loop has ended. */
  method RebuildSemanticEmbeddings(store: EpisodeStore, batchSize: int, rounds: nat)
    returns (finished: bool, processed: nat, ingested: seq<Episode>, ghost listed: seq<Episode>)
    ensures AfterEpoch(store.all) && rounds > |store.all| ==> finished
    ensures !AfterEpoch(store.all) ==> !finished
    ensures processed == |ingested| && ingested == Kept(listed)
    ensures finished ==> NoRepeats(listed) && NoRepeats(ingested) && Members(listed) <= store.all
    ensures var size := if batchSize <= 0 then 100 else if batchSize > 200 then 200 else batchSize;
      finished ==> (Members(listed) == store.all <==> NoTieSplit(store.all, size))
    ensures var size := if batchSize <= 0 then 100 else if batchSize > 200 then 200 else batchSize;
      finished && NoTieSplit(store.all, size) ==>
        forall e :: e in ingested <==> e in store.all && e.runID != "" && e.topicID != ""
  {
    var size := batchSize;
    if size <= 0 {
      size := 100;
    }
    if size > 200 {
      size := 200;
    }
    processed, ingested, listed := 0, [], [];
    var cursor: Option<int> := None;
    AtStart(store.all, size);
    for n := 0 to rounds
      invariant processed == |ingested| && ingested == Kept(listed)
      invariant AfterEpoch(store.all) ==> Paged(store.all, size, cursor, listed)
      invariant AfterEpoch(store.all) ==> |Below(store.all, cursor)| + n <= |store.all|
      invariant !AfterEpoch(store.all) ==> exists e :: e in Below(store.all, cursor) && e.createdAt <= 0
    {
      var episodes := store.ListEpisodes(cursor, size);
      if |episodes| == 0 {
        EmptyPage(store.all, cursor, size);
        NothingLeft(store.all, size, cursor, listed);
        KeptMembers(listed);
        return true, processed, ingested, listed;
      }
      var before := ingested;
      ingested := IngestPage(episodes, before);
      processed := processed + (|ingested| - |before|);
      KeptConcat(listed, episodes);
      PageShrinks(store.all, cursor, episodes, size);
      if AfterEpoch(store.all) {
        NextPage(store.all, size, cursor, listed, episodes);
      }
      listed := listed + episodes;
      cursor := Some(NextCursor(episodes[|episodes| - 1].createdAt));
    }
    return false, processed, ingested, listed;
  }

  lemma AtStart(all: set<Episode>, size: nat)
    requires size > 0
    ensures Below(all, None) == all
    ensures Paged(all, size, None, [])
  {
    assert Above(all, None) == Members([]);
  }

  lemma EmptyPage(all: set<Episode>, cursor: Option<int>, size: nat)
    requires size > 0 && IsPage([], all, cursor, size)
    ensures Below(all, cursor) == {}
  {
  }

  /** Two episodes of one instant and pages of one: their tie is split. */
  lemma TieOnBoundary(a: Episode, b: Episode)
    requires a != b && a.createdAt == b.createdAt
    ensures !NoTieSplit({a, b}, 1) && NoTieSplit({a, b}, 2)
  {
    var all := {a, b};
    assert NewerThan(all, a.createdAt) == {};
    assert From(all, a.createdAt) == all;
    assert Newer(all, a.createdAt) == 0 && AtLeast(all, a.createdAt) == 2;
    assert Splits(all, 1);
  }
}
