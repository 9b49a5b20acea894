/** The two-pass delta filter: key de-duplication first, then semantic similarity. */
module Delta {
  import opened Text

  /** `text` is what is embedded for the item. */
  datatype Item = Item(id: string, hash: string, text: string)

  function Key(item: Item): string {
    if TrimSpace(item.id) != "" then TrimSpace(item.id) else TrimSpace(item.hash)
  }

  datatype Response = Response(total: nat, novel: seq<Item>, duplicates: nat)

  datatype DeltaResult = Delivered(response: Response) | TopicRequired | EmbeddingFailed | SearchFailed

  /** What the embedding store says about a text; fixed while the store does not change. */
  type Similarity = string -> bool

  ghost predicate Seen(items: seq<Item>, i: nat, known: set<string>)
    requires i < |items|
  {
    Key(items[i]) in known || exists j :: 0 <= j < i && Key(items[j]) == Key(items[i])
  }

  datatype Verdict = Now | Later | Duplicate

  /** What becomes of item `i` in the first pass: novel at once, left to the second pass, or a duplicate. */
  ghost function VerdictOf(items: seq<Item>, i: nat, known: set<string>, semantic: bool): Verdict
    requires i < |items|
  {
    if Key(items[i]) == "" then Now
    else if Seen(items, i, known) then Duplicate
    else if !semantic || items[i].text == "" then Now
    else Later
  }

  /** Whether item `i` is reported as novel. */
  ghost predicate Novel(items: seq<Item>, i: nat, known: set<string>, semantic: bool, similar: Similarity)
    requires i < |items|
  {
    var v := VerdictOf(items, i, known, semantic);
    v.Now? || (v.Later? && !similar(items[i].text))
  }

  ghost function Verdicts(items: seq<Item>, known: set<string>, semantic: bool): (vs: seq<Verdict>)
    ensures |vs| == |items|
  {
    seq(|items|, i requires 0 <= i < |items| => VerdictOf(items, i, known, semantic))
  }

  /** The items with a given verdict, in listing order. */
  ghost function With(items: seq<Item>, vs: seq<Verdict>, v: Verdict): seq<Item>
    requires |items| == |vs|
  {
    if items == [] then []
    else
      var n := |items| - 1;
      With(items[..n], vs[..n], v) + if vs[n] == v then [items[n]] else []
  }

  /** The novel items in listing order. */
  ghost function NovelOf(items: seq<Item>, vs: seq<Verdict>, similar: Similarity): seq<Item>
    requires |items| == |vs|
  {
    if items == [] then []
    else
      var n := |items| - 1;
      NovelOf(items[..n], vs[..n], similar)
      + if vs[n].Now? || (vs[n].Later? && !similar(items[n].text)) then [items[n]] else []
  }

  function KnownIds(ids: seq<string>): set<string> {
    set id | id in ids && TrimSpace(id) != "" :: TrimSpace(id)
  }

  // ---- the two passes ----

  function Dissimilar(cands: seq<Item>, similar: Similarity): seq<Item> {
    if cands == [] then []
    else
      Dissimilar(cands[..|cands| - 1], similar)
      + if similar(cands[|cands| - 1].text) then [] else [cands[|cands| - 1]]
  }

  ghost function If(c: bool, item: Item): seq<Item> {
    if c then [item] else []
  }

  lemma PushNone(s: seq<Item>, c: bool, item: Item)
    ensures s + If(c, item) == if c then s + [item] else s
  {
  }

  lemma PushBoth(a: seq<Item>, b: seq<Item>, c: seq<Item>, item: Item)
    requires multiset(a) == multiset(b) + multiset(c)
    ensures multiset(a + [item]) == multiset(b + [item]) + multiset(c)
    ensures multiset(a + [item]) == multiset(b) + multiset(c + [item])
  {
  }

  /** Each verdict puts the next item into one of the two passes' shares, or into neither. */
  lemma OneMore(novel: seq<Item>, now: seq<Item>, later: seq<Item>, item: Item, v: Verdict, similar: Similarity)
    requires multiset(novel) == multiset(now) + multiset(Dissimilar(later, similar))
    ensures multiset(novel + If(v.Now? || (v.Later? && !similar(item.text)), item))
         == multiset(now + If(v == Now, item)) + multiset(Dissimilar(later + If(v == Later, item), similar))
  {
    PushNone(novel, v.Now? || (v.Later? && !similar(item.text)), item);
    PushNone(now, v == Now, item);
    PushNone(later, v == Later, item);
    PushBoth(novel, now, Dissimilar(later, similar), item);
    if v == Later {
      DissimilarPush(later, item, similar);
      PushNone(Dissimilar(later, similar), !similar(item.text), item);
    }
  }

  lemma {:induction false} PassesTogether(items: seq<Item>, vs: seq<Verdict>, similar: Similarity)
    requires |items| == |vs|
    ensures multiset(NovelOf(items, vs, similar))
      == multiset(With(items, vs, Now)) + multiset(Dissimilar(With(items, vs, Later), similar))
  {
    if items != [] {
      var n := |items| - 1;
      var before, verdicts := items[..n], vs[..n];
      PassesTogether(before, verdicts, similar);
      OneMore(NovelOf(before, verdicts, similar), With(before, verdicts, Now), With(before, verdicts, Later),
              items[n], vs[n], similar);
    }
  }

  lemma WithPush(items: seq<Item>, vs: seq<Verdict>, n: nat, v: Verdict)
    requires n < |items| == |vs|
    ensures With(items[..n + 1], vs[..n + 1], v) == With(items[..n], vs[..n], v) + if vs[n] == v then [items[n]] else []
  {
    assert items[..n + 1][..n] == items[..n] && vs[..n + 1][..n] == vs[..n];
  }

  lemma DissimilarPush(c: seq<Item>, item: Item, similar: Similarity)
    ensures Dissimilar(c + [item], similar) == Dissimilar(c, similar) + If(!similar(item.text), item)
  {
    assert (c + [item])[..|c|] == c;
  }

  // ---- what the reported items are ----

  /** Items with keys occur once, no two of them share a key, and none of the keys was known. */
  ghost predicate AllNew(novel: multiset<Item>, known: set<string>) {
    forall a :: a in novel && Key(a) != "" ==>
      && novel[a] == 1
      && Key(a) !in known
      && forall b :: b in novel && Key(b) == Key(a) ==> b == a
  }

  lemma OneMoreIsNew(novel: seq<Item>, item: Item, known: set<string>)
    requires AllNew(multiset(novel), known)
    requires Key(item) == "" || (Key(item) !in known && forall b :: b in novel ==> Key(b) != Key(item))
    ensures AllNew(multiset(novel + [item]), known)
  {
    forall a | a in multiset(novel + [item]) && Key(a) != ""
      ensures multiset(novel + [item])[a] == 1 && Key(a) !in known
    {
      assert a == item ==> a !in multiset(novel);
    }
  }

  /** Only the first item with a key, and only if the key was unknown, escapes the verdict `Duplicate`. */
  ghost predicate Fits(items: seq<Item>, vs: seq<Verdict>, known: set<string>) {
    |items| == |vs| && forall i :: 0 <= i < |items| && vs[i] != Duplicate ==> FirstOfItsKey(items, i, known)
  }

  ghost predicate FirstOfItsKey(items: seq<Item>, i: nat, known: set<string>)
    requires i < |items|
  {
    Key(items[i]) == "" || (Key(items[i]) !in known && forall j :: 0 <= j < i ==> Key(items[j]) != Key(items[i]))
  }

  lemma VerdictsFit(items: seq<Item>, known: set<string>, semantic: bool)
    ensures Fits(items, Verdicts(items, known, semantic), known)
  {
    forall i | 0 <= i < |items| && VerdictOf(items, i, known, semantic) != Duplicate
      ensures FirstOfItsKey(items, i, known)
    {
    }
  }

  lemma FitsBefore(items: seq<Item>, vs: seq<Verdict>, known: set<string>)
    requires items != [] && Fits(items, vs, known)
    ensures Fits(items[..|items| - 1], vs[..|items| - 1], known)
  {
    var n := |items| - 1;
    forall i | 0 <= i < n && vs[..n][i] != Duplicate
      ensures FirstOfItsKey(items[..n], i, known)
    {
      assert FirstOfItsKey(items, i, known);
    }
  }

  lemma {:induction false} NovelItemsAreNew(items: seq<Item>, vs: seq<Verdict>, known: set<string>, similar: Similarity)
    requires Fits(items, vs, known)
    ensures multiset(NovelOf(items, vs, similar)) <= multiset(items)
    ensures AllNew(multiset(NovelOf(items, vs, similar)), known)
  {
    if items != [] {
      var n := |items| - 1;
      var reported := vs[n].Now? || (vs[n].Later? && !similar(items[n].text));
      FitsBefore(items, vs, known);
      NovelItemsAreNew(items[..n], vs[..n], known, similar);
      LastItem(items, NovelOf(items[..n], vs[..n], similar), known, reported);
    }
  }

  lemma LastItem(items: seq<Item>, novel: seq<Item>, known: set<string>, reported: bool)
    requires items != []
    requires multiset(novel) <= multiset(items[..|items| - 1]) && AllNew(multiset(novel), known)
    requires reported ==> FirstOfItsKey(items, |items| - 1, known)
    ensures multiset(novel + if reported then [items[|items| - 1]] else []) <= multiset(items)
    ensures AllNew(multiset(novel + if reported then [items[|items| - 1]] else []), known)
  {
    var n := |items| - 1;
    StillWithin(items[..n], items[n], novel);
    assert items == items[..n] + [items[n]];
    if reported {
      LastKeyIsNew(items, novel, known);
      OneMoreIsNew(novel, items[n], known);
    } else {
      assert novel + [] == novel;
    }
  }

  lemma StillWithin(before: seq<Item>, item: Item, novel: seq<Item>)
    requires multiset(novel) <= multiset(before)
    ensures multiset(novel) <= multiset(before + [item])
    ensures multiset(novel + [item]) <= multiset(before + [item])
  {
  }

  lemma LastKeyIsNew(items: seq<Item>, novel: seq<Item>, known: set<string>)
    requires items != [] && multiset(novel) <= multiset(items[..|items| - 1])
    requires FirstOfItsKey(items, |items| - 1, known)
    ensures Key(items[|items| - 1]) == "" ||
      (Key(items[|items| - 1]) !in known && forall b :: b in novel ==> Key(b) != Key(items[|items| - 1]))
  {
    FromItems(items[..|items| - 1], novel);
  }

  lemma FromItems(items: seq<Item>, novel: seq<Item>)
    requires multiset(novel) <= multiset(items)
    ensures forall b :: b in novel ==> exists j :: 0 <= j < |items| && items[j] == b
  {
    forall b | b in novel
      ensures b in items
    {
      assert b in multiset(novel);
      assert b in multiset(items);
    }
  }

  /** The keys met so far that were not known before. */
  ghost predicate SeenTo(items: seq<Item>, i: nat, known: set<string>, seen: set<string>)
    requires i <= |items|
  {
    forall k :: k in seen <==> k != "" && k !in known && exists j :: 0 <= j < i && Key(items[j]) == k
  }

  /** What the first pass does with one item. */
  method Judge(items: seq<Item>, i: nat, known: set<string>, seen: set<string>, semantic: bool)
    returns (v: Verdict, seen': set<string>)
    requires i < |items| && SeenTo(items, i, known, seen)
    ensures SeenTo(items, i + 1, known, seen')
    ensures v == VerdictOf(items, i, known, semantic)
  {
    var item := items[i];
    var key := TrimSpace(item.id);
    if key == "" {
      key := TrimSpace(item.hash);
    }
    if key == "" {
      return Now, seen;
    }
    if key in known {
      return Duplicate, seen;
    }
    if key in seen {
      return Duplicate, seen;
    }
    seen' := seen + {key};
    if !semantic || item.text == "" {
      return Now, seen';
    }
    return Later, seen';
  }

  /** What the first pass has sorted out of the first `i` items. */
  ghost predicate SortedOut(items: seq<Item>, vs: seq<Verdict>, i: nat, novel: seq<Item>,
                            candidates: seq<Item>, duplicates: nat)
    requires i <= |items| == |vs|
  {
    && novel == With(items[..i], vs[..i], Now)
    && candidates == With(items[..i], vs[..i], Later)
    && |novel| + |candidates| + duplicates == i
  }

  lemma SortedOutNext(items: seq<Item>, vs: seq<Verdict>, i: nat, novel: seq<Item>, candidates: seq<Item>,
                      duplicates: nat)
    requires i < |items| == |vs| && SortedOut(items, vs, i, novel, candidates, duplicates)
    ensures SortedOut(items, vs, i + 1,
      novel + if vs[i] == Now then [items[i]] else [],
      candidates + if vs[i] == Later then [items[i]] else [],
      duplicates + if vs[i] == Duplicate then 1 else 0)
  {
    WithPush(items, vs, i, Now);
    WithPush(items, vs, i, Later);
  }

  method Place(items: seq<Item>, ghost vs: seq<Verdict>, i: nat, v: Verdict, novel: seq<Item>,
               candidates: seq<Item>, duplicates: nat)
    returns (novel': seq<Item>, candidates': seq<Item>, duplicates': nat)
    requires i < |items| == |vs| && v == vs[i] && SortedOut(items, vs, i, novel, candidates, duplicates)
    ensures SortedOut(items, vs, i + 1, novel', candidates', duplicates')
  {
    SortedOutNext(items, vs, i, novel, candidates, duplicates);
    assert novel + [] == novel && candidates + [] == candidates;
    novel', candidates', duplicates' := novel, candidates, duplicates;
    match v
    case Now => novel' := novel + [items[i]];
    case Later => candidates' := candidates + [items[i]];
    case Duplicate => duplicates' := duplicates + 1;
  }

  lemma SortedOutAll(items: seq<Item>, vs: seq<Verdict>)
    requires |items| == |vs|
    ensures SortedOut(items, vs, 0, [], [], 0)
    ensures items[..|items|] == items && vs[..|vs|] == vs
  {
  }

  /** The first pass. */
  method FirstPass(items: seq<Item>, known: set<string>, semantic: bool)
    returns (novel: seq<Item>, candidates: seq<Item>, duplicates: nat)
    ensures SortedOut(items, Verdicts(items, known, semantic), |items|, novel, candidates, duplicates)
  {
    novel, candidates, duplicates := [], [], 0;
    var seen: set<string> := {};
    ghost var vs := Verdicts(items, known, semantic);
    SortedOutAll(items, vs);
    for i := 0 to |items|
      invariant SortedOut(items, vs, i, novel, candidates, duplicates)
      invariant SeenTo(items, i, known, seen)
    {
      var v;
      v, seen := Judge(items, i, known, seen, semantic);
      assert v == vs[i];
      novel, candidates, duplicates := Place(items, vs, i, v, novel, candidates, duplicates);
    }
  }

  ghost function Candidates(items: seq<Item>, known: set<string>, semantic: bool): seq<Item> {
    With(items, Verdicts(items, known, semantic), Later)
  }

  /** `embeds` and `searches` say whether embedding the candidates and searching for the `k`-th succeed; where
      the vector is empty and nothing is searched for, the search succeeds and finds nothing similar. */
  method Delta(topicID: string, items: seq<Item>, knownIDs: seq<string>, semantic: bool, similar: Similarity,
               embeds: bool, searches: nat -> bool)
    returns (r: DeltaResult)
    ensures r.Delivered? ==>
      var vs := Verdicts(items, KnownIds(knownIDs), semantic);
      && r.response.total == |items| == |r.response.novel| + r.response.duplicates
      && r.response.novel == With(items, vs, Now) + Dissimilar(With(items, vs, Later), similar)
      && multiset(r.response.novel) == multiset(NovelOf(items, vs, similar))
    ensures r.Delivered? ==>
      multiset(r.response.novel) <= multiset(items) && AllNew(multiset(r.response.novel), KnownIds(knownIDs))
    ensures r == TopicRequired <==> TrimSpace(topicID) == ""
    ensures var candidates := Candidates(items, KnownIds(knownIDs), semantic);
      && (r == EmbeddingFailed <==> TrimSpace(topicID) != "" && candidates != [] && !embeds)
      && (r == SearchFailed
        <==> TrimSpace(topicID) != "" && embeds && exists k :: 0 <= k < |candidates| && !searches(k))
  {
    if TrimSpace(topicID) == "" {
      return TopicRequired;
    }
    var known := KnownIds(knownIDs);
    var novel, candidates, duplicates := FirstPass(items, known, semantic);
    ghost var vs := Verdicts(items, known, semantic);
    PassesReport(items, known, semantic, similar, novel, candidates);
    if !semantic || |candidates| == 0 {
      assert novel + Dissimilar([], similar) == novel;
      return Delivered(Response(|items|, novel, duplicates));
    }
    if !embeds {
      return EmbeddingFailed;
    }
    var searched, kept, dropped := SecondPass(candidates, similar, searches);
    if !searched {
      return SearchFailed;
    }
    return Delivered(Response(|items|, novel + kept, duplicates + dropped));
  }

  /** What the two passes will report, once the first has sorted the items. */
  lemma PassesReport(items: seq<Item>, known: set<string>, semantic: bool, similar: Similarity,
                     novel: seq<Item>, candidates: seq<Item>)
    requires var vs := Verdicts(items, known, semantic);
      novel == With(items[..|items|], vs[..|items|], Now) && candidates == With(items[..|items|], vs[..|items|], Later)
    ensures var vs := Verdicts(items, known, semantic);
      && novel == With(items, vs, Now) && candidates == With(items, vs, Later) == Candidates(items, known, semantic)
      && multiset(novel + Dissimilar(candidates, similar)) == multiset(NovelOf(items, vs, similar))
      && multiset(novel + Dissimilar(candidates, similar)) <= multiset(items)
      && AllNew(multiset(novel + Dissimilar(candidates, similar)), known)
    ensures !semantic ==> candidates == []
  {
    var vs := Verdicts(items, known, semantic);
    SortedOutAll(items, vs);
    PassesTogether(items, vs, similar);
    VerdictsFit(items, known, semantic);
    NovelItemsAreNew(items, vs, known, similar);
    if !semantic {
      NoCandidates(items, Verdicts(items, known, false));
    }
  }

  /** The second pass: candidates similar to something remembered are duplicates after all. */
  method SecondPass(candidates: seq<Item>, similar: Similarity, searches: nat -> bool)
    returns (ok: bool, kept: seq<Item>, dropped: nat)
    ensures ok <==> forall k :: 0 <= k < |candidates| ==> searches(k)
    ensures ok ==> kept == Dissimilar(candidates, similar) && |kept| + dropped == |candidates|
  {
    kept, dropped := [], 0;
    for k := 0 to |candidates|
      invariant kept == Dissimilar(candidates[..k], similar) && |kept| + dropped == k
      invariant forall j :: 0 <= j < k ==> searches(j)
    {
      assert candidates[..k + 1][..k] == candidates[..k];
      if !searches(k) {
        return false, kept, dropped;
      }
      if similar(candidates[k].text) {
        dropped := dropped + 1;
        continue;
      }
      kept := kept + [candidates[k]];
    }
    assert candidates[..|candidates|] == candidates;
    return true, kept, dropped;
  }

  lemma {:induction false} NoCandidates(items: seq<Item>, vs: seq<Verdict>)
    requires |items| == |vs| && forall i :: 0 <= i < |vs| ==> !vs[i].Later?
    ensures With(items, vs, Later) == []
  {
    if items != [] {
      NoCandidates(items[..|items| - 1], vs[..|items| - 1]);
    }
  }

  // ---- what the result means ----

  /** An item goes by its id or, failing that, by its hash, both without white space around them. It is
      reported if it has neither; otherwise if its name was not known, no earlier item has it and, where
      texts are compared, it has no text or nothing similar is remembered. */
  lemma NovelMeans(items: seq<Item>, knownIDs: seq<string>, semantic: bool, similar: Similarity, i: nat)
    requires i < |items|
    ensures Novel(items, i, KnownIds(knownIDs), semantic, similar) <==>
      var item := items[i];
      var name := if TrimSpace(item.id) != "" then TrimSpace(item.id) else TrimSpace(item.hash);
      name == ""
      || (&& (forall id :: id in knownIDs ==> TrimSpace(id) != name)
          && (forall j :: 0 <= j < i ==>
                name != if TrimSpace(items[j].id) != "" then TrimSpace(items[j].id) else TrimSpace(items[j].hash))
          && (!semantic || item.text == "" || !similar(item.text)))
  {
    assert forall j :: 0 <= j < i ==>
      Key(items[j]) == if TrimSpace(items[j].id) != "" then TrimSpace(items[j].id) else TrimSpace(items[j].hash);
  }

  /** `part` holds the items at the positions `at`, in listing order. */
  ghost predicate Picks(items: seq<Item>, at: seq<nat>, part: seq<Item>) {
    && |at| == |part|
    && (forall k :: 0 <= k < |at| ==> at[k] < |items| && part[k] == items[at[k]])
    && forall k, l :: 0 <= k < l < |at| ==> at[k] < at[l]
  }

  lemma PickLast(items: seq<Item>, at: seq<nat>, part: seq<Item>, n: nat, c: bool) returns (at': seq<nat>)
    requires |items| == n + 1 && Picks(items[..n], at, part)
    ensures Picks(items, at', part + if c then [items[n]] else [])
    ensures forall i: nat :: i in at' <==> i in at || (c && i == n)
  {
    assert forall k :: 0 <= k < |at| ==> items[..n][at[k]] == items[at[k]];
    at' := at + if c then [n] else [];
  }

  /** The novel items are those at the positions where the list has something novel, in listing order. */
  lemma {:induction false} NovelInOrder(items: seq<Item>, vs: seq<Verdict>, similar: Similarity) returns (at: seq<nat>)
    requires |items| == |vs|
    ensures Picks(items, at, NovelOf(items, vs, similar))
    ensures forall i: nat ::
      i in at <==> i < |items| && (vs[i].Now? || (vs[i].Later? && !similar(items[i].text)))
  {
    at := [];
    if items != [] {
      var n := |items| - 1;
      at := NovelInOrder(items[..n], vs[..n], similar);
      at := PickLast(items, at, NovelOf(items[..n], vs[..n], similar), n,
                     vs[n].Now? || (vs[n].Later? && !similar(items[n].text)));
    }
  }

  /** First the items reported at once, then those the second pass keeps, each in listing order. */
  lemma {:induction false} WithInOrder(items: seq<Item>, vs: seq<Verdict>, v: Verdict) returns (at: seq<nat>)
    requires |items| == |vs|
    ensures Picks(items, at, With(items, vs, v))
    ensures forall i: nat :: i in at <==> i < |items| && vs[i] == v
  {
    at := [];
    if items != [] {
      var n := |items| - 1;
      at := WithInOrder(items[..n], vs[..n], v);
      at := PickLast(items, at, With(items[..n], vs[..n], v), n, vs[n] == v);
    }
  }

  /** The keys of a response's novel items, to be sent as known the next time. */
  method ExtractDeltaIDs(items: seq<Item>) returns (ids: seq<string>)
    ensures KnownIds(ids) == KeysOf(multiset(items))
  {
    ids := [];
    for i := 0 to |items|
      invariant forall k :: k in ids <==> k != "" && exists j :: 0 <= j < i && Key(items[j]) == k
    {
      var id := TrimSpace(items[i].id);
      if id != "" {
        ids := ids + [id];
        continue;
      }
      var hash := TrimSpace(items[i].hash);
      if hash != "" {
        ids := ids + [hash];
      }
    }
    KeysAreTrimmed(items, ids);
  }

  ghost function KeysOf(items: multiset<Item>): set<string> {
    set a | a in items && Key(a) != "" :: Key(a)
  }

  lemma KeysAreTrimmed(items: seq<Item>, ids: seq<string>)
    requires forall k :: k in ids <==> k != "" && exists j :: 0 <= j < |items| && Key(items[j]) == k
    ensures KnownIds(ids) == KeysOf(multiset(items))
  {
    forall k | k in ids
      ensures TrimSpace(k) == k
    {
      var j :| 0 <= j < |items| && Key(items[j]) == k;
      TrimTwice(items[j].id);
      TrimTwice(items[j].hash);
    }
    forall k
      ensures k in KnownIds(ids) <==> k in KeysOf(multiset(items))
    {
      if k in KeysOf(multiset(items)) {
        var a :| a in multiset(items) && Key(a) == k;
        var j :| 0 <= j < |items| && items[j] == a;
        assert k in ids;
      }
    }
  }

  /** An item reported as novel is a novel one of the list. */
  lemma {:induction false} NovelOfMember(items: seq<Item>, vs: seq<Verdict>, similar: Similarity, i: nat)
    requires |items| == |vs| && i < |items| && (vs[i].Now? || (vs[i].Later? && !similar(items[i].text)))
    ensures items[i] in NovelOf(items, vs, similar)
  {
    var n := |items| - 1;
    if i < n {
      NovelOfMember(items[..n], vs[..n], similar, i);
    }
  }

  /** Knowing more keys makes no item novel. */
  lemma KnowingMore(items: seq<Item>, known: set<string>, more: set<string>, semantic: bool,
                    similar: Similarity, i: nat)
    requires i < |items| && !Novel(items, i, known, semantic, similar)
    ensures !Novel(items, i, known + more, semantic, similar)
  {
  }

  lemma KnownIsNotNovel(items: seq<Item>, known: set<string>, semantic: bool, similar: Similarity, i: nat)
    requires i < |items| && Key(items[i]) != "" && Key(items[i]) in known
    ensures !Novel(items, i, known, semantic, similar)
  {
  }

  lemma NovelIsReported(items: seq<Item>, known: set<string>, semantic: bool, similar: Similarity, i: nat)
    requires i < |items| && Novel(items, i, known, semantic, similar)
    ensures items[i] in multiset(NovelOf(items, Verdicts(items, known, semantic), similar))
  {
    NovelOfMember(items, Verdicts(items, known, semantic), similar, i);
  }

  /** With the keys of the first response's novel items known, an item is novel exactly when it has no key. */
  lemma KnownNextTime(items: seq<Item>, known: set<string>, semantic: bool, similar: Similarity,
                      keys: set<string>, i: nat)
    requires keys == KeysOf(multiset(NovelOf(items, Verdicts(items, known, semantic), similar))) && i < |items|
    ensures Novel(items, i, known + keys, semantic, similar) <==> Key(items[i]) == ""
  {
    if Key(items[i]) != "" {
      if Novel(items, i, known, semantic, similar) {
        NovelIsReported(items, known, semantic, similar, i);
        assert Key(items[i]) in keys;
        KnownIsNotNovel(items, known + keys, semantic, similar, i);
      } else {
        KnowingMore(items, known, keys, semantic, similar, i);
      }
    }
  }

  ghost function Keyless(items: seq<Item>): seq<Item> {
    if items == [] then []
    else
      var n := |items| - 1;
      Keyless(items[..n]) + If(Key(items[n]) == "", items[n])
  }

  lemma {:induction false} OnlyKeyless(items: seq<Item>, vs: seq<Verdict>, similar: Similarity)
    requires |items| == |vs|
    requires forall i :: 0 <= i < |items| ==>
      (vs[i].Now? || (vs[i].Later? && !similar(items[i].text)) <==> Key(items[i]) == "")
    ensures NovelOf(items, vs, similar) == Keyless(items)
  {
    if items != [] {
      OnlyKeyless(items[..|items| - 1], vs[..|items| - 1], similar);
    }
  }

  /** What the two responses hold has the keyless items as the novel ones of the second. */
  lemma OnlyKeylessLeft(items: seq<Item>, known: set<string>, semantic: bool, similar: Similarity,
                        keys: set<string>)
    requires keys == KeysOf(multiset(NovelOf(items, Verdicts(items, known, semantic), similar)))
    ensures NovelOf(items, Verdicts(items, known + keys, semantic), similar) == Keyless(items)
  {
    forall i | 0 <= i < |items| {
      KnownNextTime(items, known, semantic, similar, keys, i);
    }
    OnlyKeyless(items, Verdicts(items, known + keys, semantic), similar);
  }

  /** Two requests for the same items, the second with the keys of the first one's novel items known as
      well and with the same similarity answers: the second response's novel items are exactly the items
      without a key. */
  method RerunLeavesKeyless(topicID: string, items: seq<Item>, knownIDs: seq<string>, semantic: bool,
                            similar: Similarity, embeds: bool, searches: nat -> bool,
                            embeds': bool, searches': nat -> bool)
    returns (first: DeltaResult, second: DeltaResult)
    ensures first.Delivered? && second.Delivered? ==> multiset(second.response.novel) == multiset(Keyless(items))
  {
    first := Delta(topicID, items, knownIDs, semantic, similar, embeds, searches);
    if !first.Delivered? {
      return first, first;
    }
    var ids := ExtractDeltaIDs(first.response.novel);
    second := Delta(topicID, items, knownIDs + ids, semantic, similar, embeds', searches');
    var known, novel := KnownIds(knownIDs), multiset(first.response.novel);
    assert KnownIds(knownIDs + ids) == known + KeysOf(novel);
    OnlyKeylessLeft(items, known, semantic, similar, KeysOf(novel));
  }
}
