/** Trimming and sorting of strings. */
module Text {

  // ---- white space ----

  predicate IsSpace(c: char) {
    || '\t' <= c <= '\r' || '\U{2000}' <= c <= '\U{200A}'
    || c in {' ', '\U{85}', '\U{A0}', '\U{1680}', '\U{2028}', '\U{2029}', '\U{202F}', '\U{205F}', '\U{3000}'}
  }

  function TrimStart(s: string): string {
    if s != "" && IsSpace(s[0]) then TrimStart(s[1..]) else s
  }

  function TrimEnd(s: string): string {
    if s != "" && IsSpace(s[|s| - 1]) then TrimEnd(s[..|s| - 1]) else s
  }

  function TrimSpace(s: string): string {
    TrimEnd(TrimStart(s))
  }

  lemma {:induction false} TrimEndTwice(s: string)
    ensures TrimEnd(TrimEnd(s)) == TrimEnd(s)
    ensures s != "" && !IsSpace(s[0]) ==> TrimEnd(s) != "" && TrimEnd(s)[0] == s[0]
  {
    if s != "" && IsSpace(s[|s| - 1]) {
      TrimEndTwice(s[..|s| - 1]);
    }
  }

  lemma {:induction false} TrimStartHead(s: string)
    ensures TrimStart(s) != "" ==> !IsSpace(TrimStart(s)[0])
  {
    if s != "" && IsSpace(s[0]) {
      TrimStartHead(s[1..]);
    }
  }

  /** What is trimmed away is white space, and no white space is left at either end. */
  lemma TrimMeans(s: string) returns (a: string, b: string)
    ensures s == a + TrimSpace(s) + b && forall c :: c in a || c in b ==> IsSpace(c)
    ensures TrimSpace(s) != "" ==> !IsSpace(TrimSpace(s)[0]) && !IsSpace(TrimSpace(s)[|TrimSpace(s)| - 1])
  {
    var start := TrimStart(s);
    a := StartCut(s);
    EndCut(start);
    b := start[|TrimEnd(start)|..];
    TrimStartHead(s);
    TrimEndTwice(start);
    assert a + (TrimSpace(s) + b) == a + TrimSpace(s) + b;
  }

  lemma {:induction false} StartCut(s: string) returns (a: string)
    ensures s == a + TrimStart(s) && forall c :: c in a ==> IsSpace(c)
  {
    a := "";
    if s != "" && IsSpace(s[0]) {
      var rest := StartCut(s[1..]);
      a := [s[0]] + rest;
      assert s == [s[0]] + s[1..];
    }
  }

  lemma {:induction false} EndCut(s: string)
    ensures TrimEnd(s) <= s && forall i :: |TrimEnd(s)| <= i < |s| ==> IsSpace(s[i])
    ensures TrimEnd(s) != "" ==> !IsSpace(TrimEnd(s)[|TrimEnd(s)| - 1])
  {
    if s != "" && IsSpace(s[|s| - 1]) {
      EndCut(s[..|s| - 1]);
    }
  }

  /** Trimming what was trimmed changes nothing. */
  lemma TrimTwice(s: string)
    ensures TrimSpace(TrimSpace(s)) == TrimSpace(s)
  {
    TrimStartHead(s);
    TrimEndTwice(TrimStart(s));
    assert TrimStart(TrimSpace(s)) == TrimSpace(s);
  }

  // ---- sorting strings ----

  predicate Le(a: string, b: string) {
    a == "" || (b != "" && (a[0] < b[0] || (a[0] == b[0] && Le(a[1..], b[1..]))))
  }

  /** The two agree before position `k`, where the first has the smaller character. */
  ghost predicate SmallerAt(a: string, b: string, k: nat) {
    k < |a| && k < |b| && a[..k] == b[..k] && a[k] < b[k]
  }

  lemma SmallerNext(a: string, b: string, k: nat)
    requires a != "" && b != "" && a[0] == b[0]
    ensures SmallerAt(a, b, k + 1) <==> SmallerAt(a[1..], b[1..], k)
  {
    if k < |a| - 1 && k < |b| - 1 {
      assert a[..k + 1] == [a[0]] + a[1..][..k] && b[..k + 1] == [b[0]] + b[1..][..k];
      assert a[1..][..k] == a[..k + 1][1..] && b[1..][..k] == b[..k + 1][1..];
    }
  }

  /** At the first difference the smaller character decides; a proper prefix comes first. */
  lemma {:induction false} LeMeans(a: string, b: string)
    ensures Le(a, b) <==> a <= b || exists k: nat :: SmallerAt(a, b, k)
  {
    if a != "" && b != "" && a[0] == b[0] {
      LeMeans(a[1..], b[1..]);
      assert a == [a[0]] + a[1..] && b == [b[0]] + b[1..];
      forall k: nat {
        SmallerNext(a, b, k);
      }
      if k: nat :| SmallerAt(a[1..], b[1..], k) {
        assert SmallerAt(a, b, k + 1);
      }
      if k: nat :| SmallerAt(a, b, k) {
        assert SmallerAt(a[1..], b[1..], k - 1);
      }
    } else if a != "" && b != "" {
      assert SmallerAt(a, b, 0) <==> a[0] < b[0];
    }
  }

  lemma {:induction false} LeTotal(a: string, b: string)
    ensures Le(a, b) || Le(b, a)
    ensures Le(a, b) && Le(b, a) ==> a == b
  {
    if a != "" && b != "" && a[0] == b[0] {
      LeTotal(a[1..], b[1..]);
      assert a == [a[0]] + a[1..] && b == [b[0]] + b[1..];
    }
  }

  lemma {:induction false} LeTransitive(a: string, b: string, c: string)
    requires Le(a, b) && Le(b, c)
    ensures Le(a, c)
  {
    if a != "" && a[0] == b[0] == c[0] {
      LeTransitive(a[1..], b[1..], c[1..]);
    }
  }

  ghost predicate Sorted(s: seq<string>) {
    forall i, j :: 0 <= i < j < |s| ==> Le(s[i], s[j])
  }

  /** A sorted sequence is determined by what it contains. */
  lemma {:induction false} SortedUnique(s: seq<string>, t: seq<string>)
    requires Sorted(s) && Sorted(t) && multiset(s) == multiset(t)
    ensures s == t
  {
    assert |s| == |multiset(s)| == |t|;
    if s != [] {
      assert s[0] in multiset(t) && t[0] in multiset(s);
      LeTotal(s[0], t[0]);
      LeTotal(s[0], s[0]);
      assert s == [s[0]] + s[1..] && t == [t[0]] + t[1..];
      assert multiset(s[1..]) == multiset(s) - multiset{s[0]};
      assert multiset(t[1..]) == multiset(t) - multiset{t[0]};
      SortedUnique(s[1..], t[1..]);
    }
  }

  function Insert(x: string, s: seq<string>): seq<string> {
    if s == [] || Le(x, s[0]) then [x] + s else [s[0]] + Insert(x, s[1..])
  }

  lemma {:induction false} InsertSorted(x: string, s: seq<string>)
    requires Sorted(s)
    ensures Sorted(Insert(x, s)) && multiset(Insert(x, s)) == multiset(s) + multiset{x}
  {
    if s == [] {
    } else if Le(x, s[0]) {
      forall i | 0 < i < |s|
        ensures Le(x, s[i])
      {
        LeTransitive(x, s[0], s[i]);
      }
    } else {
      LeTotal(x, s[0]);
      InsertSorted(x, s[1..]);
      InsertBehind(x, s[0], s[1..], Insert(x, s[1..]));
      assert s == [s[0]] + s[1..];
    }
  }

  lemma InsertBehind(x: string, head: string, s: seq<string>, rest: seq<string>)
    requires Sorted(rest) && multiset(rest) == multiset(s) + multiset{x}
    requires Le(head, x) && forall i :: 0 <= i < |s| ==> Le(head, s[i])
    ensures Sorted([head] + rest)
  {
    forall i | 0 <= i < |rest|
      ensures Le(head, rest[i])
    {
      assert rest[i] in multiset(rest);
    }
  }

  function Sort(s: seq<string>): (r: seq<string>)
    ensures Sorted(r) && multiset(r) == multiset(s)
  {
    if s == [] then []
    else
      assert s == [s[0]] + s[1..];
      InsertSorted(s[0], Sort(s[1..]));
      Insert(s[0], Sort(s[1..]))
  }

  /** The keys of a map in whatever order the map yields them. */
  method ListKeys(keys: set<string>) returns (listed: seq<string>)
    ensures multiset(listed) == multiset(keys)
  {
    listed := [];
    var rest := keys;
    while rest != {}
      invariant rest <= keys && multiset(listed) + multiset(rest) == multiset(keys)
    {
      var k :| k in rest;
      assert multiset(rest) == multiset(rest - {k}) + multiset{k};
      listed, rest := listed + [k], rest - {k};
    }
  }
}
