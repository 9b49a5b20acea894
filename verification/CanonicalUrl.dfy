/** URL canonicalisation, on the components of a parsed URL that has no opaque part. */
module CanonicalUrl {
  import opened Text

  datatype Pair = Pair(key: string, value: string)

  /** `host` includes any port. `path` lists what follows each slash: `/a/` is `["a", ""]`, no path is `[]`.
      `query` lists the decoded pairs in their order. */
  datatype Url = Url(scheme: string, host: string, path: seq<string>, query: seq<Pair>, fragment: string)

  datatype Result = Canonical(url: Url) | MissingHost

  const TRACKING: set<string> := {
    "utm_source", "utm_medium", "utm_campaign", "utm_term", "utm_content", "utm_id", "utm_name", "utm_reader",
    "utm_place", "utm_social", "utm_social-type", "gclid", "dclid", "fbclid", "msclkid", "igshid" }

  function Lower(s: string): (r: string)
    ensures |r| == |s| && forall i :: 0 <= i < |s| ==>
      r[i] == if 'A' <= s[i] <= 'Z' then (s[i] as int + 32) as char else s[i]
  {
    seq(|s|, i requires 0 <= i < |s| => if 'A' <= s[i] <= 'Z' then (s[i] as int + 32) as char else s[i])
  }

  lemma LowerTwice(s: string)
    ensures Lower(Lower(s)) == Lower(s)
  {
  }

  // ---- host ----

  function Split(s: string, c: char): (parts: seq<string>)
    ensures |parts| > 0 && forall p :: p in parts ==> c !in p
    ensures |parts| == 1 <==> c !in s
    ensures |parts| == 1 ==> parts == [s]
    ensures |parts| == 2 ==> s == parts[0] + [c] + parts[1]
  {
    if s == "" then [""]
    else
      var rest := Split(s[1..], c);
      assert s == [s[0]] + s[1..];
      if s[0] == c then [""] + rest else [[s[0]] + rest[0]] + rest[1..]
  }

  predicate DefaultPort(scheme: string, port: string) {
    (scheme == "http" && port == "80") || (scheme == "https" && port == "443")
  }

  function PortOf(scheme: string): string {
    if scheme == "http" then "80" else "443"
  }

  /** `host` is `name`, a colon and the scheme's default port, where `name` has no colon. */
  predicate Redundant(scheme: string, host: string, name: string) {
    (scheme == "http" || scheme == "https") && ':' !in name && host == name + [':'] + PortOf(scheme)
  }

  /** `host` without a default port that follows its only colon. */
  ghost predicate IsHost(scheme: string, host: string, out: string) {
    Redundant(scheme, host, out) || (host == out && forall name :: !Redundant(scheme, host, name))
  }

  method StripDefaultPort(scheme: string, host: string) returns (out: string)
    ensures IsHost(scheme, host, out)
  {
    out := host;
    var parts := Split(host, ':');
    if ':' in host && |parts| == 2 && DefaultPort(scheme, parts[1]) {
      return parts[0];
    }
    forall name {
      NotRedundant(scheme, host, name);
    }
  }

  lemma NotRedundant(scheme: string, host: string, name: string)
    requires |Split(host, ':')| == 2 ==> !DefaultPort(scheme, Split(host, ':')[1])
    ensures !Redundant(scheme, host, name)
  {
    if ':' !in name {
      SplitOnce(name, PortOf(scheme), ':');
    }
  }

  lemma {:induction false} SplitOnce(name: string, port: string, c: char)
    requires c !in name && c !in port
    ensures Split(name + [c] + port, c) == [name, port]
  {
    var s := name + [c] + port;
    if name == "" {
      assert s[1..] == port;
    } else {
      assert s[1..] == name[1..] + [c] + port && s[0] == name[0];
      SplitOnce(name[1..], port, c);
      assert [name[0]] + name[1..] == name;
    }
  }

  // ---- path ----

  predicate Plain(segment: string) {
    segment != "" && segment != "." && segment != ".."
  }

  /** Empty and `.` segments vanish, and `..` removes the segment before it, if there is one. */
  function CleanSegments(path: seq<string>): (r: seq<string>)
    ensures forall s :: s in r ==> Plain(s)
    ensures (forall s :: s in path ==> Plain(s)) ==> r == path
  {
    if path == [] then []
    else
      var before, last := CleanSegments(path[..|path| - 1]), path[|path| - 1];
      assert path == path[..|path| - 1] + [last] && last in path;
      assert forall s :: s in path[..|path| - 1] ==> s in path;
      if last == "" || last == "." then before
      else if last == ".." then (if before == [] then [] else before[..|before| - 1])
      else before + [last]
  }

  function CleanPath(path: seq<string>): seq<string> {
    var clean := CleanSegments(path);
    if clean == [] then [""]
    else if path != [] && path[|path| - 1] == "" then clean + [""]
    else clean
  }

  lemma CleanPathTwice(path: seq<string>)
    ensures CleanPath(CleanPath(path)) == CleanPath(path)
  {
    var clean := CleanSegments(path);
    var out := CleanPath(path);
    assert CleanSegments([""]) == [];
    if clean != [] {
      assert (clean + [""])[..|clean|] == clean;
      assert CleanSegments(out) == clean;
    }
  }

  // ---- query ----

  predicate Kept(p: Pair) {
    Lower(p.key) !in TRACKING && p != Pair("", "")
  }

  predicate PairLe(p: Pair, q: Pair) {
    if p.key == q.key then Le(p.value, q.value) else Le(p.key, q.key)
  }

  ghost predicate PairsSorted(ps: seq<Pair>) {
    forall i, j :: 0 <= i < j < |ps| ==> PairLe(ps[i], ps[j])
  }

  /** The pairs that are not tracking parameters, sorted by key and then value. A pair with neither key
      nor value prints as nothing. */
  ghost predicate IsQuery(query: seq<Pair>, out: seq<Pair>) {
    && PairsSorted(out)
    && forall p :: multiset(out)[p] == if Kept(p) then multiset(query)[p] else 0
  }

  lemma PairLeAntisymmetric(p: Pair, q: Pair)
    requires PairLe(p, q) && PairLe(q, p)
    ensures p == q
  {
    LeTotal(p.key, q.key);
    LeTotal(p.value, q.value);
  }

  lemma {:induction false} PairsSortedUnique(s: seq<Pair>, t: seq<Pair>)
    requires PairsSorted(s) && PairsSorted(t) && multiset(s) == multiset(t)
    ensures s == t
  {
    assert |s| == |multiset(s)| == |multiset(t)| == |t|;
    if s != [] {
      SameFirst(s, t);
      assert s == [s[0]] + s[1..] && t == [t[0]] + t[1..];
      assert multiset(s[1..]) == multiset(s) - multiset{s[0]};
      assert multiset(t[1..]) == multiset(t) - multiset{t[0]};
      PairsSortedUnique(s[1..], t[1..]);
    }
  }

  lemma SameFirst(s: seq<Pair>, t: seq<Pair>)
    requires PairsSorted(s) && PairsSorted(t) && multiset(s) == multiset(t) && s != [] && t != []
    ensures s[0] == t[0]
  {
    assert s[0] in multiset(t) && t[0] in multiset(s);
    if s[0] != t[0] {
      PairLeAntisymmetric(s[0], t[0]);
    }
  }

  const BLANK := Pair("", "")

  ghost predicate Printable(out: seq<Pair>) {
    PairsSorted(out) && BLANK !in out
  }

  /** Writes one pair after a separator if anything was written before. */
  method WritePair(out: seq<Pair>, p: Pair) returns (out': seq<Pair>)
    requires Printable(out) && forall q :: q in out ==> PairLe(q, p)
    ensures Printable(out')
    ensures out' == out + if p == BLANK then [] else [p]
  {
    out' := out;
    if p == BLANK && out != [] {
      PairLeAntisymmetric(out[0], p);
    }
    if |out| > 0 || p.key != "" || p.value != "" {
      out' := out + [p];
    }
  }

  /** How often each value occurs under each key. */
  function Times(m: map<string, seq<string>>, p: Pair): nat {
    if p.key in m then multiset(m[p.key])[p.value] else 0
  }

  method WriteValues(out0: seq<Pair>, key: string, values: seq<string>) returns (out: seq<Pair>)
    requires Printable(out0) && Sorted(values)
    requires forall q :: q in out0 ==> q.key != key && Le(q.key, key)
    ensures Printable(out) && forall q :: q in out ==> q in out0 || q.key == key
    ensures Added(out0, out, key, values)
  {
    out := out0;
    for i := 0 to |values|
      invariant Printable(out)
      invariant forall q :: q in out ==> q in out0 || (q.key == key && q.value in values[..i])
      invariant Added(out0, out, key, values[..i])
    {
      assert values[..i + 1] == values[..i] + [values[i]];
      AddedNext(out0, out, key, values[..i], values[i]);
      BehindAll(out0, out, key, values, i);
      out := WritePair(out, Pair(key, values[i]));
    }
    assert values[..|values|] == values;
  }

  lemma BehindAll(out0: seq<Pair>, out: seq<Pair>, key: string, values: seq<string>, i: nat)
    requires i < |values| && Sorted(values)
    requires forall q :: q in out0 ==> q.key != key && Le(q.key, key)
    requires forall q :: q in out ==> q in out0 || (q.key == key && q.value in values[..i])
    ensures forall q :: q in out ==> PairLe(q, Pair(key, values[i]))
  {
    forall q | q in out
      ensures PairLe(q, Pair(key, values[i]))
    {
      if q !in out0 {
        var k :| 0 <= k < i && values[k] == q.value;
      }
    }
  }

  /** `out` holds, beyond `out0`, one pair for each of the values. */
  ghost predicate Added(out0: seq<Pair>, out: seq<Pair>, key: string, values: seq<string>) {
    forall p :: multiset(out)[p] == multiset(out0)[p]
      + if p.key == key && p != BLANK then multiset(values)[p.value] else 0
  }

  lemma AddedNext(out0: seq<Pair>, out: seq<Pair>, key: string, values: seq<string>, value: string)
    requires Added(out0, out, key, values)
    ensures Added(out0, out + if Pair(key, value) == BLANK then [] else [Pair(key, value)], key, values + [value])
  {
    assert out + [] == out;
  }

  /** The decoded query as a map from keys to their values in order. */
  method ParseQuery(query: seq<Pair>) returns (m: map<string, seq<string>>)
    ensures forall p :: Times(m, p) == multiset(query)[p]
  {
    m := map[];
    for i := 0 to |query|
      invariant forall p :: Times(m, p) == multiset(query[..i])[p]
    {
      var p := query[i];
      assert query[..i + 1] == query[..i] + [p];
      ghost var before := m;
      m := m[p.key := (if p.key in m then m[p.key] else []) + [p.value]];
      forall q
        ensures Times(m, q) == Times(before, q) + if q == p then 1 else 0
      {
      }
    }
    assert query[..|query|] == query;
  }

  method DropTracking(m0: map<string, seq<string>>) returns (m: map<string, seq<string>>)
    ensures m == map k | k in m0 && Lower(k) !in TRACKING :: m0[k]
  {
    m := m0;
    var rest := m0.Keys;
    while rest != {}
      invariant rest <= m0.Keys
      invariant m == map k | k in m0 && (k in rest || Lower(k) !in TRACKING) :: m0[k]
    {
      var key :| key in rest;
      if Lower(key) in TRACKING {
        m := m - {key};
      }
      rest := rest - {key};
    }
  }

  method CanonicalQuery(query: seq<Pair>) returns (out: seq<Pair>)
    ensures IsQuery(query, out)
  {
    var parsed := ParseQuery(query);
    var m := DropTracking(parsed);
    var listed := ListKeys(m.Keys);
    var keys := Sort(listed);
    AllKeys(keys, m.Keys);
    out := WriteKeys(m, keys);
    AllWritten(query, parsed, m, keys, out);
  }

  /** Writes the values of each key in turn, sorted. */
  method WriteKeys(m: map<string, seq<string>>, keys: seq<string>) returns (out: seq<Pair>)
    requires Sorted(keys) && multiset(keys) == multiset(m.Keys)
    ensures Printable(out) && Written(m, keys, out)
  {
    out := [];
    for i := 0 to |keys|
      invariant Printable(out) && forall q :: q in out ==> q.key in keys[..i]
      invariant Written(m, keys[..i], out)
    {
      var key := keys[i];
      KeyOnce(keys, m.Keys, i);
      assert keys[..i + 1] == keys[..i] + [key];
      var before := out;
      out := WriteValues(before, key, Sort(m[key]));
      WrittenNext(m, keys[..i], before, out, key);
    }
    assert keys[..|keys|] == keys;
  }

  /** `out` holds the pairs of the given keys. */
  ghost predicate Written(m: map<string, seq<string>>, keys: seq<string>, out: seq<Pair>) {
    forall p :: multiset(out)[p] == if p.key in keys && p != BLANK then Times(m, p) else 0
  }

  lemma WrittenNext(m: map<string, seq<string>>, keys: seq<string>, before: seq<Pair>, out: seq<Pair>, key: string)
    requires Written(m, keys, before) && key in m && key !in keys
    requires Added(before, out, key, Sort(m[key]))
    ensures Written(m, keys + [key], out)
  {
  }

  lemma AllWritten(query: seq<Pair>, parsed: map<string, seq<string>>, m: map<string, seq<string>>,
                   keys: seq<string>, out: seq<Pair>)
    requires forall p :: Times(parsed, p) == multiset(query)[p]
    requires m == map k | k in parsed && Lower(k) !in TRACKING :: parsed[k]
    requires (forall k :: k in keys <==> k in m.Keys) && Written(m, keys, out) && Printable(out)
    ensures IsQuery(query, out)
  {
    forall p
      ensures multiset(out)[p] == if Kept(p) then multiset(query)[p] else 0
    {
      assert Times(parsed, p) == multiset(query)[p];
    }
  }

  lemma KeyOnce(keys: seq<string>, all: set<string>, i: nat)
    requires i < |keys| && multiset(keys) == multiset(all) && Sorted(keys)
    ensures keys[i] in all && keys[i] !in keys[..i] && forall k :: k in keys[..i] ==> Le(k, keys[i])
  {
    assert keys[i] in multiset(keys);
    assert keys == keys[..i] + [keys[i]] + keys[i + 1..];
    assert multiset(keys)[keys[i]] == 1;
  }

  lemma AllKeys(keys: seq<string>, all: set<string>)
    requires multiset(keys) == multiset(all)
    ensures keys[..|keys|] == keys && forall k :: k in keys <==> k in all
  {
    forall k
      ensures k in keys <==> k in all
    {
      assert k in keys <==> k in multiset(keys);
    }
  }

  // ---- CanonicalURL ----

  function SchemeOf(u: Url): string {
    Lower(if u.scheme == "" then "https" else u.scheme)
  }

  ghost predicate IsCanonical(u: Url, r: Url) {
    && r.scheme == SchemeOf(u)
    && IsHost(r.scheme, Lower(u.host), r.host)
    && r.path == CleanPath(u.path)
    && IsQuery(u.query, r.query)
    && r.fragment == ""
  }

  method CanonicalURL(u: Url) returns (r: Result)
    ensures r == MissingHost <==> u.host == ""
    ensures r.Canonical? ==> IsCanonical(u, r.url)
  {
    var scheme := Lower(if u.scheme == "" then "https" else u.scheme);
    var host := Lower(u.host);
    if host == "" {
      return MissingHost;
    }
    host := StripDefaultPort(scheme, host);
    var query := CanonicalQuery(u.query);
    return Canonical(Url(scheme, host, CleanPath(u.path), query, ""));
  }

  lemma HostUnique(scheme: string, host: string, a: string, b: string)
    requires IsHost(scheme, host, a) && IsHost(scheme, host, b)
    ensures a == b
  {
    if Redundant(scheme, host, a) && Redundant(scheme, host, b) {
      var port := [':'] + PortOf(scheme);
      assert a == host[..|host| - |port|] && b == host[..|host| - |port|];
    }
  }

  lemma HostTwice(scheme: string, host: string, out: string)
    requires IsHost(scheme, Lower(host), out)
    ensures IsHost(scheme, Lower(out), out)
  {
    LowerTwice(host);
    var lower := Lower(host);
    if Redundant(scheme, lower, out) {
      assert forall i :: 0 <= i < |out| ==> out[i] == lower[i];
      assert Lower(out) == out;
      forall name
        ensures !Redundant(scheme, out, name)
      {
        assert (name + [':'] + PortOf(scheme))[|name|] == ':';
      }
    }
  }

  lemma QueryTwice(query: seq<Pair>, out: seq<Pair>)
    requires IsQuery(query, out)
    ensures IsQuery(out, out)
  {
  }

  lemma QueryUnique(query: seq<Pair>, a: seq<Pair>, b: seq<Pair>)
    requires IsQuery(query, a) && IsQuery(query, b)
    ensures a == b
  {
    assert multiset(a) == multiset(b);
    PairsSortedUnique(a, b);
  }

  lemma CanonicalUnique(u: Url, a: Url, b: Url)
    requires IsCanonical(u, a) && IsCanonical(u, b)
    ensures a == b
  {
    HostUnique(a.scheme, Lower(u.host), a.host, b.host);
    QueryUnique(u.query, a.query, b.query);
  }

  /** Canonicalising a canonical URL gives it back, unless no host name is left: then it is refused. */
  lemma Idempotent(u: Url, r: Url, again: Url)
    requires IsCanonical(u, r)
    ensures IsCanonical(r, again) <==> again == r
  {
    LowerTwice(if u.scheme == "" then "https" else u.scheme);
    assert r.scheme != "";
    HostTwice(r.scheme, u.host, r.host);
    CleanPathTwice(u.path);
    QueryTwice(u.query, r.query);
    assert IsCanonical(r, r);
    if IsCanonical(r, again) {
      CanonicalUnique(r, r, again);
    }
  }

  /** The host that is left is empty exactly for a bare default port. */
  lemma HostVanishes(u: Url, r: Url)
    requires IsCanonical(u, r) && u.host != ""
    ensures r.host == "" <==> (r.scheme == "http" && u.host == ":80") || (r.scheme == "https" && u.host == ":443")
  {
    EmptyHost(r.scheme, Lower(u.host), r.host);
    LowerOfPort(u.host, ":80");
    LowerOfPort(u.host, ":443");
  }

  lemma EmptyHost(scheme: string, lower: string, out: string)
    requires IsHost(scheme, lower, out) && lower != ""
    ensures out == "" <==> (scheme == "http" && lower == ":80") || (scheme == "https" && lower == ":443")
  {
    if (scheme == "http" && lower == ":80") || (scheme == "https" && lower == ":443") {
      assert Redundant(scheme, lower, "");
      HostUnique(scheme, lower, out, "");
    }
  }

  /** Lower-casing neither makes nor unmakes a port. */
  lemma LowerOfPort(host: string, port: string)
    requires forall i :: 0 <= i < |port| ==> !('A' <= port[i] <= 'Z') && !('a' <= port[i] <= 'z')
    ensures Lower(host) == port <==> host == port
  {
    if Lower(host) == port {
      assert forall i :: 0 <= i < |host| ==> host[i] == port[i];
    }
  }

  // ---- the canonical components, one by one ----

  lemma SchemeMeans(u: Url, r: Url)
    requires IsCanonical(u, r)
    ensures u.scheme == "" ==> r.scheme == "https"
    ensures u.scheme != "" ==> r.scheme == Lower(u.scheme)
    ensures r.fragment == ""
  {
    assert Lower("https") == "https";
  }

  /** A host in lower case loses ":80" under http and ":443" under https, if that is behind its only colon,
      and nothing else. */
  lemma HostMeans(u: Url, r: Url, name: string)
    requires IsCanonical(u, r) && ':' !in name
    ensures r.scheme == "http" && Lower(u.host) == name + ":80" ==> r.host == name
    ensures r.scheme == "https" && Lower(u.host) == name + ":443" ==> r.host == name
    ensures r.host == Lower(u.host)
      || (':' !in r.host && r.scheme == "http" && Lower(u.host) == r.host + ":80")
      || (':' !in r.host && r.scheme == "https" && Lower(u.host) == r.host + ":443")
  {
    assert [':'] + "80" == ":80" && [':'] + "443" == ":443";
    assert name + ":80" == name + [':'] + "80" && name + ":443" == name + [':'] + "443";
    var host := Lower(u.host);
    if (r.scheme == "http" && host == name + ":80") || (r.scheme == "https" && host == name + ":443") {
      assert Redundant(r.scheme, host, name);
      HostUnique(r.scheme, host, r.host, name);
    }
  }

  /** Walking down a path: an empty segment and "." stay, ".." goes up unless that is at the root, and any
      other segment goes down. */
  lemma PathSteps(path: seq<string>, s: string)
    ensures CleanSegments([]) == []
    ensures s == "" || s == "." ==> CleanSegments(path + [s]) == CleanSegments(path)
    ensures s == ".." && CleanSegments(path) == [] ==> CleanSegments(path + [s]) == []
    ensures s == ".." && CleanSegments(path) != [] ==>
      CleanSegments(path + [s]) == CleanSegments(path)[..|CleanSegments(path)| - 1]
    ensures s !in {"", ".", ".."} ==> CleanSegments(path + [s]) == CleanSegments(path) + [s]
  {
    assert (path + [s])[..|path|] == path;
  }

  /** A path is its cleaned segments; the root alone if there are none, and a trailing slash is kept. */
  lemma PathMeans(u: Url, r: Url)
    requires IsCanonical(u, r)
    ensures CleanSegments(u.path) == [] ==> r.path == [""]
    ensures CleanSegments(u.path) != [] && u.path[|u.path| - 1] == "" ==> r.path == CleanSegments(u.path) + [""]
    ensures CleanSegments(u.path) != [] && u.path[|u.path| - 1] != "" ==> r.path == CleanSegments(u.path)
  {
  }

  /** The pairs of the query stay, each as often as given, but for the blank one and those of the tracking
      parameters, in whatever case they are written; they come sorted by key and then by value. */
  lemma QueryMeans(u: Url, r: Url, p: Pair)
    requires IsCanonical(u, r)
    ensures multiset(r.query)[p]
      == if (p.key == "" && p.value == "")
          || Lower(p.key) in {
            "utm_source", "utm_medium", "utm_campaign", "utm_term", "utm_content", "utm_id", "utm_name",
            "utm_reader", "utm_place", "utm_social", "utm_social-type", "gclid", "dclid", "fbclid", "msclkid",
            "igshid" }
         then 0 else multiset(u.query)[p]
    ensures forall i, j :: 0 <= i < j < |r.query| ==>
      if r.query[i].key == r.query[j].key then Le(r.query[i].value, r.query[j].value)
      else Le(r.query[i].key, r.query[j].key)
  {
    assert forall i, j :: 0 <= i < j < |r.query| ==> PairLe(r.query[i], r.query[j]);
  }

  /** The order of query pairs, tracking parameters and the fragment make no difference. */
  lemma OnlyKeptPairsMatter(u: Url, v: Url, a: Url, b: Url)
    requires SchemeOf(u) == SchemeOf(v) && Lower(u.host) == Lower(v.host) && CleanPath(u.path) == CleanPath(v.path)
    requires forall p :: Kept(p) ==> multiset(u.query)[p] == multiset(v.query)[p]
    requires IsCanonical(u, a) && IsCanonical(v, b)
    ensures a == b
  {
    assert IsQuery(u.query, b.query);
    assert IsCanonical(u, b);
    CanonicalUnique(u, a, b);
  }
}
