/** Extracting the first JSON object or array from free text. Text is a sequence of Unicode characters. */
module JsonExtract {
  import opened JsonText
  import opened JsonScan
  import opened JsonMatch
  import opened Text

  datatype Found = Segment(text: string) | Nothing

  predicate Opens(s: string, i: int) {
    0 <= i < |s| && (s[i] == '{' || s[i] == '[')
  }

  // ---- extractBalancedJSONFrom ----

  function SegmentFrom(s: string, i: int): Found {
    if !Opens(s, i) then Nothing
    else
      match ScanFrom(s[i..])
      case Closed(n) =>
        FeedBound(State(s[i..][..1], false, false), s[i..][1..]);
        Segment(s[i..][..n + 1])
      case _ => Nothing
  }

  /** The segment is the shortest one from the opener whose brackets outside strings match; there is
      none exactly when no segment from there matches. */
  lemma SegmentIsShortestMatch(s: string, i: nat)
    requires Opens(s, i)
    ensures SegmentFrom(s, i).Nothing? <==> forall k :: 1 <= k <= |s| - i ==> !Matched(s[i..][..k])
    ensures SegmentFrom(s, i).Segment? ==>
      var out := SegmentFrom(s, i).text;
      out != "" && out <= s[i..] && Matched(out) && forall k :: 1 <= k < |out| ==> !Matched(s[i..][..k])
  {
    ScanFindsShortest(s[i..]);
  }

  method ExtractBalancedJSONFrom(s: string, startIdx: int) returns (r: Found)
    ensures r == SegmentFrom(s, startIdx)
  {
    if startIdx < 0 || startIdx >= |s| {
      return Nothing;
    }
    var start := s[startIdx];
    if start != '{' && start != '[' {
      return Nothing;
    }
    var stack, inString, escape := [start], false, false;
    ghost var rest := s[startIdx..];
    assert [start] == rest[..1];
    for i := startIdx + 1 to |s|
      invariant stack != []
      invariant ScanFrom(rest) == Later(Feed(State(stack, inString, escape), s[i..]), i - startIdx - 1)
    {
      var c := s[i];
      assert s[i..][0] == c && s[i..][1..] == s[i + 1..];
      if inString {
        if escape {
          escape := false;
          continue;
        }
        if c == BACKSLASH {
          escape := true;
        } else if c == QUOTE {
          inString := false;
        }
        continue;
      }
      if c == QUOTE {
        inString := true;
      } else if c == '{' || c == '[' {
        stack := stack + [c];
      } else if c == '}' || c == ']' {
        if !PopMatches(stack, c) {
          return Nothing;
        }
        stack := stack[..|stack| - 1];
        if |stack| == 0 {
          assert s[startIdx..i + 1] == rest[..i - startIdx + 1];
          return Segment(s[startIdx..i + 1]);
        }
      }
    }
    return Nothing;
  }

  // ---- trimming and fences ----

  function TrimBOM(s: string): string {
    if s != "" && s[0] == '\U{FEFF}' then s[1..] else s
  }

  /** `strings.TrimLeft` with the four blanks of JSON. */
  function TrimBlanks(s: string): string {
    if s != "" && s[0] in "\n\r\t " then TrimBlanks(s[1..]) else s
  }

  /** The first position of `pat` in `s`, or -1. */
  function Index(s: string, pat: string): (r: int)
    ensures -1 <= r <= |s|
    ensures r >= 0 ==> pat <= s[r..] && forall k :: 0 <= k < r ==> !(pat <= s[k..])
    ensures r < 0 ==> forall k :: 0 <= k <= |s| ==> !(pat <= s[k..])
  {
    if pat <= s then 0
    else if s == "" then -1
    else
      var i := Index(s[1..], pat);
      assert forall k :: 1 <= k <= |s| ==> s[1..][k - 1..] == s[k..];
      if i < 0 then -1 else i + 1
  }

  const BACKTICKS := "```"
  const TILDES := "~~~"

  function StripFirstCodeFence(s: string): Found {
    var trim := TrimBlanks(s);
    if BACKTICKS <= trim || TILDES <= trim then
      InsideFence(trim[3..], if TILDES <= trim then TILDES else BACKTICKS)
    else Nothing
  }

  /** What lies between the end of the opening fence's line and the next fence. */
  function InsideFence(rest: string, fence: string): Found {
    var nl := Index(rest, "\n");
    if nl < 0 then Nothing
    else
      var body := rest[nl + 1..];
      var end := Index(body, fence);
      if end >= 0 then Segment(body[..end]) else Nothing
  }

  // ---- ExtractJSON ----

  /** The first segment starting at or after position `i`. */
  function FirstSegment(s: string, i: nat): Found
    decreases |s| - i
  {
    if i >= |s| then Nothing
    else if SegmentFrom(s, i).Segment? then SegmentFrom(s, i)
    else FirstSegment(s, i + 1)
  }

  function Unwrapped(s: string): string {
    var t := TrimBOM(TrimSpace(s));
    match StripFirstCodeFence(t)
    case Segment(inner) => TrimSpace(inner)
    case Nothing => t
  }

  method ExtractJSON(input: string) returns (r: Found)
    ensures r == FirstSegment(Unwrapped(input), 0)
  {
    var s := TrimBOM(TrimSpace(input));
    var inner := StripFirstCodeFence(s);
    if inner.Segment? {
      s := TrimSpace(inner.text);
    }
    if |s| > 0 && (s[0] == '{' || s[0] == '[') {
      r := ExtractBalancedJSONFrom(s, 0);
      if r.Segment? {
        return;
      }
    }
    for i := 0 to |s|
      invariant FirstSegment(s, 0) == FirstSegment(s, i)
    {
      if s[i] == '{' || s[i] == '[' {
        r := ExtractBalancedJSONFrom(s, i);
        if r.Segment? {
          return;
        }
      }
    }
    return Nothing;
  }

  /** A segment with matching brackets starts at `i`. */
  ghost predicate MatchAt(s: string, i: nat) {
    i < |s| && (s[i] == '{' || s[i] == '[') && exists k :: 1 <= k <= |s| - i && Matched(s[i..][..k])
  }

  /** What is returned is the shortest matching segment at the first opener that starts one, however many
      openers before it start none; nothing is returned exactly when no opener does. */
  lemma {:induction false} FirstSegmentMeans(s: string, from: nat)
    ensures var r := FirstSegment(s, from);
      && (r.Nothing? <==> forall i: nat :: i >= from ==> !MatchAt(s, i))
      && (r.Segment? ==> exists i: nat ::
            i >= from && IsShortestAt(s, i, r.text) && forall j: nat :: from <= j < i ==> !MatchAt(s, j))
    decreases |s| - from
  {
    if from < |s| {
      if Opens(s, from) {
        SegmentIsShortestMatch(s, from);
      }
      if SegmentFrom(s, from).Segment? {
        var out := SegmentFrom(s, from).text;
        assert IsShortestAt(s, from, out) && out == s[from..][..|out|];
        assert MatchAt(s, from);
      } else {
        FirstSegmentMeans(s, from + 1);
      }
    }
  }

  ghost predicate IsShortestAt(s: string, i: nat, out: string) {
    && i < |s| && (s[i] == '{' || s[i] == '[') && out != "" && out <= s[i..] && Matched(out)
    && forall k :: 1 <= k < |out| ==> !Matched(s[i..][..k])
  }

  // ---- printed values are found ----

  /** Text before a value that the extraction cannot mistake for a value or a fence. */
  predicate OpensWithFence(prose: string) {
    var start := TrimBlanks(TrimBOM(TrimStart(prose)));
    "```" <= start || "~~~" <= start
  }

  predicate NoOpener(s: string) {
    forall c :: c in s ==> c != '{' && c != '['
  }

  lemma {:induction false} TrimStartKeeps(a: string, x: string)
    requires x != "" && !IsSpace(x[0])
    ensures TrimStart(a + x) == TrimStart(a) + x
  {
    if a == "" {
      assert a + x == x;
    } else if IsSpace(a[0]) {
      assert (a + x)[1..] == a[1..] + x;
      TrimStartKeeps(a[1..], x);
    }
  }

  lemma {:induction false} TrimEndKeeps(x: string, b: string)
    requires x != "" && !IsSpace(x[|x| - 1])
    ensures TrimEnd(x + b) == x + TrimEnd(b)
  {
    if b == "" {
      assert x + b == x;
    } else if IsSpace(b[|b| - 1]) {
      assert (x + b)[..|x + b| - 1] == x + b[..|b| - 1];
      TrimEndKeeps(x, b[..|b| - 1]);
    }
  }

  lemma {:induction false} TrimBlanksKeeps(a: string, x: string)
    requires x != "" && x[0] !in "\n\r\t "
    ensures TrimBlanks(a + x) == TrimBlanks(a) + x
  {
    if a == "" {
      assert a + x == x;
    } else if a[0] in "\n\r\t " {
      assert (a + x)[1..] == a[1..] + x;
      TrimBlanksKeeps(a[1..], x);
    }
  }

  /** A text that starts and ends like an object or array. */
  predicate Bracketed(text: string) {
    text != "" && text[0] in "{[" && text[|text| - 1] in "}]"
  }

  lemma FenceNotBefore(a: string, x: string, fence: string)
    requires x != "" && x[0] in "{[" && (fence == "```" || fence == "~~~")
    ensures fence <= a + x <==> fence <= a
  {
    assert (a + x)[|a|] == x[0];
  }

  lemma TrimKeeps(prose: string, text: string, tail: string)
    requires Bracketed(text)
    ensures TrimSpace(prose + text + tail) == TrimStart(prose) + text + TrimEnd(tail)
  {
    assert prose + text + tail == prose + (text + tail);
    TrimStartKeeps(prose, text + tail);
    var p := TrimStart(prose);
    assert p + (text + tail) == (p + text) + tail;
    TrimEndKeeps(p + text, tail);
  }

  lemma {:induction false} TrimStartNoOpener(prose: string)
    requires NoOpener(prose)
    ensures NoOpener(TrimStart(prose)) && NoOpener(TrimBOM(TrimStart(prose)))
  {
    if prose != "" {
      assert forall c :: c in prose[1..] ==> c in prose;
      if IsSpace(prose[0]) {
        TrimStartNoOpener(prose[1..]);
      }
    }
  }

  lemma NotFenced(p: string, x: string)
    requires x != "" && x[0] in "{["
    requires !(BACKTICKS <= TrimBlanks(p)) && !(TILDES <= TrimBlanks(p))
    ensures StripFirstCodeFence(p + x).Nothing?
  {
    TrimBlanksKeeps(p, x);
    FenceNotBefore(TrimBlanks(p), x, BACKTICKS);
    FenceNotBefore(TrimBlanks(p), x, TILDES);
  }

  lemma BOMKeeps(p: string, x: string)
    requires x != "" && x[0] in "{["
    ensures TrimBOM(p + x) == TrimBOM(p) + x
  {
    assert p == "" ==> p + x == x;
  }

  /** Prose in front of a value loses at most its own first characters. */
  lemma UnwrapKeeps(prose: string, text: string, tail: string) returns (prose': string, tail': string)
    requires Bracketed(text) && NoOpener(prose) && !OpensWithFence(prose)
    ensures Unwrapped(prose + text + tail) == prose' + text + tail' && NoOpener(prose')
  {
    TrimKeeps(prose, text, tail);
    TrimStartNoOpener(prose);
    tail' := TrimEnd(tail);
    prose' := TrimBOM(TrimStart(prose));
    Regroup(TrimStart(prose), text, tail');
    Regroup(prose', text, tail');
    BOMKeeps(TrimStart(prose), text + tail');
    NotFenced(prose', text + tail');
    UnwrapsTo(prose + text + tail, prose' + text + tail');
  }

  lemma Regroup(a: string, b: string, c: string)
    ensures a + b + c == a + (b + c)
  {
  }

  lemma UnwrapsTo(input: string, t: string)
    requires TrimBOM(TrimSpace(input)) == t
    ensures Unwrapped(input) == match StripFirstCodeFence(t) case Segment(inner) => TrimSpace(inner) case Nothing => t
  {
  }

  lemma {:induction false} SkipProse(prose: string, s: string, i: nat)
    requires prose <= s && NoOpener(prose) && i <= |prose|
    ensures FirstSegment(s, i) == FirstSegment(s, |prose|)
    decreases |prose| - i
  {
    if i < |prose| {
      assert s[i] == prose[i] && prose[i] in prose;
      SkipProse(prose, s, i + 1);
    }
  }

  lemma FoundAfterProse(prose: string, v: Json, tail: string)
    requires Valid(v) && (v.Obj? || v.Arr?) && NoOpener(prose)
    ensures FirstSegment(prose + Print(v) + tail, 0) == Segment(Print(v))
    ensures SegmentFrom(prose + Print(v) + tail, |prose|) == Segment(Print(v))
  {
    var text := Print(v);
    var s := prose + text + tail;
    PrintedValueCloses(v, tail);
    SkipProse(prose, s, 0);
    assert s[|prose|..] == text + tail;
    assert (text + tail)[1..] == text[1..] + tail && (text + tail)[..1] == text[..1];
    assert (text + tail)[..|text|] == text;
  }

  /** Any printed object or array is extracted exactly, whatever surrounds it, as long as the text in
      front has no opening bracket and does not begin with a code fence. */
  lemma ExtractsPrintedValue(prose: string, v: Json, tail: string)
    requires Valid(v) && (v.Obj? || v.Arr?)
    requires NoOpener(prose) && !OpensWithFence(prose)
    ensures FirstSegment(Unwrapped(prose + Print(v) + tail), 0) == Segment(Print(v))
  {
    PrintedValueCloses(v, tail);
    var prose', tail' := UnwrapKeeps(prose, Print(v), tail);
    FoundAfterProse(prose', v, tail');
  }

  // ---- values inside a fence ----

  lemma IndexIs(s: string, pat: string, i: nat)
    requires i <= |s| && pat <= s[i..] && forall k :: 0 <= k < i ==> !(pat <= s[k..])
    ensures Index(s, pat) == i
  {
    var r := Index(s, pat);
    assert 0 <= i <= |s| && pat <= s[i..];
  }

  /** Between the fences: a value whose text does not contain the fence, and around it text without
      any fence character. */
  ghost predicate Fenceable(fence: string, lang: string, pre: string, text: string, post: string) {
    && (fence == "```" || fence == "~~~")
    && (forall c :: c in lang ==> c != '\n')
    && (forall c :: c in pre || c in post ==> c != fence[0])
    && NoOpener(pre)
    && (forall k :: 0 <= k <= |text| ==> !(fence <= text[k..]))
  }

  /** No fence starts inside the body. */
  lemma NoFenceAt(fence: string, pre: string, text: string, post: string, rest: string, k: nat)
    requires Bracketed(text) && Fenceable(fence, "", pre, text, post)
    requires k < |pre| + |text| + |post|
    ensures !(fence <= (pre + text + post + rest)[k..])
  {
    var s := pre + text + post + rest;
    var n := |pre| + |text|;
    if k < |pre| {
      assert s[k] == pre[k] && pre[k] in pre;
    } else if k >= n {
      assert s[k] == post[k - n] && post[k - n] in post;
    } else if k + 2 < n {
      assert s[k..][..3] == text[k - |pre|..][..3];
    } else {
      assert s[n - 1] == text[|text| - 1];
      assert |s[k..]| > n - 1 - k && s[k..][n - 1 - k] == s[n - 1];
    }
  }

  lemma FenceCloses(fence: string, pre: string, text: string, post: string, rest: string)
    requires Bracketed(text) && Fenceable(fence, "", pre, text, post)
    ensures Index(pre + text + post + fence + rest, fence) == |pre + text + post|
  {
    var body := pre + text + post;
    var s := body + (fence + rest);
    assert s == body + fence + rest;
    forall k | 0 <= k < |body|
      ensures !(fence <= s[k..])
    {
      NoFenceAt(fence, pre, text, post, fence + rest, k);
    }
    assert s[|body|..] == fence + rest;
    IndexIs(s, fence, |body|);
  }

  lemma FirstNewline(lang: string, rest: string)
    requires forall c :: c in lang ==> c != '\n'
    ensures Index(lang + "\n" + rest, "\n") == |lang|
  {
    var s := lang + "\n" + rest;
    forall k | 0 <= k < |lang|
      ensures !("\n" <= s[k..])
    {
      assert s[k..][0] == lang[k] && lang[k] in lang;
    }
    assert s[|lang|..] == "\n" + rest;
    IndexIs(s, "\n", |lang|);
  }

  /** An opening fence line with a language tag, then `body`. */
  function Fenced(fence: string, lang: string, body: string): string {
    fence + (lang + "\n" + body)
  }

  lemma StripsFence(fence: string, lang: string, body: string, end: nat)
    requires fence == "```" || fence == "~~~"
    requires (forall c :: c in lang ==> c != '\n') && Index(body, fence) == end
    ensures StripFirstCodeFence(Fenced(fence, lang, body)) == Segment(body[..end])
  {
    FirstNewline(lang, body);
    var after := lang + "\n" + body;
    assert after[|lang| + 1..] == body;
    assert InsideFence(after, fence) == Segment(body[..end]);
    FenceLine(fence, after);
  }

  lemma FenceLine(fence: string, after: string)
    requires fence == "```" || fence == "~~~"
    ensures StripFirstCodeFence(fence + after) == InsideFence(after, fence)
  {
    var s := fence + after;
    assert s[0] == fence[0] && s[..3] == fence && s[3..] == after;
    assert TrimBlanks(s) == s;
  }

  lemma TrimSpaces(spaces: string, x: string)
    requires (forall c :: c in spaces ==> IsSpace(c)) && x != "" && !IsSpace(x[0])
    ensures TrimStart(spaces + x) == x
  {
    TrimStartKeeps(spaces, x);
    AllSpaces(spaces);
  }

  lemma {:induction false} AllSpaces(spaces: string)
    requires forall c :: c in spaces ==> IsSpace(c)
    ensures TrimStart(spaces) == ""
  {
    if spaces != "" {
      assert forall c :: c in spaces[1..] ==> c in spaces;
      assert spaces[0] in spaces;
      AllSpaces(spaces[1..]);
    }
  }

  lemma FencedUnwraps(spaces: string, fence: string, lang: string, inner: string, rest: string)
    requires (fence == "```" || fence == "~~~") && (forall c :: c in lang ==> c != '\n')
    requires forall c :: c in spaces ==> IsSpace(c)
    requires forall r :: Index(inner + fence + r, fence) == |inner|
    ensures Unwrapped(spaces + Fenced(fence, lang, inner + fence + rest)) == TrimSpace(inner)
  {
    var body := inner + fence + TrimEnd(rest);
    FencedTrims(spaces, fence, lang, inner, rest);
    StripsFence(fence, lang, body, |inner|);
    assert body[..|inner|] == inner;
    UnwrapsTo(spaces + Fenced(fence, lang, inner + fence + rest), Fenced(fence, lang, body));
  }

  lemma FencedTrims(spaces: string, fence: string, lang: string, inner: string, rest: string)
    requires (fence == "```" || fence == "~~~") && forall c :: c in spaces ==> IsSpace(c)
    ensures TrimBOM(TrimSpace(spaces + Fenced(fence, lang, inner + fence + rest)))
         == Fenced(fence, lang, inner + fence + TrimEnd(rest))
  {
    var head := Fenced(fence, lang, inner + fence);
    HeadTail(fence, lang, inner, rest);
    HeadTail(fence, lang, inner, TrimEnd(rest));
    TrimSpaces(spaces, head + rest);
    TrimEndKeeps(head, rest);
  }

  lemma HeadTail(fence: string, lang: string, inner: string, rest: string)
    requires fence == "```" || fence == "~~~"
    ensures var head := Fenced(fence, lang, inner + fence);
      && head + rest == Fenced(fence, lang, inner + fence + rest)
      && head != "" && !IsSpace(head[0]) && !IsSpace(head[|head| - 1]) && head[0] != '\U{FEFF}'
  {
    var head := Fenced(fence, lang, inner + fence);
    assert head[0] == fence[0] && head[|head| - 1] == fence[2];
  }

  /** No fence in front, or one whose line or block does not end. */
  predicate NoFence(start: string) {
    "```" <= start || "~~~" <= start ==>
      var line := Index(start[3..], "\n");
      line < 0 || Index(start[3..][line + 1..], start[..3]) < 0
  }

  /** Then there is nothing to unwrap. */
  lemma NothingToUnwrap(input: string, t: string, start: string)
    requires t == TrimBOM(TrimSpace(input)) && start == TrimBlanks(t) && NoFence(start)
    ensures Unwrapped(input) == t
  {
    Unfenced(t, start);
    UnwrapsTo(input, t);
  }

  lemma Unfenced(t: string, start: string)
    requires start == TrimBlanks(t) && NoFence(start)
    ensures StripFirstCodeFence(t).Nothing?
  {
    if TILDES <= start {
      assert start[..3] == TILDES;
    } else if BACKTICKS <= start {
      assert start[..3] == BACKTICKS;
    }
  }

  lemma {:induction false} TrimEndCons(c: char, s: string)
    requires TrimEnd(s) != ""
    ensures TrimEnd([c] + s) == [c] + TrimEnd(s)
  {
    var all, front := [c] + s, s[..|s| - 1];
    assert all[|all| - 1] == s[|s| - 1];
    if IsSpace(s[|s| - 1]) {
      TrimEndCons(c, front);
      assert all[..|all| - 1] == [c] + front;
    } else {
      assert TrimEnd(s) == s && TrimEnd(all) == all;
    }
  }

  /** A byte-order mark in front is dropped. */
  lemma MarkIsDropped(s: string)
    requires s != "" && !IsSpace(s[0]) && s[0] != '\U{FEFF}'
    ensures Unwrapped(['\U{FEFF}'] + s) == Unwrapped(s)
  {
    var t := TrimEnd(s);
    TrimEndTwice(s);
    TrimEndCons('\U{FEFF}', s);
    assert (['\U{FEFF}'] + t)[1..] == t;
    assert TrimBOM(TrimSpace(['\U{FEFF}'] + s)) == t && TrimBOM(TrimSpace(s)) == t;
    UnwrapsTo(s, t);
    UnwrapsTo(['\U{FEFF}'] + s, t);
  }

  /** The same value is found inside the first code fence, with or without a language tag. */
  lemma ExtractsFencedValue(spaces: string, fence: string, lang: string, pre: string, v: Json, post: string,
                            rest: string)
    requires Valid(v) && (v.Obj? || v.Arr?) && forall c :: c in spaces ==> IsSpace(c)
    requires Fenceable(fence, lang, pre, Print(v), post)
    ensures FirstSegment(Unwrapped(spaces + Fenced(fence, lang, pre + Print(v) + post + fence + rest)), 0)
      == Segment(Print(v))
  {
    PrintedValueCloses(v, "");
    forall r
      ensures Index(pre + Print(v) + post + fence + r, fence) == |pre + Print(v) + post|
    {
      FenceCloses(fence, pre, Print(v), post, r);
    }
    FencedUnwraps(spaces, fence, lang, pre + Print(v) + post, rest);
    TrimKeeps(pre, Print(v), post);
    TrimStartNoOpener(pre);
    FoundAfterProse(TrimStart(pre), v, TrimEnd(post));
  }

  // ---- the planner's brace scan ----

  /** Opening minus closing braces, wherever they stand. */
  function Depth(s: string): int {
    if s == "" then 0
    else Depth(s[..|s| - 1]) + if s[|s| - 1] == '{' then 1 else if s[|s| - 1] == '}' then -1 else 0
  }

  predicate NoBrace(s: string) {
    forall j :: 0 <= j < |s| ==> s[j] != '{'
  }

  /** `out` runs from the first brace, at `p`, to where the braces first balance. */
  ghost predicate BalancesFirst(s: string, p: nat, out: string) {
    && p < |s| && s[p] == '{' && NoBrace(s[..p])
    && out != "" && out <= s[p..] && Depth(out) == 0
    && forall k :: 1 <= k < |out| ==> Depth(s[p..][..k]) > 0
  }

  ghost predicate NeverBalances(s: string) {
    forall p: nat, out :: !BalancesFirst(s, p, out)
  }

  ghost predicate IsBraceScan(response: string, r: Found) {
    match r
    case Segment(out) => exists p: nat :: BalancesFirst(response, p, out)
    case Nothing => NeverBalances(response)
  }

  method BraceScan(response: string) returns (r: Found)
    ensures IsBraceScan(response, r)
  {
    var start := -1;
    var depth := 0;
    for i := 0 to |response|
      invariant -1 <= start < i
      invariant start == -1 ==> depth == 0 && NoBrace(response[..i])
      invariant start >= 0 ==>
        && response[start] == '{' && NoBrace(response[..start])
        && depth == Depth(response[start..][..i - start])
        && forall k :: 1 <= k <= i - start ==> Depth(response[start..][..k]) > 0
    {
      var ch := response[i];
      if start >= 0 {
        DepthOneMore(response[start..], i - start);
      }
      if ch == '{' {
        if depth == 0 {
          start := i;
          DepthOneMore(response[start..], 0);
        }
        depth := depth + 1;
      } else if ch == '}' {
        if depth > 0 {
          depth := depth - 1;
        }
        if depth == 0 && start != -1 {
          var jsonStr := response[start..i + 1];
          assert jsonStr == response[start..][..i + 1 - start];
          assert BalancesFirst(response, start, jsonStr);
          return Segment(jsonStr);
        }
      }
    }
    NoBalance(response, start);
    return Nothing;
  }

  lemma DepthOneMore(s: string, k: nat)
    requires k < |s|
    ensures Depth(s[..k + 1]) == Depth(s[..k]) + if s[k] == '{' then 1 else if s[k] == '}' then -1 else 0
  {
    assert s[..k + 1][..k] == s[..k];
  }

  lemma NoBalance(s: string, start: int)
    requires -1 <= start < |s|
    requires start == -1 ==> NoBrace(s)
    requires start >= 0 ==>
      s[start] == '{' && NoBrace(s[..start]) && forall k :: 1 <= k <= |s| - start ==> Depth(s[start..][..k]) > 0
    ensures NeverBalances(s)
  {
    forall p: nat, out
      ensures !BalancesFirst(s, p, out)
    {
      if p < |s| && out <= s[p..] {
        assert out == s[p..][..|out|];
      }
    }
  }

  // ---- when the two scans agree ----

  /** Opening minus closing braces that stand inside strings. */
  function Inside(s: string): int {
    if s == "" then 0
    else
      var front, c := s[..|s| - 1], s[|s| - 1];
      Inside(front) + if !Lex(front).inString then 0 else if c == '{' then 1 else if c == '}' then -1 else 0
  }

  /** Counting all braces is counting the brackets outside strings plus the braces inside them. */
  lemma {:induction false} DepthSplits(s: string)
    ensures Depth(s) == Depth(Lex(s).brackets) + Inside(s)
  {
    if s != "" {
      DepthSplits(s[..|s| - 1]);
      DepthPush(Lex(s[..|s| - 1]).brackets, s[|s| - 1]);
    }
  }

  /** The braces inside strings balance, and never outweigh the braces that are still open around them. */
  ghost predicate StringsBalance(text: string) {
    && Inside(text) == 0
    && forall k :: 1 <= k < |text| ==> Depth(Lex(text[..k]).brackets) + Inside(text[..k]) > 0
  }

  lemma DepthPush(s: string, c: char)
    ensures Depth(s + [c]) == Depth(s) + if c == '{' then 1 else if c == '}' then -1 else 0
  {
    assert (s + [c])[..|s|] == s;
  }

  lemma {:induction false} DepthOfStack(b: string)
    requires Reduce(b).Stack?
    ensures Depth(b) == Depth(Reduce(b).open)
  {
    if b != "" {
      var front, c := b[..|b| - 1], b[|b| - 1];
      DepthOfStack(front);
      var open := Reduce(front).open;
      if c == '{' || c == '[' {
        DepthPush(open, c);
      } else {
        assert open == open[..|open| - 1] + [open[|open| - 1]];
        DepthPush(open[..|open| - 1], open[|open| - 1]);
      }
    }
  }

  lemma {:induction false} StackDepth(open: string)
    requires OpenersFrom(open, '{')
    ensures Depth(open) > 0
  {
    if |open| == 1 {
      assert open[..0] == "";
    } else {
      StackDepth(open[..|open| - 1]);
    }
  }

  predicate OpenersFrom(stack: string, first: char) {
    stack != "" && stack[0] == first && forall i :: 0 <= i < |stack| ==> stack[i] == '{' || stack[i] == '['
  }

  lemma {:induction false} BottomStays(st: State, s: string, first: char)
    requires OpenersFrom(st.stack, first)
    ensures Feed(st, s).Running? ==> OpenersFrom(Feed(st, s).state.stack, first)
    decreases s
  {
    if s != "" {
      match StepOn(st, s[0])
      case Continue(next) =>
        assert OpenersFrom(next.stack, first);
        BottomStays(next, s[1..], first);
      case _ =>
    }
  }

  /** On a closing segment the brackets outside strings stay open up to its end. */
  lemma BracketsStayOpen(text: string, k: nat)
    requires text != "" && text[0] == '{' && 1 <= k <= |text|
    requires ScanFrom(text) == Closed(|text| - 1)
    ensures if k == |text| then Depth(Lex(text[..k]).brackets) == 0 else Depth(Lex(text[..k]).brackets) > 0
  {
    var q := text[..k];
    PrefixScan(text, k);
    ScannerTracks(q);
    if k == |text| {
      assert q == text;
      DepthOfStack(Lex(q).brackets);
      assert Depth("") == 0;
    } else {
      assert ScanFrom(q).Running?;
      BottomStays(State(q[..1], false, false), q[1..], '{');
      DepthOfStack(Lex(q).brackets);
      StackDepth(ScanFrom(q).state.stack);
    }
  }

  /** After prose without opening braces, the planner's scan returns a printed object, which is what the
      extraction returns, exactly when the braces inside its strings balance and never outweigh those
      around them. */
  lemma BraceScanAgrees(prose: string, v: Json, tail: string, r: Found)
    requires Valid(v) && v.Obj? && NoBrace(prose)
    requires IsBraceScan(prose + Print(v) + tail, r)
    ensures r == Segment(Print(v)) <==> StringsBalance(Print(v))
  {
    var text, s := Print(v), prose + Print(v) + tail;
    ObjectCloses(v);
    BalancesIffStringsDo(prose, text, tail);
    if r == Segment(text) {
      var p: nat :| BalancesFirst(s, p, text);
      FirstBraceAfterProse(prose, text, tail, p, text);
    } else if BalancesFirst(s, |prose|, text) {
      SameScan(s, r, |prose|, text);
    }
  }

  lemma ObjectCloses(v: Json)
    requires Valid(v) && v.Obj?
    ensures Print(v) != "" && Print(v)[0] == '{' && ScanFrom(Print(v)) == Closed(|Print(v)| - 1)
  {
    PrintedValueCloses(v, "");
    assert Print(v)[1..] + "" == Print(v)[1..];
  }

  lemma SameScan(s: string, r: Found, p: nat, out: string)
    requires IsBraceScan(s, r) && BalancesFirst(s, p, out)
    ensures r == Segment(out)
  {
    if r.Segment? {
      var q: nat :| BalancesFirst(s, q, r.text);
      FirstBalanceUnique(s, q, r.text, p, out);
    }
  }

  lemma FirstBraceAfterProse(prose: string, text: string, tail: string, p: nat, out: string)
    requires text != "" && text[0] == '{' && NoBrace(prose) && BalancesFirst(prose + text + tail, p, out)
    ensures p == |prose|
  {
    var s := prose + text + tail;
    assert s[|prose|] == '{';
    forall j | 0 <= j < |prose|
      ensures s[j] != '{'
    {
      assert s[j] == prose[j];
    }
    forall j | 0 <= j < p
      ensures s[j] != '{'
    {
      assert s[..p][j] == s[j];
    }
  }

  lemma BalancesIffStringsDo(prose: string, text: string, tail: string)
    requires text != "" && text[0] == '{' && NoBrace(prose)
    requires ScanFrom(text) == Closed(|text| - 1)
    ensures BalancesFirst(prose + text + tail, |prose|, text) <==> StringsBalance(text)
  {
    TextAfterProse(prose, text, tail);
    forall k | 1 <= k <= |text|
      ensures Depth(text[..k]) == Depth(Lex(text[..k]).brackets) + Inside(text[..k])
    {
      DepthSplits(text[..k]);
    }
    assert text[..|text|] == text;
    BracketsStayOpen(text, |text|);
  }

  lemma TextAfterProse(prose: string, text: string, tail: string)
    requires text != "" && text[0] == '{' && NoBrace(prose)
    ensures var s := prose + text + tail;
      BalancesFirst(s, |prose|, text)
      <==> Depth(text) == 0 && forall k :: 1 <= k < |text| ==> Depth(text[..k]) > 0
  {
    var s := prose + text + tail;
    assert s[..|prose|] == prose && s[|prose|..] == text + tail && s[|prose|] == '{';
    forall k | 1 <= k <= |text|
      ensures s[|prose|..][..k] == text[..k]
    {
    }
  }

  lemma FirstBalanceUnique(s: string, p: nat, a: string, q: nat, b: string)
    requires BalancesFirst(s, p, a) && BalancesFirst(s, q, b)
    ensures p == q && a == b
  {
    assert p == q;
    assert a == s[p..][..|a|] && b == s[p..][..|b|];
  }

  /** The object `{"a":"}"}`, on which the planner's scan stops inside the string. */
  function BraceInString(): Json {
    Obj(Cons(Member("", [Plain('a')], "", Element("", Str([Plain('}')]), "")), Nil), "")
  }

  lemma BraceScanStopsEarly()
    ensures Valid(BraceInString()) && Print(BraceInString()) == "{\"a\":\"}\"}"
    ensures BalancesFirst(Print(BraceInString()), 0, "{\"a\":\"}")
  {
    var text := "{\"a\":\"}\"}";
    var out := "{\"a\":\"}";
    assert PrintString([Plain('a')]) == "\"a\"" && PrintString([Plain('}')]) == "\"}\"";
    assert Print(BraceInString()) == text;
    assert text[..7] == out;
    DepthOneMore(text, 0);
    DepthOneMore(text, 1);
    DepthOneMore(text, 2);
    DepthOneMore(text, 3);
    DepthOneMore(text, 4);
    DepthOneMore(text, 5);
    DepthOneMore(text, 6);
    assert text[..0] == "" && text[0..] == text;
  }
}
