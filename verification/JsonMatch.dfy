/** What it means for the brackets of a text to match, stated without a stack, and that the scanner
    finds the shortest matched segment. */
module JsonMatch {
  import opened JsonText
  import opened JsonScan

  // ---- matched bracket words ----

  /** Properly nested brackets: a sequence of bracketed groups. */
  datatype Forest = Leaf | Node(brace: bool, inner: Forest, rest: Forest)

  function Opener(brace: bool): char {
    if brace then '{' else '['
  }

  function Closer(brace: bool): char {
    if brace then '}' else ']'
  }

  function Show(f: Forest): string {
    match f
    case Leaf => ""
    case Node(brace, inner, rest) => [Opener(brace)] + Show(inner) + [Closer(brace)] + Show(rest)
  }

  ghost predicate Nested(b: string) {
    exists f :: Show(f) == b
  }

  /** The brackets of a text that lie outside its strings, and whether the text ends inside one. */
  datatype Lexed = Lexed(brackets: string, inString: bool, escape: bool)

  function Lex(s: string): Lexed {
    if s == [] then Lexed("", false, false)
    else
      var l, c := Lex(s[..|s| - 1]), s[|s| - 1];
      if l.inString then
        if l.escape then l.(escape := false)
        else if c == BACKSLASH then l.(escape := true)
        else l.(inString := c != QUOTE)
      else if c == QUOTE then l.(inString := true)
      else if c in "{}[]" then l.(brackets := l.brackets + [c])
      else l
  }

  /** The brackets outside strings match and no string is left open. */
  ghost predicate Matched(s: string) {
    Nested(Lex(s).brackets) && !Lex(s).inString
  }

  // ---- a stack decides nesting ----

  datatype Reduced = Stack(open: string) | Stuck

  function Push(r: Reduced, c: char): Reduced {
    if r.Stuck? then Stuck
    else if c == '{' || c == '[' then Stack(r.open + [c])
    else if PopMatches(r.open, c) then Stack(r.open[..|r.open| - 1])
    else Stuck
  }

  function Reduce(b: string): Reduced {
    if b == [] then Stack("") else Push(Reduce(b[..|b| - 1]), b[|b| - 1])
  }

  lemma {:induction false} StuckStays(a: string, b: string)
    requires Reduce(a).Stuck?
    ensures Reduce(a + b).Stuck?
  {
    if b == [] {
      assert a + b == a;
    } else {
      StuckStays(a, b[..|b| - 1]);
      assert (a + b)[..|a + b| - 1] == a + b[..|b| - 1];
    }
  }

  /** Appending a nested word leaves the stack as it was. */
  lemma {:induction false} ForestKeepsStack(b: string, f: Forest)
    requires Reduce(b).Stack?
    ensures Reduce(b + Show(f)) == Reduce(b)
    decreases f
  {
    match f
    case Leaf =>
      assert b + Show(f) == b;
    case Node(brace, inner, rest) =>
      var open, close := Opener(brace), Closer(brace);
      ForestKeepsStack(b + [open], inner);
      BracketKeepsStack(b, open, Show(inner), close);
      ForestKeepsStack(b + [open] + Show(inner) + [close], rest);
      ShowNode(b, brace, inner, rest);
  }

  lemma ShowNode(b: string, brace: bool, inner: Forest, rest: Forest)
    ensures b + Show(Node(brace, inner, rest)) == b + [Opener(brace)] + Show(inner) + [Closer(brace)] + Show(rest)
  {
  }

  lemma BracketKeepsStack(b: string, open: char, w: string, close: char)
    requires Reduce(b).Stack? && PopMatches([open], close)
    requires Reduce(b + [open] + w) == Reduce(b + [open])
    ensures Reduce(b + [open] + w + [close]) == Reduce(b)
  {
    assert (Reduce(b).open + [open])[..|Reduce(b).open|] == Reduce(b).open;
  }

  function Append(f: Forest, g: Forest): Forest {
    match f
    case Leaf => g
    case Node(brace, inner, rest) => Node(brace, inner, Append(rest, g))
  }

  lemma {:induction false} ShowAppend(f: Forest, g: Forest)
    ensures Show(Append(f, g)) == Show(f) + Show(g)
  {
    match f
    case Leaf =>
    case Node(brace, inner, rest) => ShowAppend(rest, g);
  }

  lemma NestedConcat(a: string, b: string)
    requires Nested(a) && Nested(b)
    ensures Nested(a + b)
  {
    var f :| Show(f) == a;
    var g :| Show(g) == b;
    ShowAppend(f, g);
  }

  lemma NestedBracket(b: string, open: char, close: char)
    requires Nested(b) && PopMatches([open], close)
    ensures Nested([open] + b + [close])
  {
    var f :| Show(f) == b;
    var g := Node(open == '{', f, Leaf);
    assert Show(g) == [open] + b + [close] + [];
    assert Show(g) == [open] + b + [close];
  }

  /** A word that leaves `open` on the stack: each open bracket is followed by a nested word. */
  ghost predicate Unclosed(open: string, b: string)
    decreases |open|
  {
    if open == [] then Nested(b)
    else
      var top, below := open[|open| - 1], open[..|open| - 1];
      exists i :: 0 <= i < |b| && b[i] == top && Unclosed(below, b[..i]) && Nested(b[i + 1..])
  }

  lemma UnclosedAppend(open: string, b: string, x: string)
    requires Unclosed(open, b) && Nested(x)
    ensures Unclosed(open, b + x)
  {
    if open == [] {
      NestedConcat(b, x);
    } else {
      var top, below := open[|open| - 1], open[..|open| - 1];
      var i :| 0 <= i < |b| && b[i] == top && Unclosed(below, b[..i]) && Nested(b[i + 1..]);
      NestedConcat(b[i + 1..], x);
      SliceConcat(b, x, i);
    }
  }

  lemma SliceConcat(b: string, x: string, i: nat)
    requires i < |b|
    ensures (b + x)[..i] == b[..i] && (b + x)[i] == b[i] && (b + x)[i + 1..] == b[i + 1..] + x
  {
  }

  lemma UnclosedOpen(open: string, b: string, c: char)
    requires Unclosed(open, b)
    ensures Unclosed(open + [c], b + [c])
  {
    var w := b + [c];
    assert (open + [c])[..|open|] == open;
    assert w[..|b|] == b && w[|b| + 1..] == "" && w[|b|] == c;
    assert Show(Leaf) == "";
  }

  lemma UnclosedClose(open: string, b: string, c: char)
    requires Unclosed(open, b) && PopMatches(open, c)
    ensures Unclosed(open[..|open| - 1], b + [c])
  {
    var top, below := open[|open| - 1], open[..|open| - 1];
    var i :| 0 <= i < |b| && b[i] == top && Unclosed(below, b[..i]) && Nested(b[i + 1..]);
    NestedBracket(b[i + 1..], top, c);
    var group := [top] + b[i + 1..] + [c];
    UnclosedAppend(below, b[..i], group);
    SplitAt(b, i, c);
  }

  lemma SplitAt(b: string, i: nat, c: char)
    requires i < |b|
    ensures b + [c] == b[..i] + ([b[i]] + b[i + 1..] + [c])
  {
  }

  lemma {:induction false} StackIsUnclosed(b: string)
    requires Reduce(b).Stack?
    ensures Unclosed(Reduce(b).open, b)
  {
    if b == [] {
      assert Show(Leaf) == "";
    } else {
      var front, c := b[..|b| - 1], b[|b| - 1];
      StackIsUnclosed(front);
      assert b == front + [c];
      if c == '{' || c == '[' {
        UnclosedOpen(Reduce(front).open, front, c);
      } else {
        UnclosedClose(Reduce(front).open, front, c);
      }
    }
  }

  lemma NestedIffReduces(b: string)
    ensures Nested(b) <==> Reduce(b) == Stack("")
  {
    if Nested(b) {
      var f :| Show(f) == b;
      ForestKeepsStack("", f);
      assert "" + b == b;
    }
    if Reduce(b) == Stack("") {
      StackIsUnclosed(b);
    }
  }

  // ---- the scanner and the matched prefixes ----

  /** Scanning `p` from its opener. */
  function ScanFrom(p: string): Scan
    requires p != []
  {
    Feed(State(p[..1], false, false), p[1..])
  }

  /** The scanner's verdict on a prefix agrees with what the prefix's brackets reduce to. */
  ghost predicate Tracks(p: string)
    requires p != []
  {
    var l := Lex(p);
    match ScanFrom(p)
    case Running(st) => st.stack != [] && Reduce(l.brackets) == Stack(st.stack) && st.inString == l.inString
      && st.escape == l.escape
    case Closed(n) => n + 1 == |p| ==> Reduce(l.brackets) == Stack("") && !l.inString
    case Broken => Reduce(l.brackets).Stuck?
  }

  lemma {:induction false} ScannerTracks(p: string)
    requires p != [] && p[0] in "{["
    ensures Tracks(p)
    ensures ScanFrom(p).Closed? ==> ScanFrom(p).n < |p|
  {
    if |p| == 1 {
      assert p[..0] == "" && p[..1] == p && p == [p[0]];
      assert Lex(p).brackets == "" + p;
      assert "" + p == p;
    } else {
      var front, c := p[..|p| - 1], p[|p| - 1];
      ScannerTracks(front);
      TrackStep(front, c);
      assert front + [c] == p;
    }
  }

  lemma ScanOneMore(p: string, c: char)
    requires p != []
    ensures ScanFrom(p + [c]) == match ScanFrom(p)
                                 case Running(st) => Later(Feed(st, [c]), |p| - 1)
                                 case other => other
  {
    assert (p + [c])[..1] == p[..1] && (p + [c])[1..] == p[1..] + [c];
    FeedConcat(State(p[..1], false, false), p[1..], [c]);
  }

  lemma LexOneMore(p: string, c: char)
    ensures var l := Lex(p);
      Lex(p + [c]) ==
        if l.inString then
          if l.escape then l.(escape := false)
          else if c == BACKSLASH then l.(escape := true)
          else l.(inString := c != QUOTE)
        else if c == QUOTE then l.(inString := true)
        else if c in "{}[]" then l.(brackets := l.brackets + [c])
        else l
  {
    assert (p + [c])[..|p|] == p;
  }

  lemma TrackStep(p: string, c: char)
    requires p != [] && Tracks(p) && (ScanFrom(p).Closed? ==> ScanFrom(p).n < |p|)
    ensures Tracks(p + [c])
    ensures ScanFrom(p + [c]).Closed? ==> ScanFrom(p + [c]).n < |p + [c]|
  {
    ScanOneMore(p, c);
    if ScanFrom(p).Running? {
      if ScanFrom(p).state.inString {
        TrackInString(p, c);
      } else {
        TrackOutside(p, c);
      }
    } else {
      LexOneMore(p, c);
    }
  }

  /** Inside a string no bracket counts. */
  lemma TrackInString(p: string, c: char)
    requires p != [] && Tracks(p) && ScanFrom(p).Running? && ScanFrom(p).state.inString
    ensures Tracks(p + [c]) && ScanFrom(p + [c]).Running?
  {
    ScanOneMore(p, c);
    LexOneMore(p, c);
  }

  /** Outside strings a bracket is pushed, or popped if it matches. */
  lemma TrackOutside(p: string, c: char)
    requires p != [] && Tracks(p) && ScanFrom(p).Running? && !ScanFrom(p).state.inString
    ensures Tracks(p + [c])
    ensures ScanFrom(p + [c]).Closed? ==> ScanFrom(p + [c]).n == |p|
  {
    ScanOneMore(p, c);
    LexOneMore(p, c);
    if c in "{}[]" {
      assert (Lex(p).brackets + [c])[..|Lex(p).brackets|] == Lex(p).brackets;
    }
  }

  lemma PrefixScan(p: string, k: nat)
    requires p != [] && 1 <= k <= |p|
    ensures ScanFrom(p) == match ScanFrom(p[..k])
                           case Running(st) => Later(Feed(st, p[k..]), k - 1)
                           case other => other
  {
    assert p[..k][..1] == p[..1] && p[1..] == p[..k][1..] + p[k..];
    FeedConcat(State(p[..1], false, false), p[..k][1..], p[k..]);
  }

  /** The scanner succeeds exactly when some prefix is matched, and then stops at the end of the
      shortest one. */
  lemma ScanFindsShortest(p: string)
    requires p != [] && p[0] in "{["
    ensures ScanFrom(p).Closed? <==> exists k :: 1 <= k <= |p| && Matched(p[..k])
    ensures ScanFrom(p).Closed? ==>
      && ScanFrom(p).n + 1 <= |p| && Matched(p[..ScanFrom(p).n + 1])
      && forall k :: 1 <= k <= ScanFrom(p).n ==> !Matched(p[..k])
  {
    ScannerTracks(p);
    forall k | 1 <= k <= |p|
      ensures ScanFrom(p).Closed? && k == ScanFrom(p).n + 1 ==> Matched(p[..k])
      ensures !ScanFrom(p).Closed? || k <= ScanFrom(p).n ==> !Matched(p[..k])
    {
      PrefixVerdict(p, k);
    }
    FeedBound(State(p[..1], false, false), p[1..]);
    if ScanFrom(p).Closed? {
      var k := ScanFrom(p).n + 1;
      assert 1 <= k <= |p| && Matched(p[..k]);
    }
  }

  lemma PrefixVerdict(p: string, k: nat)
    requires p != [] && p[0] in "{[" && 1 <= k <= |p|
    requires ScanFrom(p).Closed? ==> ScanFrom(p).n < |p|
    ensures ScanFrom(p).Closed? && k == ScanFrom(p).n + 1 ==> Matched(p[..k])
    ensures !ScanFrom(p).Closed? || k <= ScanFrom(p).n ==> !Matched(p[..k])
  {
    var q := p[..k];
    PrefixScan(p, k);
    ScannerTracks(q);
    NestedIffReduces(Lex(q).brackets);
    if ScanFrom(q).Running? {
      FeedBound(ScanFrom(q).state, p[k..]);
    }
  }

  lemma {:induction false} FeedBound(st: State, s: string)
    ensures Feed(st, s).Closed? ==> 1 <= Feed(st, s).n <= |s|
    decreases s
  {
    if s != [] {
      match StepOn(st, s[0])
      case Continue(next) => FeedBound(next, s[1..]);
      case _ =>
    }
  }
}
