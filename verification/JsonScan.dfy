/** The balanced-segment scanner as a state machine, and what it finds. */
module JsonScan {
  import opened JsonText

  /** The scanner's variables between two characters. */
  datatype State = State(stack: string, inString: bool, escape: bool)

  datatype Step = Continue(next: State) | Close | Mismatch

  function StepOn(st: State, c: char): Step {
    if st.inString then
      if st.escape then Continue(st.(escape := false))
      else if c == BACKSLASH then Continue(st.(escape := true))
      else if c == QUOTE then Continue(st.(inString := false))
      else Continue(st)
    else if c == QUOTE then Continue(st.(inString := true))
    else if c == '{' || c == '[' then Continue(st.(stack := st.stack + [c]))
    else if c == '}' || c == ']' then
      if !PopMatches(st.stack, c) then Mismatch
      else if |st.stack| == 1 then Close
      else Continue(st.(stack := st.stack[..|st.stack| - 1]))
    else Continue(st)
  }

  predicate PopMatches(stack: string, c: char) {
    stack != [] && ((stack[|stack| - 1] == '{' && c == '}') || (stack[|stack| - 1] == '[' && c == ']'))
  }

  /** What a text does to the scanner: it runs on, closes the first opener after `n` characters, or breaks. */
  datatype Scan = Running(state: State) | Closed(n: nat) | Broken

  function Later(r: Scan, k: nat): Scan {
    if r.Closed? then Closed(r.n + k) else r
  }

  function Feed(st: State, s: string): Scan
    decreases s
  {
    if s == [] then Running(st)
    else match StepOn(st, s[0])
      case Continue(next) => Later(Feed(next, s[1..]), 1)
      case Close => Closed(1)
      case Mismatch => Broken
  }

  lemma {:induction false} FeedConcat(st: State, a: string, b: string)
    ensures Feed(st, a + b) == match Feed(st, a)
                               case Running(st') => Later(Feed(st', b), |a|)
                               case other => other
    decreases a
  {
    if a == [] {
      assert a + b == b;
    } else {
      assert (a + b)[1..] == a[1..] + b;
      match StepOn(st, a[0])
      case Continue(next) => FeedConcat(next, a[1..], b);
      case _ =>
    }
  }

  // ---- texts that leave the scanner where it was ----

  ghost predicate Neutral(s: string) {
    forall stack: string :: stack != [] ==> Feed(State(stack, false, false), s) == Running(State(stack, false, false))
  }

  lemma NeutralConcat(a: string, b: string)
    requires Neutral(a) && Neutral(b)
    ensures Neutral(a + b)
  {
    forall stack: string | stack != []
      ensures Feed(State(stack, false, false), a + b) == Running(State(stack, false, false))
    {
      FeedConcat(State(stack, false, false), a, b);
    }
  }

  predicate Special(c: char) {
    c == QUOTE || c == '{' || c == '}' || c == '[' || c == ']'
  }

  lemma {:induction false} PlainIsNeutral(s: string)
    requires forall c :: c in s ==> !Special(c)
    ensures Neutral(s)
  {
    if s != [] {
      PlainIsNeutral(s[1..]);
      assert !Special(s[0]);
    }
  }

  lemma {:induction false} FeedInString(stack: string, s: string)
    requires forall c :: c in s ==> c != QUOTE && c != BACKSLASH
    ensures Feed(State(stack, true, false), s) == Running(State(stack, true, false))
  {
    if s != [] {
      assert s[0] in s && forall c :: c in s[1..] ==> c in s;
      FeedInString(stack, s[1..]);
    }
  }

  /** A backslash hides the next character from the scanner. */
  lemma FeedEscape(stack: string, c: char, rest: string)
    requires forall h :: h in rest ==> h != QUOTE && h != BACKSLASH
    ensures Feed(State(stack, true, false), [BACKSLASH, c] + rest) == Running(State(stack, true, false))
  {
    var s := [BACKSLASH, c] + rest;
    assert s[1..] == [c] + rest && ([c] + rest)[1..] == rest;
    FeedInString(stack, rest);
    assert Feed(State(stack, true, true), [c] + rest) == Running(State(stack, true, false));
  }

  lemma FeedChar(stack: string, c: StrChar)
    requires ValidChar(c)
    ensures Feed(State(stack, true, false), PrintChar(c)) == Running(State(stack, true, false))
  {
    match c
    case Plain(p) => FeedInString(stack, [p]);
    case Escaped(e) =>
      FeedEscape(stack, e, "");
      assert [BACKSLASH, e] + "" == PrintChar(c);
    case Unicode(hex) => FeedEscape(stack, 'u', hex);
  }

  lemma {:induction false} FeedChars(stack: string, s: seq<StrChar>)
    requires ValidString(s)
    ensures Feed(State(stack, true, false), PrintChars(s)) == Running(State(stack, true, false))
  {
    if s != [] {
      assert s[0] in s;
      FeedChar(stack, s[0]);
      FeedChars(stack, s[1..]);
      FeedConcat(State(stack, true, false), PrintChar(s[0]), PrintChars(s[1..]));
    }
  }

  lemma StringIsNeutral(s: seq<StrChar>)
    requires ValidString(s)
    ensures Neutral(PrintString(s))
  {
    forall stack: string | stack != []
      ensures Feed(State(stack, false, false), PrintString(s)) == Running(State(stack, false, false))
    {
      FeedChars(stack, s);
      FeedConcat(State(stack, true, false), PrintChars(s), [QUOTE]);
      assert Feed(State(stack, true, false), [QUOTE]) == Running(State(stack, false, false));
      assert PrintString(s)[1..] == PrintChars(s) + [QUOTE];
    }
  }

  lemma FeedClose(stack: string, open: char, body: string, close: char)
    requires Neutral(body) && PopMatches([open], close)
    ensures Feed(State(stack + [open], false, false), body + [close])
         == if stack == [] then Closed(|body| + 1) else Running(State(stack, false, false))
  {
    NeutralThen(stack + [open], body, [close]);
    StepClose(stack, open, close);
    FeedOne(State(stack + [open], false, false), close);
  }

  lemma StepClose(stack: string, open: char, close: char)
    requires PopMatches([open], close)
    ensures StepOn(State(stack + [open], false, false), close)
         == if stack == [] then Close else Continue(State(stack, false, false))
  {
    assert (stack + [open])[..|stack|] == stack;
  }

  lemma NeutralThen(stack: string, body: string, rest: string)
    requires Neutral(body) && stack != []
    ensures Feed(State(stack, false, false), body + rest) == Later(Feed(State(stack, false, false), rest), |body|)
  {
    FeedConcat(State(stack, false, false), body, rest);
  }

  lemma FeedOne(st: State, c: char)
    ensures Feed(st, [c]) == match StepOn(st, c)
                             case Continue(next) => Running(next)
                             case Close => Closed(1)
                             case Mismatch => Broken
  {
    assert [c][1..] == [];
  }

  /** A bracketed neutral text, seen from inside some other brackets and on its own. */
  lemma BracketedText(open: char, body: string, close: char)
    requires Neutral(body) && PopMatches([open], close)
    ensures Neutral([open] + body + [close])
    ensures Feed(State([open], false, false), body + [close]) == Closed(|body| + 1)
  {
    FeedClose([], open, body, close);
    assert [] + [open] == [open];
    forall stack: string | stack != []
      ensures Feed(State(stack, false, false), [open] + body + [close]) == Running(State(stack, false, false))
    {
      BracketedInside(stack, open, body, close);
    }
  }

  lemma BracketedInside(stack: string, open: char, body: string, close: char)
    requires Neutral(body) && PopMatches([open], close) && stack != []
    ensures Feed(State(stack, false, false), [open] + body + [close]) == Running(State(stack, false, false))
  {
    FeedClose(stack, open, body, close);
    FeedOpen(stack, open, body + [close]);
    assert [open] + (body + [close]) == [open] + body + [close];
  }

  lemma FeedOpen(stack: string, open: char, rest: string)
    requires open == '{' || open == '['
    ensures Feed(State(stack, false, false), [open] + rest) == Later(Feed(State(stack + [open], false, false), rest), 1)
  {
    assert ([open] + rest)[1..] == rest;
  }

  lemma BlankIsNeutral(s: string)
    requires IsBlank(s)
    ensures Neutral(s)
  {
    PlainIsNeutral(s);
  }

  lemma WordsAreNeutral()
    ensures Neutral("null") && Neutral("true") && Neutral("false")
  {
    PlainIsNeutral("null");
    PlainIsNeutral("true");
    PlainIsNeutral("false");
  }

  lemma {:induction false} ValueIsNeutral(v: Json)
    requires Valid(v)
    ensures Neutral(Print(v))
    decreases v
  {
    match v
    case Null => WordsAreNeutral();
    case True => WordsAreNeutral();
    case False => WordsAreNeutral();
    case Number(number) => PlainIsNeutral(number);
    case Str(chars) => StringIsNeutral(chars);
    case Arr(items, blank) =>
      ItemsAreNeutral(items, blank);
      BracketedText('[', PrintItems(items, blank), ']');
    case Obj(members, blank) =>
      MembersAreNeutral(members, blank);
      BracketedText('{', PrintMembers(members, blank), '}');
  }

  lemma {:induction false} ElementIsNeutral(e: Element)
    requires ValidElement(e)
    ensures Neutral(PrintElement(e))
    decreases e
  {
    BlankIsNeutral(e.before);
    ValueIsNeutral(e.value);
    BlankIsNeutral(e.after);
    NeutralConcat(e.before, Print(e.value));
    NeutralConcat(e.before + Print(e.value), e.after);
  }

  lemma {:induction false} ItemsAreNeutral(items: List<Element>, blank: string)
    requires ValidItems(items) && IsBlank(blank)
    ensures Neutral(PrintItems(items, blank))
    decreases items
  {
    match items
    case Nil => BlankIsNeutral(blank);
    case Cons(e, Nil) => ElementIsNeutral(e);
    case Cons(e, rest) =>
      ElementIsNeutral(e);
      PlainIsNeutral(",");
      ItemsAreNeutral(rest, blank);
      NeutralConcat(PrintElement(e), ",");
      NeutralConcat(PrintElement(e) + ",", PrintItems(rest, blank));
  }

  lemma {:induction false} MemberIsNeutral(m: Member)
    requires IsBlank(m.before) && ValidString(m.key) && IsBlank(m.between) && ValidElement(m.element)
    ensures Neutral(PrintMember(m))
    decreases m
  {
    BlankIsNeutral(m.before);
    StringIsNeutral(m.key);
    BlankIsNeutral(m.between);
    PlainIsNeutral(":");
    ElementIsNeutral(m.element);
    NeutralConcat(m.before, PrintString(m.key));
    NeutralConcat(m.before + PrintString(m.key), m.between);
    NeutralConcat(m.before + PrintString(m.key) + m.between, ":");
    NeutralConcat(m.before + PrintString(m.key) + m.between + ":", PrintElement(m.element));
  }

  lemma {:induction false} MembersAreNeutral(members: List<Member>, blank: string)
    requires ValidMembers(members) && IsBlank(blank)
    ensures Neutral(PrintMembers(members, blank))
    decreases members
  {
    match members
    case Nil => BlankIsNeutral(blank);
    case Cons(m, Nil) => MemberIsNeutral(m);
    case Cons(m, rest) =>
      MemberIsNeutral(m);
      PlainIsNeutral(",");
      MembersAreNeutral(rest, blank);
      NeutralConcat(PrintMember(m), ",");
      NeutralConcat(PrintMember(m) + ",", PrintMembers(rest, blank));
  }

  /** The scanner started after the opener of a printed object or array closes exactly at its end,
      whatever follows. */
  lemma PrintedValueCloses(v: Json, tail: string)
    requires Valid(v) && (v.Obj? || v.Arr?)
    ensures var text := Print(v);
      |text| >= 2 && text[0] in "{[" && text[|text| - 1] in "}]"
      && Feed(State(text[..1], false, false), text[1..] + tail) == Closed(|text| - 1)
  {
    if v.Arr? {
      var body := PrintItems(v.items, v.blank);
      ItemsAreNeutral(v.items, v.blank);
      BodyCloses('[', body, ']', tail);
    } else {
      var body := PrintMembers(v.members, v.blank);
      MembersAreNeutral(v.members, v.blank);
      BodyCloses('{', body, '}', tail);
    }
  }

  lemma BodyCloses(open: char, body: string, close: char, tail: string)
    requires Neutral(body) && PopMatches([open], close)
    ensures var text := [open] + body + [close];
      text[..1] == [open] && Feed(State([open], false, false), text[1..] + tail) == Closed(|text| - 1)
  {
    BracketedText(open, body, close);
    FeedConcat(State([open], false, false), body + [close], tail);
    assert ([open] + body + [close])[1..] == body + [close];
  }
}
