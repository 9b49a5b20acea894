/** On which values the planner's brace scan is right, told from the value and not from its text. */
module BraceBalance {
  import opened JsonExtract
  import opened JsonText

  // ---- how far a text or a value goes down ----

  /** Opening minus closing braces of a text, and the least that count gets to along it. */
  datatype Profile = Profile(sum: int, low: int)

  const FLAT := Profile(0, 0)
  const UP := Profile(1, 0)
  const DOWN := Profile(-1, -1)

  function Min(a: int, b: int): int {
    if a <= b then a else b
  }

  function Then(a: Profile, b: Profile): Profile {
    Profile(a.sum + b.sum, Min(a.low, a.sum + b.low))
  }

  function CharProfile(c: StrChar): Profile {
    if c == Plain('{') then UP else if c == Plain('}') then DOWN else FLAT
  }

  function StringProfile(s: seq<StrChar>): Profile {
    if s == [] then FLAT else Then(CharProfile(s[0]), StringProfile(s[1..]))
  }

  function ValueProfile(v: Json): Profile {
    match v
    case Str(chars) => StringProfile(chars)
    case Arr(items, _) => ItemsProfile(items)
    case Obj(members, _) => Then(UP, Then(MembersProfile(members), DOWN))
    case _ => FLAT
  }

  function ItemsProfile(items: List<Element>): Profile {
    match items
    case Nil => FLAT
    case Cons(e, rest) => Then(ValueProfile(e.value), ItemsProfile(rest))
  }

  function MembersProfile(members: List<Member>): Profile {
    match members
    case Nil => FLAT
    case Cons(m, rest) => Then(Then(StringProfile(m.key), ValueProfile(m.element.value)), MembersProfile(rest))
  }

  /** The braces in the strings of an object balance, and reading along it they never outweigh the objects
      that are open. */
  predicate Fits(v: Json)
    requires v.Obj?
  {
    MembersProfile(v.members).sum == 0 && MembersProfile(v.members).low >= 0
  }

  // ---- the profile of a text ----

  function Low(s: string): int {
    if s == "" then 0 else Min(Low(s[..|s| - 1]), Depth(s))
  }

  function TextProfile(s: string): Profile {
    Profile(Depth(s), Low(s))
  }

  lemma {:induction false} TextThen(a: string, b: string)
    ensures TextProfile(a + b) == Then(TextProfile(a), TextProfile(b))
  {
    if b == "" {
      assert a + b == a;
      LowIsLeast(a, |a|);
    } else {
      var n := |b| - 1;
      assert (a + b)[..|a + b| - 1] == a + b[..n];
      TextThen(a, b[..n]);
    }
  }

  lemma {:induction false} LowIsLeast(s: string, k: nat)
    requires k <= |s|
    ensures Low(s) <= Depth(s[..k])
  {
    if k == |s| {
      assert s[..k] == s;
    } else {
      LowIsLeast(s[..|s| - 1], k);
      assert s[..|s| - 1][..k] == s[..k];
    }
  }

  lemma {:induction false} LowIsReached(s: string) returns (k: nat)
    ensures k <= |s| && Low(s) == Depth(s[..k])
  {
    k := |s|;
    assert s[..k] == s;
    if Low(s) != Depth(s) {
      k := LowIsReached(s[..|s| - 1]);
      assert s[..|s| - 1][..k] == s[..k];
    }
  }

  /** A text without braces goes neither up nor down. */
  lemma {:induction false} NoBraceIsFlat(s: string)
    requires forall c :: c in s ==> c != '{' && c != '}'
    ensures TextProfile(s) == FLAT
  {
    if s != "" {
      var front := s[..|s| - 1];
      assert s[|s| - 1] in s && forall c :: c in front ==> c in s;
      NoBraceIsFlat(front);
    }
  }

  lemma BlankIsFlat(s: string)
    requires IsBlank(s)
    ensures TextProfile(s) == FLAT
  {
    NoBraceIsFlat(s);
  }

  lemma OneChar(c: char)
    ensures TextProfile([c]) == if c == '{' then UP else if c == '}' then DOWN else FLAT
  {
    var s := [c];
    assert s[..|s| - 1] == "" && s[|s| - 1] == c;
    assert Depth(s) == (if c == '{' then 1 else if c == '}' then -1 else 0);
    assert Low(s) == Min(0, Depth(s));
  }

  // ---- a printed value has the profile of the value ----

  lemma PrintedChar(c: StrChar)
    requires ValidChar(c)
    ensures TextProfile(PrintChar(c)) == CharProfile(c)
  {
    match c
    case Plain(d) => OneChar(d);
    case Escaped(d) => NoBraceIsFlat([BACKSLASH, d]);
    case Unicode(hex) => PrintedHex(hex);
  }

  lemma PrintedHex(hex: string)
    requires forall h :: h in hex ==> h in "0123456789abcdefABCDEF"
    ensures TextProfile([BACKSLASH, 'u'] + hex) == FLAT
  {
    NoBraceIsFlat(hex);
    NoBraceIsFlat([BACKSLASH, 'u']);
    TextThen([BACKSLASH, 'u'], hex);
  }

  lemma {:induction false} PrintedChars(s: seq<StrChar>)
    requires ValidString(s)
    ensures TextProfile(PrintChars(s)) == StringProfile(s)
  {
    if s != [] {
      PrintedChar(s[0]);
      PrintedChars(s[1..]);
      TextThen(PrintChar(s[0]), PrintChars(s[1..]));
    }
  }

  lemma LowIsNotPositive(s: string)
    ensures Low(s) <= 0 && Low(s) <= Depth(s)
  {
    LowIsLeast(s, 0);
    LowIsLeast(s, |s|);
    assert s[..0] == "" && s[..|s|] == s;
  }

  /** Text around a text, without braces, makes no difference. */
  lemma Surrounded(before: string, s: string, after: string)
    requires TextProfile(before) == FLAT && TextProfile(after) == FLAT
    ensures TextProfile(before + s + after) == TextProfile(s)
  {
    LowIsNotPositive(s);
    TextThen(before, s);
    TextThen(before + s, after);
  }

  lemma PrintedString(s: seq<StrChar>)
    requires ValidString(s)
    ensures TextProfile(PrintString(s)) == StringProfile(s)
  {
    PrintedChars(s);
    NoBraceIsFlat([QUOTE]);
    Surrounded([QUOTE], PrintChars(s), [QUOTE]);
  }

  lemma Braced(open: string, inner: string, close: string)
    requires TextProfile(open) == UP && TextProfile(close) == DOWN
    ensures TextProfile(open + inner + close) == Then(UP, Then(TextProfile(inner), DOWN))
  {
    TextThen(open, inner);
    TextThen(open + inner, close);
    ThenAssociative(UP, TextProfile(inner), DOWN);
  }

  lemma ThenAssociative(a: Profile, b: Profile, c: Profile)
    ensures Then(Then(a, b), c) == Then(a, Then(b, c))
  {
  }

  lemma {:induction false} PrintedValue(v: Json)
    requires Valid(v)
    ensures TextProfile(Print(v)) == ValueProfile(v)
  {
    match v
    case Str(chars) => PrintedString(chars);
    case Arr(items, blank) =>
      PrintedItems(items, blank);
      OneChar('[');
      OneChar(']');
      Surrounded("[", PrintItems(items, blank), "]");
    case Obj(members, blank) =>
      PrintedMembers(members, blank);
      OneChar('{');
      OneChar('}');
      Braced("{", PrintMembers(members, blank), "}");
    case Number(number) => NoBraceIsFlat(number);
    case _ => NoBraceIsFlat(Print(v));
  }

  lemma {:induction false} PrintedElement(e: Element)
    requires ValidElement(e)
    ensures TextProfile(PrintElement(e)) == ValueProfile(e.value)
  {
    PrintedValue(e.value);
    BlankIsFlat(e.before);
    BlankIsFlat(e.after);
    Surrounded(e.before, Print(e.value), e.after);
  }

  lemma {:induction false} PrintedItems(items: List<Element>, blank: string)
    requires ValidItems(items) && IsBlank(blank)
    ensures TextProfile(PrintItems(items, blank)) == ItemsProfile(items)
  {
    match items
    case Nil => BlankIsFlat(blank);
    case Cons(e, rest) =>
      PrintedElement(e);
      LowIsNotPositive(PrintElement(e));
      if rest.Cons? {
        PrintedItems(rest, blank);
        OneChar(',');
        Joined(PrintElement(e), ",", PrintItems(rest, blank));
      }
  }

  lemma Joined(a: string, comma: string, b: string)
    requires TextProfile(comma) == FLAT
    ensures TextProfile(a + comma + b) == Then(TextProfile(a), TextProfile(b))
  {
    LowIsNotPositive(a);
    TextThen(a, comma);
    TextThen(a + comma, b);
  }

  lemma {:induction false} PrintedMember(m: Member)
    requires IsBlank(m.before) && ValidString(m.key) && IsBlank(m.between) && ValidElement(m.element)
    ensures TextProfile(PrintMember(m)) == Then(StringProfile(m.key), ValueProfile(m.element.value))
  {
    PrintedString(m.key);
    PrintedElement(m.element);
    BlankIsFlat(m.before);
    BlankIsFlat(m.between);
    Surrounded(m.before, PrintString(m.key), m.between);
    OneChar(':');
    Joined(m.before + PrintString(m.key) + m.between, ":", PrintElement(m.element));
  }

  lemma {:induction false} PrintedMembers(members: List<Member>, blank: string)
    requires ValidMembers(members) && IsBlank(blank)
    ensures TextProfile(PrintMembers(members, blank)) == MembersProfile(members)
  {
    match members
    case Nil => BlankIsFlat(blank);
    case Cons(m, rest) =>
      PrintedMember(m);
      LowIsNotPositive(PrintMember(m));
      if rest.Cons? {
        PrintedMembers(rest, blank);
        OneChar(',');
        Joined(PrintMember(m), ",", PrintMembers(rest, blank));
      }
  }

  // ---- the exact condition ----

  lemma Within(inner: string, k: nat)
    requires k <= |inner|
    ensures Depth(("{" + inner + "}")[..k + 1]) == 1 + Depth(inner[..k])
  {
    assert ("{" + inner + "}")[..k + 1] == "{" + inner[..k];
    assert "{"[..0] == "";
    TextThen("{", inner[..k]);
  }

  lemma BalancesIffLow(inner: string)
    ensures BalancesFirst("{" + inner + "}", 0, "{" + inner + "}") <==> Depth(inner) == 0 && Low(inner) >= 0
  {
    var text := "{" + inner + "}";
    assert text[..0] == "" && text[0..] == text && inner[..|inner|] == inner;
    Within(inner, |inner|);
    assert text[..|text| - 1] == text[..|inner| + 1];
    assert Depth(text) == Depth(inner);
    var low := LowIsReached(inner);
    Within(inner, low);
    if Low(inner) >= 0 {
      forall k | 1 <= k < |text|
        ensures Depth(text[..k]) > 0
      {
        Within(inner, k - 1);
        LowIsLeast(inner, k - 1);
      }
    }
  }

  /** After prose without opening braces, the planner's scan returns a printed object, which is what the
      extraction returns, exactly when the braces in the object's strings fit. */
  lemma ScanAgreesIffFits(prose: string, v: Json, tail: string, r: Found)
    requires Valid(v) && v.Obj? && NoBrace(prose)
    requires IsBraceScan(prose + Print(v) + tail, r)
    ensures r == Segment(Print(v)) <==> Fits(v)
  {
    BraceScanAgrees(prose, v, tail, r);
    StringsBalanceIffFits(v);
  }

  lemma StringsBalanceIffFits(v: Json)
    requires Valid(v) && v.Obj?
    ensures StringsBalance(Print(v)) <==> Fits(v)
  {
    var text, inner := Print(v), PrintMembers(v.members, v.blank);
    ObjectCloses(v);
    BalancesIffStringsDo("", text, "");
    assert "" + text + "" == text;
    BalancesIffLow(inner);
    PrintedMembers(v.members, v.blank);
  }

  // ---- plain strings ----

  predicate PlainString(s: seq<StrChar>) {
    Plain('{') !in s && Plain('}') !in s
  }

  predicate PlainStrings(v: Json) {
    match v
    case Str(chars) => PlainString(chars)
    case Arr(items, _) => PlainItems(items)
    case Obj(members, _) => PlainMembers(members)
    case _ => true
  }

  predicate PlainItems(items: List<Element>) {
    items.Cons? ==> PlainStrings(items.head.value) && PlainItems(items.tail)
  }

  predicate PlainMembers(members: List<Member>) {
    members.Cons? ==>
      && PlainString(members.head.key) && PlainStrings(members.head.element.value) && PlainMembers(members.tail)
  }

  lemma {:induction false} PlainIsFlat(s: seq<StrChar>)
    requires PlainString(s)
    ensures StringProfile(s) == FLAT
  {
    if s != [] {
      PlainIsFlat(s[1..]);
    }
  }

  lemma {:induction false} PlainValueIsFlat(v: Json)
    requires PlainStrings(v)
    ensures ValueProfile(v) == FLAT
  {
    match v
    case Str(chars) => PlainIsFlat(chars);
    case Arr(items, _) => PlainItemsAreFlat(items);
    case Obj(members, _) => PlainMembersAreFlat(members);
    case _ =>
  }

  lemma {:induction false} PlainItemsAreFlat(items: List<Element>)
    requires PlainItems(items)
    ensures ItemsProfile(items) == FLAT
  {
    if items.Cons? {
      PlainValueIsFlat(items.head.value);
      PlainItemsAreFlat(items.tail);
    }
  }

  lemma {:induction false} PlainMembersAreFlat(members: List<Member>)
    requires PlainMembers(members)
    ensures MembersProfile(members) == FLAT
  {
    if members.Cons? {
      PlainIsFlat(members.head.key);
      PlainValueIsFlat(members.head.element.value);
      PlainMembersAreFlat(members.tail);
    }
  }

  /** In particular the scans agree on objects without braces in any of their strings. */
  lemma PlainStringsFit(v: Json)
    requires Valid(v) && v.Obj? && PlainStrings(v)
    ensures Fits(v) && StringsBalance(Print(v))
  {
    PlainMembersAreFlat(v.members);
    StringsBalanceIffFits(v);
  }
}
