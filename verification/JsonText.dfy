/** The texts of JSON values in the sense of RFC 8259, sections 2 to 7, with every choice of
    insignificant whitespace, escapes and number spelling left open. */
module JsonText {

  datatype List<+T> = Nil | Cons(head: T, tail: List<T>)

  /** One character of a string as it is spelled in the text (section 7). */
  datatype StrChar = Plain(c: char) | Escaped(c: char) | Unicode(hex: string)

  /** `number` may be any text over the characters numbers are spelled with. */
  datatype Json =
    | Null | True | False
    | Number(number: string)
    | Str(chars: seq<StrChar>)
    | Arr(items: List<Element>, blank: string)
    | Obj(members: List<Member>, blank: string)

  /** A value with the whitespace around it. */
  datatype Element = Element(before: string, value: Json, after: string)

  datatype Member = Member(before: string, key: seq<StrChar>, between: string, element: Element)

  const BACKSLASH := '\\'
  const QUOTE := '"'

  predicate IsBlank(s: string) {
    forall c :: c in s ==> c in " \t\n\r"
  }

  predicate ValidChar(c: StrChar) {
    match c
    case Plain(c) => c != QUOTE && c != BACKSLASH && c >= ' '
    case Escaped(c) => c in "\"\\/bfnrt"
    case Unicode(hex) => |hex| == 4 && forall h :: h in hex ==> h in "0123456789abcdefABCDEF"
  }

  predicate ValidString(s: seq<StrChar>) {
    forall c :: c in s ==> ValidChar(c)
  }

  predicate Valid(v: Json) {
    match v
    case Number(number) => number != "" && forall c :: c in number ==> c in "0123456789+-.eE"
    case Str(chars) => ValidString(chars)
    case Arr(items, blank) => IsBlank(blank) && ValidItems(items)
    case Obj(members, blank) => IsBlank(blank) && ValidMembers(members)
    case _ => true
  }

  predicate ValidItems(items: List<Element>) {
    items.Cons? ==> ValidElement(items.head) && ValidItems(items.tail)
  }

  predicate ValidElement(e: Element) {
    IsBlank(e.before) && Valid(e.value) && IsBlank(e.after)
  }

  predicate ValidMembers(members: List<Member>) {
    members.Cons? ==>
      && IsBlank(members.head.before) && ValidString(members.head.key) && IsBlank(members.head.between)
      && ValidElement(members.head.element) && ValidMembers(members.tail)
  }

  function PrintChar(c: StrChar): string {
    match c
    case Plain(c) => [c]
    case Escaped(c) => [BACKSLASH, c]
    case Unicode(hex) => [BACKSLASH, 'u'] + hex
  }

  function PrintChars(s: seq<StrChar>): string {
    if s == [] then "" else PrintChar(s[0]) + PrintChars(s[1..])
  }

  function PrintString(s: seq<StrChar>): string {
    [QUOTE] + PrintChars(s) + [QUOTE]
  }

  function Print(v: Json): string {
    match v
    case Null => "null"
    case True => "true"
    case False => "false"
    case Number(number) => number
    case Str(chars) => PrintString(chars)
    case Arr(items, blank) => "[" + PrintItems(items, blank) + "]"
    case Obj(members, blank) => "{" + PrintMembers(members, blank) + "}"
  }

  function PrintElement(e: Element): string {
    e.before + Print(e.value) + e.after
  }

  /** The inside of an array; an empty one may hold whitespace. */
  function PrintItems(items: List<Element>, blank: string): string {
    match items
    case Nil => blank
    case Cons(e, Nil) => PrintElement(e)
    case Cons(e, rest) => PrintElement(e) + "," + PrintItems(rest, blank)
  }

  function PrintMember(m: Member): string {
    m.before + PrintString(m.key) + m.between + ":" + PrintElement(m.element)
  }

  function PrintMembers(members: List<Member>, blank: string): string {
    match members
    case Nil => blank
    case Cons(m, Nil) => PrintMember(m)
    case Cons(m, rest) => PrintMember(m) + "," + PrintMembers(rest, blank)
  }
}
