/** Decoded JSON documents, as run payloads and checkpoint payloads are. */
module Documents {
  import opened Wrappers

  datatype Val = VNull | VString(s: string) | VNumber(n: int) | VObject(fields: map<string, Val>)

  type Doc = map<string, Val>

  /** A type assertion to a string; absent keys and other values fail it. */
  function StringAt(d: Doc, key: string): Option<string> {
    if key in d && d[key].VString? then Some(d[key].s) else None
  }

  function ObjectAt(d: Doc, key: string): Option<Doc> {
    if key in d && d[key].VObject? then Some(d[key].fields) else None
  }

  /** A possibly nil map as it is stored: nil becomes null. */
  function Stored(d: Option<Doc>): Val {
    if d.Some? then VObject(d.value) else VNull
  }

  function OrElse<T>(a: Option<T>, b: T): T {
    if a.Some? then a.value else b
  }
}
