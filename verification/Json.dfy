/** JSON trees, byte lengths of strings, and the protocol's failure categories. */
module Json {
  import opened Wrappers

  /** A JSON number; only equality of numbers matters here. */
  type Number(==, !new)

  datatype Value =
    | Null
    | Bool(b: bool)
    | Num(n: Number)
    | Str(s: string)
    | Array(items: seq<Value>)
    | Object(fields: map<string, Value>)

  type Fields = map<string, Value>

  datatype Error = TooLarge | InvalidEvent | InvalidSequence | IdentityMismatch | InvalidPatch | Incomplete

  /** What the JSON library decides: parsing a text, and the length of a serialized value. */
  datatype Library = Library(parse: string -> Option<Value>, size: Value -> nat)

  const MAX_EVENT_BYTES: nat := 1024 * 1024
  const MAX_ITEMS: nat := 4096

  /** Bytes of one scalar in UTF-8. */
  function CharBytes(c: char): nat {
    if c as int < 0x80 then 1 else if c as int < 0x800 then 2 else if c as int < 0x10000 then 3 else 4
  }

  function Bytes(s: string): nat {
    if s == [] then 0 else Bytes(s[..|s| - 1]) + CharBytes(s[|s| - 1])
  }

  lemma {:induction false} BytesJoin(a: string, b: string)
    ensures Bytes(a + b) == Bytes(a) + Bytes(b)
  {
    if b == [] {
      assert a + b == a;
    } else {
      BytesJoin(a, b[..|b| - 1]);
      assert (a + b)[..|a + b| - 1] == a + b[..|b| - 1];
    }
  }

  predicate HasNul(s: string) {
    exists i :: 0 <= i < |s| && s[i] == '\0'
  }

  function Get(o: Fields, field: string): Option<Value> {
    if field in o then Some(o[field]) else None
  }
}
