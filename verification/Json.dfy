/**
 JSON trees, and the texts that carry them.

 A metadata value is a Go string. For the client only one question about such a string
 matters: does it parse as a JSON object, and to which one? A text is therefore either
 plain characters, which do not parse as an object, or one of the spellings of a tree:
 the canonical spelling that encoding/json produces, or another spelling of the same
 tree (other white space, key order or escapes). Encoding and decoding are then plain
 functions, and two texts are equal exactly when the strings are.
 */
module Json {
  import opened GoStrings

  type Fields = map<string, Tree>

  datatype Number =
    | Whole(value: int)
    | Fractional(spelling: string)

  datatype Scalar =
    | Null
    | Bool(b: bool)
    | Num(n: Number)
    | Str(s: Text)

  datatype Tree =
    | Atom(scalar: Scalar)
    | Arr(items: seq<Tree>)
    | Obj(fields: map<string, Tree>)

  datatype Text =
    | Plain(chars: string)
    | Canonical(tree: Tree)
    | Respelled(tree: Tree, variant: nat)
    | Printed(tree: Tree)   // fmt.Sprint of an object or array, which is not JSON

  function FromString(s: string): Tree { Atom(Str(Plain(s))) }

  function FromInt(n: int): Tree { Atom(Num(Whole(n))) }

  /** The string of a missing map entry. */
  const EMPTY: Text := Plain("")

  function PrintNumber(n: Number): string {
    match n
    case Whole(v) => Print(v)
    case Fractional(spelling) => spelling
  }

  /** json.Marshal. */
  function Marshal(t: Tree): Text {
    match t
    case Atom(Null) => Plain("null")
    case Atom(Bool(b)) => Plain(if b then "true" else "false")
    case Atom(Num(n)) => Plain(PrintNumber(n))
    case _ => Canonical(t)
  }

  /** fmt.Sprint. */
  function Sprint(t: Tree): Text {
    match t
    case Atom(Null) => Plain("<nil>")
    case Atom(Bool(b)) => Plain(if b then "true" else "false")
    case Atom(Num(n)) => Plain(PrintNumber(n))
    case Atom(Str(s)) => s
    case _ => Printed(t)
  }

  /** Whether strings.TrimSpace leaves nothing of the text. */
  predicate Blank(t: Text) {
    t.Plain? && TrimSpace(t.chars) == ""
  }

  function Lookup<V>(m: map<string, V>, key: string): Option<V> {
    if key in m then Some(m[key]) else None
  }
}
