/** JavaScript values as the components receive them from the platform
    (provider replies, upload descriptors, thrown errors), with the few
    operations the components apply to them: property reads, truthiness,
    `a || b`, `String(v)` and `JSON.stringify(v, null, 2)`. */
module Json {
  import opened Common

  /** A JavaScript value. Numbers are integers here; object members are
      kept in insertion order, with distinct keys. */
  datatype Json =
    | Undefined
    | Null
    | Bool(b: bool)
    | Num(n: int)
    | Str(s: string)
    | Arr(elems: seq<Json>)
    | Obj(members: seq<Member>)

  datatype Member = Member(key: string, value: Json)

  /** JavaScript truthiness: `undefined`, `null`, `false`, `0` and `""` are
      falsy, every array and object is truthy. */
  predicate Truthy(j: Json) {
    match j
    case Undefined => false
    case Null => false
    case Bool(b) => b
    case Num(n) => n != 0
    case Str(s) => s != ""
    case Arr(_) => true
    case Obj(_) => true
  }

  /** `j.key` or `j?.key`. Only objects carry the properties the components
      read; every other value yields `undefined`. */
  function Get(j: Json, key: string): Json {
    if j.Obj? then Lookup(j.members, key) else Undefined
  }

  function Lookup(members: seq<Member>, key: string): Json {
    if members == [] then Undefined
    else if members[0].key == key then members[0].value
    else Lookup(members[1..], key)
  }

  /** `j[0]` on an array (`undefined` when it is empty or not an array). */
  function First(j: Json): Json {
    if j.Arr? && j.elems != [] then j.elems[0] else Undefined
  }

  /** `a || b`. */
  function Or(a: Json, b: Json): (r: Json)
    ensures Truthy(a) ==> r == a
    ensures !Truthy(a) ==> r == b
  {
    if Truthy(a) then a else b
  }

  /** An `Error` object carrying `message`, as `new Error(message)` builds it. */
  function ErrorObject(message: string): Json {
    Obj([Member("message", Str(message))])
  }

  /** `String(j)`, which is also what a template literal `${j}` produces. */
  function ToText(j: Json): string {
    match j
    case Undefined => "undefined"
    case Null => "null"
    case Bool(b) => if b then "true" else "false"
    case Num(n) => IntToString(n)
    case Str(s) => s
    case Arr(es) =>
      Join(seq(|es|, i requires 0 <= i < |es| =>
                 if es[i].Undefined? || es[i].Null? then "" else ToText(es[i])), ",")
    case Obj(_) => "[object Object]"
  }

  /** `JSON.stringify(j, null, 2)` for a value nested at indentation
      `indent`. Inside an array `undefined` prints as `null`; inside an
      object a member whose value is `undefined` is left out. */
  function Stringify(j: Json, indent: string): string {
    match j
    case Undefined => "null"
    case Null => "null"
    case Bool(b) => if b then "true" else "false"
    case Num(n) => IntToString(n)
    case Str(s) => Quote(s)
    case Arr(es) =>
      if es == [] then "[]"
      else
        var inner := indent + "  ";
        "[\n" + Join(seq(|es|, i requires 0 <= i < |es| => inner + Stringify(es[i], inner)), ",\n")
        + "\n" + indent + "]"
    case Obj(ms) =>
      var shown := Filter(ms, (m: Member) => !m.value.Undefined?);
      if shown == [] then "{}"
      else
        var inner := indent + "  ";
        "{\n" + Join(seq(|shown|, i requires 0 <= i < |shown| =>
                           assert shown[i] in ms;
                           inner + Quote(shown[i].key) + ": " + Stringify(shown[i].value, inner)), ",\n")
        + "\n" + indent + "}"
  }

  /** A JSON string literal: quotes around the text, with `"`, `\` and the
      control characters escaped as `JSON.stringify` escapes them. */
  function Quote(s: string): string {
    "\"" + Escape(s) + "\""
  }

  function Escape(s: string): string {
    if s == [] then "" else EscapeChar(s[0]) + Escape(s[1..])
  }

  function EscapeChar(c: char): string {
    if c == '"' then "\\\""
    else if c == '\\' then "\\\\"
    else if c == '\U{0008}' then "\\b"
    else if c == '\U{000C}' then "\\f"
    else if c == '\n' then "\\n"
    else if c == '\r' then "\\r"
    else if c == '\t' then "\\t"
    else if c < ' ' then "\\u00" + [HexDigit(c as int / 16), HexDigit(c as int % 16)]
    else [c]
  }

  function HexDigit(d: nat): char
    requires d < 16
  {
    "0123456789abcdef"[d]
  }
}
