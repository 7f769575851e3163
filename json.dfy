/** A JSON document as `json.loads` returns it. Parsing itself is not modelled: the
    operations that call `json.loads` take the parser as a function parameter. */
module JsonValue {

  datatype Value =
    | Null
    | Bool(b: bool)
    | Number(n: real)
    | Str(s: string)
    | Array(items: seq<Value>)
    | Object(members: map<string, Value>)
}
