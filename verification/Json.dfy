/** JSON values as the host agent handles them after decoding: `any` in the source. */
module Json {

  datatype Value =
    | Null
    | Bool(truth: bool)
    | Num(number: real)
    | Str(text: string)
    | Arr(items: seq<Value>)
    | Obj(fields: map<string, Value>)
}
