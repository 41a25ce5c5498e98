/**
 The untyped JSON the handler receives from the source URL. Each element of
 the fetched array is a record whose fields are addressed by names that only
 become known from the request.
 */
module Json {

  /** A JSON value, plus `Undefined`, which is what JavaScript yields for a
      property a record does not have. Numbers are kept as reals. */
  datatype Value =
    | Undefined
    | Null
    | Bool(b: bool)
    | Num(n: real)
    | Str(s: string)
    | Arr(elems: seq<Value>)
    | Obj(fields: map<string, Value>)

  /** One element of the fetched array. */
  type Record = map<string, Value>

  /** `record[key]`: the field's value, or `Undefined` when the key is
      missing. A missing key is not an error. */
  function Lookup(r: Record, key: string): (v: Value)
    ensures key in r ==> v == r[key]
    ensures key !in r ==> v == Undefined
  {
    if key in r then r[key] else Undefined
  }
}
