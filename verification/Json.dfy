/** JSON values as json.loads returns them: object keys are unordered. Floats are not modelled. */
module JsonValues {
  import opened Outcomes

  datatype Json =
    | Null
    | Bool(b: bool)
    | Int(n: int)
    | Str(s: string)
    | Arr(items: seq<Json>)
    | Obj(fields: map<string, Json>)

  /** A text column, identified with what json.loads makes of it. */
  datatype JsonText = Malformed | Decoded(value: Json)

  /** dict.get(key) on a decoded object. */
  function Get(fields: map<string, Json>, key: string): Option<Json> {
    if key in fields then Some(fields[key]) else None
  }

  /** Python truthiness of a decoded value. */
  predicate Truthy(j: Json) {
    match j
    case Null => false
    case Bool(b) => b
    case Int(n) => n != 0
    case Str(s) => s != ""
    case Arr(items) => items != []
    case Obj(fields) => fields != map[]
  }

  /** `value or fallback`, where a missing key behaves like None. */
  function Or(value: Option<Json>, fallback: Json): Json {
    if value.Some? && Truthy(value.value) then value.value else fallback
  }

  /** The mapping under `key`, or an empty one when it is missing or not an object. */
  function SubObject(fields: map<string, Json>, key: string): map<string, Json> {
    if key in fields && fields[key].Obj? then fields[key].fields else map[]
  }
}
