/**
  JSON values as the conversation log stores them, and the two optional-value
  shapes the other modules share.
 */
module JsonValue {

  datatype Option<+T> = None | Some(value: T)

  datatype Json =
    | Null
    | Bool(b: bool)
    | Int(n: int)
    | Float(r: real)
    | Str(s: string)
    | Arr(items: seq<Json>)
    | Obj(fields: map<string, Json>)

  /** `payload.get(key)`: absent and non-object values both give None. */
  function Get(value: Json, key: string): Option<Json> {
    if value.Obj? && key in value.fields then Some(value.fields[key]) else None
  }

  /** The value under `key`, null when it is absent. */
  function ValueAt(payload: Json, key: string): Json {
    match Get(payload, key)
    case Some(v) => v
    case None => Null
  }

  /** The text under `key`, or "" when it is absent or not a string. */
  function TextAt(value: Json, key: string): string {
    match Get(value, key)
    case Some(Str(s)) => s
    case _ => ""
  }

  /** `payload.get(key) is True`. */
  predicate TrueAt(value: Json, key: string) {
    Get(value, key) == Some(Bool(true))
  }

  /** Python's truth value of a decoded JSON value. */
  predicate Truthy(value: Json) {
    match value
    case Null => false
    case Bool(b) => b
    case Int(n) => n != 0
    case Float(r) => r != 0.0
    case Str(s) => s != ""
    case Arr(items) => items != []
    case Obj(fields) => |fields| != 0
  }

  lemma NullIsFalse()
    ensures !Truthy(Null)
  {
  }

  /** There is something under the key that counts as true. */
  predicate Holds(payload: Json, key: string) {
    match Get(payload, key)
    case Some(v) => Truthy(v)
    case None => false
  }

  /**
    The JSON text functions of the host language, which the model never looks
    into: decoding, the compact and the spaced rendering, `str()` of a value and
    the sorted keys of an object.
   */
  datatype Codec = Codec(
    loads: string -> Option<Json>,
    dumps: Json -> string,
    spaced: Json -> string,
    show: Json -> string,
    sortedKeys: Json -> seq<string>)
}
