/**
 * Raw documents of the remote store, as the mapper receives them: nested
 * key/value maps whose leaves are strings, numbers, booleans, timestamps and
 * geographic points, with JavaScript's reading of absent and falsy values.
 */
module Documents {
  import opened Wrappers

  /** A raw document value. `Timestamp` and `GeoValue` are the store's own value types, kept opaque. */
  datatype Json =
    | Null
    | Str(str: string)
    | Num(num: real)
    | Bool(flag: bool)
    | Timestamp(instant: int)
    | GeoValue(latitude: real, longitude: real)
    | Obj(fields: map<string, Json>)
    | Arr(items: seq<Json>)

  /** Property read `j.key` on a value that is not null: `None` is `undefined`. */
  function Get(j: Json, key: string): (r: Option<Json>)
    ensures r.Some? <==> j.Obj? && key in j.fields
    ensures r.Some? ==> r.value == j.fields[key]
  {
    if j.Obj? && key in j.fields then Some(j.fields[key]) else None
  }

  /** JavaScript truthiness of a possibly undefined value. */
  predicate Truthy(v: Option<Json>) {
    match v
    case None => false
    case Some(Null) => false
    case Some(Str(s)) => s != ""
    case Some(Num(n)) => n != 0.0
    case Some(Bool(b)) => b
    case Some(_) => true
  }

  /** The string a value holds, when it is one. */
  function AsString(v: Option<Json>): Option<string> {
    if v.Some? && v.value.Str? then Some(v.value.str) else None
  }

  /** The boolean a value holds, when it is one. */
  function AsBool(v: Option<Json>): Option<bool> {
    if v.Some? && v.value.Bool? then Some(v.value.flag) else None
  }

  /** No `null` occurs anywhere in the value. */
  predicate NullFree(j: Json) {
    match j
    case Null => false
    case Obj(fields) => forall k :: k in fields ==> NullFree(fields[k])
    case Arr(items) => forall i :: 0 <= i < |items| ==> NullFree(items[i])
    case _ => true
  }
}
