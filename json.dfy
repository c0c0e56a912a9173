/**
 * JSON values as the store hands them back (audit-log `metadata_json`, the
 * `policy_ids` and `role_tracks` columns). Numbers are integers: every
 * number the core inspects is an integer.
 */
module Json {

  datatype Json =
    | JNull
    | JBool(b: bool)
    | JNumber(n: int)
    | JString(s: string)
    | JArray(items: seq<Json>)
    | JObject(fields: map<string, Json>)

  /** `typeof v === "object" && v !== null`: arrays are objects in JavaScript. */
  predicate IsObjectLike(v: Json) {
    v.JObject? || v.JArray?
  }

  /** The value's JavaScript truthiness. */
  predicate Truthy(v: Json) {
    match v
    case JNull => false
    case JBool(b) => b
    case JNumber(n) => n != 0
    case JString(s) => s != ""
    case JArray(_) => true
    case JObject(_) => true
  }

  /** `obj[key] === JString(value)`: a strict comparison with a string; an absent key reads as `undefined`. */
  predicate FieldIsString(fields: map<string, Json>, key: string, value: string) {
    key in fields && fields[key] == JString(value)
  }
}
