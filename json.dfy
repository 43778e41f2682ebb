/**
 * The values `JSON.parse` can produce. The decoded claims of a token (the `user`
 * slot of the session store) are such a value; `JNull` is JavaScript's `null`,
 * which is also what the `user` slot holds when nobody is logged in.
 */
module JsonValue {
  import opened Wrappers

  datatype Json =
    | JNull
    | JBool(b: bool)
    | JNumber(n: real)
    | JString(s: string)
    | JArray(items: seq<Json>)
    | JObject(members: map<string, Json>)

  /** JavaScript truthiness of a parsed JSON value (`user && …`, `!user`). */
  predicate Truthy(j: Json) {
    match j
    case JNull => false
    case JBool(b) => b
    case JNumber(n) => n != 0.0
    case JString(s) => s != ""
    case JArray(_) => true
    case JObject(_) => true
  }

  /**
   * The string found under `.role`, if any. Only an object has own
   * properties; `.role` on a string, number, boolean or array is undefined.
   */
  function RoleOf(j: Json): (r: Option<string>)
    ensures r.Some? ==> j.JObject? && "role" in j.members && j.members["role"] == JString(r.value)
    ensures j.JObject? && "role" in j.members && j.members["role"].JString? ==> r.Some?
  {
    if j.JObject? && "role" in j.members && j.members["role"].JString? then Some(j.members["role"].s) else None
  }
}
