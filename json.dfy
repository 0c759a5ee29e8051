/** The untyped `Json` column type of the database client
    (src/integrations/supabase/types.ts) and the two operators the decoders
    use on it: optional chaining `?.` and nullish coalescing `??`. */
module Json {
  import opened Common

  /** A JSON value. An object member whose key is absent stands for
      `undefined`; numbers are kept as reals. */
  datatype Json =
    | JNull
    | JBool(b: bool)
    | JNumber(n: real)
    | JString(s: string)
    | JArray(items: seq<Json>)
    | JObject(members: map<string, Json>)

  /** `v?.key` where `None` is `undefined`: a member of an object, and
      `undefined` for a missing key or for anything that is not an object
      (`null` and `undefined` included). */
  function Member(v: Option<Json>, key: string): Option<Json> {
    if v.Some? && v.value.JObject? && key in v.value.members then Some(v.value.members[key]) else None
  }

  /** `v ?? fallback`: the fallback replaces `undefined` and `null` only. */
  function Coalesce(v: Option<Json>, fallback: Json): Json {
    if v.Some? && v.value != JNull then v.value else fallback
  }

  /** The member reached by following `path` through nested objects, as a
      reference reading of a chain `v?.k1?.k2...`. */
  function At(v: Json, path: seq<string>): Option<Json>
    decreases |path|
  {
    if path == [] then Some(v)
    else match At(v, path[..|path| - 1])
      case Some(JObject(members)) =>
        if path[|path| - 1] in members then Some(members[path[|path| - 1]]) else None
      case _ => None
  }

  /** The path leads to a value that is present and not `null`. */
  predicate Given(v: Json, path: seq<string>) {
    At(v, path).Some? && At(v, path).value != JNull
  }
}
