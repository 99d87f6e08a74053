/** The enumerations of src/types.ts and the `undefined`-or-value type every other module uses. */
module Types {

  /** A value that may be `undefined`. */
  datatype Option<+T> = None | Some(value: T)

  /** The HTTP verbs a client is built for (the `Method` enum). */
  datatype Method = GET | POST | DELETE | PUT | PATCH

  /** How a request body is encoded (the `BodyFormat` enum; `NoFormat` is its `None` member). */
  datatype BodyFormat = JSON | FormData | NoFormat

  /** Reading `m[k]` from a JavaScript object: the entry, or `undefined` when there is none. */
  function Lookup(m: map<string, string>, k: string): (v: Option<string>)
    ensures v.Some? <==> k in m
    ensures v.Some? ==> v.value == m[k]
  {
    if k in m then Some(m[k]) else None
  }
}
