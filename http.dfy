/** Values shared by the three services: optional values, the JSON objects
    they read with `.get`, and the HTTP errors their handlers raise. */
module Http {

  datatype Option<+T> = None | Some(value: T)

  /** A decoded JSON object restricted to its string-or-null members.
      A member whose value is JSON `null` maps to `None`. */
  type JsonObject = map<string, Option<string>>

  /** Python's `dict.get(key)`: `None` both for a missing key and for a
      `null` value. */
  function Get(o: JsonObject, key: string): (r: Option<string>)
    ensures r.Some? <==> key in o && o[key].Some?
    ensures r.Some? ==> o[key] == r
  {
    if key in o then o[key] else None
  }

  /** The rest of `s` after `prefix`, if `s` starts with it: how a route
      reads the path parameter that follows a fixed prefix. */
  function StripPrefix(prefix: string, s: string): (r: Option<string>)
    ensures r.Some? <==> |prefix| <= |s| && s[..|prefix|] == prefix
    ensures r.Some? ==> prefix + r.value == s
  {
    if |prefix| <= |s| && s[..|prefix|] == prefix then Some(s[|prefix|..]) else None
  }

  /** Stripping the prefix a string was built with gives back its suffix. */
  lemma StripPrefixOfConcat(prefix: string, suffix: string)
    ensures StripPrefix(prefix, prefix + suffix) == Some(suffix)
  {
  }

  /** An `HTTPException`: the status code and the `detail` text. */
  datatype HttpError = HttpError(status: int, detail: string)

  /** What an uncaught exception inside a handler becomes. */
  const InternalServerError := HttpError(500, "Internal Server Error")

  /** A handler either answers with a value or raises an `HTTPException`. */
  datatype Result<+T> = Ok(value: T) | Err(error: HttpError)
}
