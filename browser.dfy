/**
 * What the store reads from the browser's localStorage: the `userInfo`
 * and `token` entries.
 */
module Browser {
  import opened Wrappers
  import opened JsValues

  /**
   * `userInfo` is None when the entry is missing or empty (both make the
   * store parse '{}'), and otherwise what JSON.parse makes of the stored
   * text; `token` is what `getItem('token')` returns, None standing for null.
   */
  datatype Storage = Storage(userInfo: Option<ParseResult>, token: Option<string>)

  /** `JSON.parse(localStorage.getItem('userInfo') || '{}')`. */
  function StoredUserInfo(storage: Storage): (r: ParseResult)
    ensures storage.userInfo.None? ==>
              r.Parsed? && r.value.Truthy() && KeyCount(r.value) == 0 &&
              Get(r.value, "username") == Undefined && Get(r.value, "nickname") == Undefined
    ensures storage.userInfo.Some? ==> r == storage.userInfo.value
  {
    match storage.userInfo
    case None => Parsed(Obj(map[]))
    case Some(p) => p
  }

  /** The token as it appears in an outgoing frame: its text, or null. */
  function TokenValue(storage: Storage): (v: Value)
    ensures v.Str? || v.Null?
    ensures storage.token.Some? ==> v == Str(storage.token.value)
    ensures storage.token.None? ==> v == Null
  {
    match storage.token
    case None => Null
    case Some(t) => Str(t)
  }
}
