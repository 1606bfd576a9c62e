/** Small value types shared by the backend and the frontend models. */
module Common {

  /** A value that may be absent: a missing JSON field, a null, an optional argument. */
  datatype Option<T> = None | Some(value: T) {
    function GetOr(default: T): T {
      match this
      case Some(v) => v
      case None => default
    }
  }

  /** An HTTP reply of the backend: 200 with a JSON body, or 400 with an `error` message. */
  datatype Reply<T> = Ok(body: T) | BadRequest(error: string)

  function Abs(x: real): (r: real)
    ensures r >= 0.0
    ensures r == x || r == -x
  {
    if x < 0.0 then -x else x
  }

  /** JavaScript's `s.startsWith(prefix)`. */
  predicate StartsWith(s: string, prefix: string) {
    |prefix| <= |s| && s[..|prefix|] == prefix
  }
}
