/** Small value types shared by every component of the rewards client. */
module Common {

  /** A value that may be absent: a nullable column, a missing row, a missing prop. */
  datatype Option<T> = None | Some(value: T)

  /** The result of one remote request: success, or an error carrying its message. */
  datatype Outcome = Ok | Fail(message: string)

  /** The result of an operation that throws on error. */
  datatype Result<T> = Success(value: T) | Failure(message: string)

  /** `x ?? 0` (and `x || 0`) on an optional integer. */
  function Or0(x: Option<int>): int
  {
    match x
    case Some(v) => v
    case None => 0
  }

  /** JavaScript truthiness of an optional string: present and not empty. */
  predicate Truthy(s: Option<string>)
  {
    s.Some? && s.value != ""
  }

  /** `s || null`: keeps a non-empty string, turns an empty or absent one into null. */
  function OrNull(s: Option<string>): (r: Option<string>)
    ensures r.Some? <==> Truthy(s)
    ensures r.Some? ==> r == s
  {
    if Truthy(s) then s else None
  }

  /** `err.message || fallback`. */
  function MessageOr(message: string, fallback: string): string
  {
    if message != "" then message else fallback
  }
}
