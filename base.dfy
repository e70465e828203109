/** Failure-carrying datatypes shared by every module of the model. */
module Base {

  /** A value that may be absent: JavaScript's `null` / `undefined`. */
  datatype Option<T> = None | Some(value: T)

  /** A computation that either produces a value or throws. */
  datatype Result<T, E> = Success(value: T) | Failure(error: E)

  /** A computation that produces nothing or throws. */
  datatype Outcome<E> = Pass | Fail(error: E)

  /** What a `throw` or a rejected promise carries: an `Error` object with its
      message, or some other value (for which `instanceof Error` is false). */
  datatype Thrown = Error(message: string) | NonError

  /** `error instanceof Error ? error.message : fallback` */
  function MessageOr(t: Thrown, fallback: string): (m: string)
    ensures t.Error? ==> m == t.message
    ensures t.NonError? ==> m == fallback
  {
    match t
    case Error(msg) => msg
    case NonError => fallback
  }

  /** JavaScript's `s || fallback` on an optional string: `undefined` and the
      empty string are both falsy. */
  function OrElse(s: Option<string>, fallback: string): (r: string)
    ensures s.Some? && s.value != "" ==> r == s.value
    ensures s.None? || s.value == "" ==> r == fallback
  {
    if s.Some? && s.value != "" then s.value else fallback
  }

  /** JavaScript's `s || null` on an optional string. */
  function Truthy(s: Option<string>): (r: Option<string>)
    ensures r.Some? <==> s.Some? && s.value != ""
    ensures r.Some? ==> r == s
  {
    if s.Some? && s.value != "" then s else None
  }
}
