/** Optional values, results, and what JavaScript code can throw. */
module Values {

  /** `undefined` or a value. */
  datatype Option<+T> = None | Some(value: T)

  /** A settled promise: fulfilled with a value or rejected with a thrown value. */
  datatype Result<+T, +E> = Success(value: T) | Failure(error: E)

  /** A thrown JavaScript value: an `Error` instance with its message, or anything else. */
  datatype Thrown = Error(message: string) | NonError

  /** JavaScript truthiness of an optional string: neither `undefined` nor `""`. */
  predicate Truthy(s: Option<string>) {
    s.Some? && s.value != ""
  }

  /** `s || fallback` for an optional string. */
  function OrElse(s: Option<string>, fallback: string): (r: string)
    ensures Truthy(s) ==> r == s.value
    ensures !Truthy(s) ==> r == fallback
  {
    if Truthy(s) then s.value else fallback
  }

  /** The message a `catch` block shows: `error instanceof Error ? error.message : fallback`. */
  function MessageOr(e: Thrown, fallback: string): (r: string)
    ensures e.Error? ==> r == e.message
    ensures e.NonError? ==> r == fallback
  {
    match e
    case Error(m) => m
    case NonError => fallback
  }

  /** A notice passed to the UI's `toast()`: title, description and optional variant. */
  datatype Toast = Toast(title: string, description: string, variant: Option<string>)
}
