/**
  Failure-compatible wrappers shared by the model, and the one piece of
  JavaScript semantics that every core file relies on: the truthiness of a
  string that may be `undefined`.
 */
module Optional {

  /** A value that may be absent (`undefined` in the source). */
  datatype Option<+T> = None | Some(value: T)

  /** The outcome of an operation that yields a value or fails (a rejected promise). */
  datatype Result<+T, +E> = Success(value: T) | Failure(error: E)

  /** The outcome of an operation that yields nothing or fails. */
  datatype Outcome<+E> = Pass | Fail(error: E)

  /** `if (s)` on a `string | undefined`: defined and not the empty string. */
  predicate Truthy(s: Option<string>)
  {
    s.Some? && s.value != ""
  }

  /** `s || fallback` on a `string | undefined`. */
  function OrElse(s: Option<string>, fallback: string): string
  {
    if Truthy(s) then s.value else fallback
  }
}
