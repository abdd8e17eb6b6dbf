/** Optional values and the outcome of an operation that can throw. */
module Wrappers {

  /** A value that may be absent (`null` / `undefined` in the application). */
  datatype Option<T> = None | Some(value: T)

  /** The outcome of an operation that either returns a value or throws an
    * `Error` carrying a user-facing message. */
  datatype Result<T> = Ok(value: T) | Err(message: string)
  {
    predicate IsFailure() { Err? }
  }

  /** A message that may be absent: the `string | null` fields of the stores. */
  type Message = Option<string>

  /** A string that is present and non-empty, as JavaScript tests it. */
  predicate Truthy(o: Option<string>)
  {
    o.Some? && o.value != ""
  }

  /** `o || fallback` */
  function OrElse(o: Option<string>, fallback: string): (r: string)
    ensures Truthy(o) ==> r == o.value
    ensures !Truthy(o) ==> r == fallback
  {
    if Truthy(o) then o.value else fallback
  }
}
