/** Small value wrappers shared by every module: an optional value, JavaScript
    truthiness of optional strings, and the result of an operation that may throw. */
module Wrappers {

  /** A value that may be absent (`null` or `undefined` in the source). */
  datatype Option<T> = None | Some(value: T)

  /** JavaScript truthiness of a value of type `string | null | undefined`:
      absent values and the empty string are falsy. */
  predicate Truthy(o: Option<string>) {
    o.Some? && o.value != ""
  }

  /** The expression `o || fallback` on an optional string. */
  function OrElse(o: Option<string>, fallback: string): (r: string)
    ensures Truthy(o) ==> r == o.value
    ensures !Truthy(o) ==> r == fallback
  {
    if Truthy(o) then o.value else fallback
  }

  /** What a `throw` carries: an `Error` object with its message, or any other value. */
  datatype Thrown = Error(message: string) | NonError

  /** The outcome of an operation that either returns a value or throws. */
  datatype Result<T> = Ok(value: T) | Err(thrown: Thrown)
}
