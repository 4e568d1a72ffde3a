/** Optional values and the outcome of a call that may raise. */
module Outcome {

  /** Python's `Optional[T]`: `None` or a value. */
  datatype Option<+T> = None | Some(value: T)

  /** The result of an external call: a value, or an exception that the caller may catch. */
  datatype Outcome<+T> = Ok(value: T) | Raised

  /** Python truthiness of an `Optional[str]`: neither `None` nor the empty string. */
  predicate Truthy(s: Option<string>) {
    s.Some? && s.value != ""
  }

  function Min(a: int, b: int): int {
    if a <= b then a else b
  }

  function Max(a: int, b: int): int {
    if a >= b then a else b
  }
}
