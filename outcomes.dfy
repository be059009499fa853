/** Small value types shared by the slices, the API layer and the screen. */
module Outcomes {

  /** A JavaScript value that may be `null` or `undefined`. */
  datatype Option<T> = None | Some(value: T)

  /** What an awaited network or storage call produced: the data it resolved
      with, or the fact that it threw (with the thrown error's `message`,
      which may be missing). */
  datatype Response<T> = Received(data: T) | Failed(message: Option<string>)

  /** A value returned by an `async` function of the service layer, or the
      `Error` it throws, identified by its message. */
  datatype ApiResult<T> = Ok(value: T) | Err(message: string)

  /** JavaScript truthiness of a string that may be `null`: present and
      non-empty. */
  predicate Truthy(s: Option<string>)
  {
    s.Some? && s.value != ""
  }
}
