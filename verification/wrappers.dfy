/** Small value wrappers shared by the client pages and the services. */
module Wrappers {

  /** A value that may be absent (JavaScript `null`/`undefined`, Python `None`). */
  datatype Option<+T> = None | Some(value: T)

  /** The outcome of one network request: the reply body, or a rejected promise. */
  datatype Reply<+T> = Ok(data: T) | Failed

  function Min(a: int, b: int): int { if a <= b then a else b }

  function Max(a: int, b: int): int { if a >= b then a else b }
}
