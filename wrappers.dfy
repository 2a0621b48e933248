/** Small value wrappers shared by the chat client model. */
module Wrappers {

  /** A value that may be absent: an optional field of a record, or `null`. */
  datatype Option<+T> = None | Some(value: T)

  /** The outcome of one call to the backend: the response payload, or a rejected promise. */
  datatype Reply<+T> = Ok(value: T) | Failed

  function Min(a: int, b: int): (m: int)
    ensures m <= a && m <= b && (m == a || m == b)
  {
    if a <= b then a else b
  }
}
