/** Failure-carrying values shared by every module: a JavaScript `throw new Error(message)`
    becomes `Err(message)`, a returned value `Ok(value)`, and `undefined` becomes `None`. */
module Wrappers {

  datatype Option<+T> = None | Some(value: T)

  datatype Result<+T> = Ok(value: T) | Err(msg: string)

  /** An operation that resolves with no value, or rejects with a message. */
  datatype Outcome = Pass | Fail(msg: string)
}
