/** Results of the awaited calls into the identity and document services. */
module Outcomes {

  /** An awaited call either resolves with a value or rejects with an error
      whose `message` the caller may display. */
  datatype Outcome<+T> = Ok(value: T) | Fail(message: string)

  /** A value or the absence of one (JavaScript's `null`). */
  datatype Option<+T> = None | Some(value: T)
}
