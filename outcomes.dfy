/** Small result types shared by the present-proof model. */
module Outcomes {

  /** A value that may be absent; stands for a Go pointer that may be nil. */
  datatype Option<+T> = None | Some(value: T)

  /** The result of an operation that Go writes as `(value, error)`:
      either a value, or an error whose text is `cause`. */
  datatype Outcome<+T> = Success(value: T) | Failure(cause: string)
}
