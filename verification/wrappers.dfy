/** Option and Result datatypes shared by the model. */
module Wrappers {

  /** An optional value: a hole in a sparse array, an absent navigation state. */
  datatype Option<+T> = None | Some(value: T)

  /** The result of a step that either completes or throws a JavaScript error
      whose message is `error`. */
  datatype Result<+R> = Success(value: R) | Failure(error: string)
}
