/** Option and Result, the two stock wrappers the rest of the model uses
    for "no value" (a JavaScript `undefined`/`null` result) and for an
    operation that either succeeds or fails with a message. */
module Wrappers {

  datatype Option<+T> = None | Some(value: T)

  datatype Result<+R> = Success(value: R) | Failure(error: string)
}
