/** Failure-carrying values used by the model: `Option` for `db.get` (None when the key is absent),
    `Result` for reads that raise in the client, `Outcome` for writer calls that may raise. */
module Wrappers {

  datatype Option<+T> = None | Some(value: T)

  datatype Result<+R, +E> = Success(value: R) | Failure(error: E)

  datatype Outcome<+E> = Pass | Fail(error: E)
}
