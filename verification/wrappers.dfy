/** Failure-carrying datatypes shared by the whole model.
    Go reports failure as a second `error` return value; the model folds the
    pair into one `Result`, and an optional value into an `Option`. */
module Wrappers {

  datatype Option<+T> = None | Some(value: T)

  datatype Result<+R, +E> = Success(value: R) | Failure(error: E)

}
