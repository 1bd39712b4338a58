/** Null and failure as values: Java's nullable references become `Option`,
    a thrown precondition failure becomes the `Failure` case of a `Result`. */
module Wrappers {

  datatype Option<+T> = None | Some(value: T)

  datatype Result<+R, +E> = Success(value: R) | Failure(error: E)
}
