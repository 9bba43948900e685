/** Failure-carrying datatypes shared by the whole model: `Option` stands for
    the source's nullable references, `Result` for a value-or-exception return. */
module Wrappers {

  datatype Option<+T> = None | Some(value: T)

  datatype Result<+R, +E> = Success(value: R) | Failure(error: E)
}
