/** Nullable references and results with an error case. */
module Wrappers {

  /** A C# reference that may be null: `None` stands for null. */
  datatype Option<+T> = None | Some(value: T)

  /** The result of an operation that may throw. */
  datatype Result<+R, +E> = Ok(value: R) | Err(error: E)
}
