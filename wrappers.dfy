/** Failure-carrying values shared by every module of the model.
    A Rust `panic!`, a failed `assert!` and an `unwrap` of `None` all become `Panic`. */
module Wrappers {

  datatype Option<T> = None | Some(value: T)

  /** The outcome of an operation that either completes or panics. */
  datatype Outcome = Done | Panic(reason: string)

  /** A value, or the panic that prevented computing it. */
  datatype Result<T> = Ok(value: T) | Failed(reason: string)

  /** The panic message of `Option::unwrap` on `None`. */
  const UNWRAP_NONE: string := "called `Option::unwrap()` on a `None` value"

  /** The panic message of an out-of-range slice or array index. */
  const INDEX_OUT_OF_BOUNDS: string := "index out of bounds"
}
