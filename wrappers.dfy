/** Option and Result values used across the model: `undefined`/`null` become
    `None`, a thrown error becomes `Err`. */
module Wrappers {

  datatype Option<+T> = None | Some(value: T)

  datatype Result<+T, +E> = Ok(value: T) | Err(error: E)
}
