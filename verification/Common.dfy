/** Wrappers shared by several parts of the model. */
module Common {
  datatype Option<+T> = None | Some(value: T)

  /** A rejected promise or a thrown error becomes `Err`. */
  datatype Result<+T, +E> = Ok(value: T) | Err(error: E)
}
