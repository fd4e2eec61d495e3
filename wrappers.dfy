/** Outcomes of operations that may fail: Go's nil and panics made explicit. */
module Wrappers {
  datatype Option<+T> = None | Some(value: T)

  /** Either a value or the message of the panic that the operation raises. */
  datatype Result<+T> = Ok(value: T) | Panic(message: string)
}
