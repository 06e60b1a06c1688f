/** Option and Result values, and the Python exceptions the modelled code can raise. */
module Wrappers {

  datatype Option<+T> = None | Some(value: T)

  datatype Result<+T, +E> = Ok(value: T) | Err(error: E)

  /** The exception classes that escape from the modelled functions. */
  datatype Exception =
    | TypeError       // iterating over a value that is not iterable
    | AttributeError  // calling `.get` on a value that is not a dict
    | ValueError      // raised by the CLI commands for an invalid bounding box
}
