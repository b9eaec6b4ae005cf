/** Option and Result values: `None` stands for Python's `None`, and
    `Result` carries the exceptions the record store raises. */
module Wrappers {

  datatype Option<+T> = None | Some(value: T)

  /** The Python exception kinds the modelled code can raise. */
  datatype Error =
    | ValueError(message: string)      // raised explicitly, e.g. "Map 3 not found"
    | AttributeError(message: string)  // a JSON table that is not an object
    | TypeError(message: string)       // formatting `None` with a `03d` spec

  datatype Result<+T> = Ok(value: T) | Err(error: Error)

}
