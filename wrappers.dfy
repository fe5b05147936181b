/** Option and Result values used across the model. A Result carries the
    message of the exception that the JavaScript code would have thrown. */
module Wrappers {

  datatype Option<+T> = None | Some(value: T)

  datatype Result<+T> = Ok(value: T) | Err(error: string)
}
