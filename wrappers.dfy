/** Option and Result, used for the values that may be missing and for the
    operations that raise an exception in the system being modelled. */
module Wrappers {

  datatype Option<+T> = None | Some(value: T)

  /** `Err` carries the message of the exception the operation raises. */
  datatype Result<+T> = Ok(value: T) | Err(msg: string)
}
