/** Python's `None`-or-value and success-or-exception, as datatypes. */
module Wrappers {

  datatype Option<+T> = None | Some(value: T) {
    function GetOr(default: T): (r: T) {
      match this
      case Some(v) => v
      case None => default
    }
  }

  /** The exceptions the modelled code raises itself. */
  datatype Error = TypeError | ValueError | AttributeError | RecursionError | StorageError

  datatype Result<+T> = Ok(value: T) | Err(error: Error)
}
