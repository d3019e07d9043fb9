/** Option and Result: the absent value and the raised exception, as data. */
module Wrappers {

  datatype Option<+T> = None | Some(value: T)
  {
    function GetOr(default: T): T
    {
      match this
      case Some(v) => v
      case None => default
    }
  }

  /** `Err` carries what the Python code would have raised. */
  datatype Result<+T, +E> = Ok(value: T) | Err(error: E)
}
