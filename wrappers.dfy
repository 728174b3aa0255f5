/** Option and Result: how the model spells the source's `None` returns and its
    error and warning branches. */
module Wrappers {

  datatype Option<+T> = None | Some(value: T) {
    function GetOr(default: T): T {
      match this
      case Some(v) => v
      case None => default
    }
  }

  /** `Err` carries the message the page shows instead of the analysis. */
  datatype Result<+T> = Ok(value: T) | Err(message: string)
}
