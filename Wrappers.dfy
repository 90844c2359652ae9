/** Option and Result: the absent-value sentinel (`None`) and the raise-or-return
    outcome of the modelled operations. */
module Wrappers {

  datatype Option<+T> = None | Some(value: T) {
    /** The value, or `default` when absent. */
    function GetOr(default: T): T {
      match this
      case Some(v) => v
      case None => default
    }
  }

  datatype Result<+R, +E> = Ok(value: R) | Err(error: E)

  /** A scalar held in one of the source's free-form `dict[str, Any]` maps. */
  datatype Value = Null | Bool(b: bool) | Num(n: int) | Str(s: string)
}
