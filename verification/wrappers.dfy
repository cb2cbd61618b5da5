/**
 * Small result types shared by the model.
 *
 * `Option` stands for Python's `None`-or-value; `Attempt` stands for a call
 * into code outside the model that either returns a value or raises an
 * exception (whose text is kept, because some callers format it).
 */
module Wrappers {

  datatype Option<+T> = None | Some(value: T) {
    function GetOr(default: T): (r: T)
      ensures Some? ==> r == value
      ensures None? ==> r == default
    {
      match this
      case Some(v) => v
      case None => default
    }
  }

  datatype Attempt<+T> = Returned(value: T) | Raised(message: string)
}
