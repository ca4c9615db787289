// Shared result types: an optional value (Python's None / JavaScript's null)
// and the outcome of a step that may raise an exception.
module Wrappers {

  datatype Option<T> = None | Some(value: T) {
    function GetOr(default: T): (r: T)
      ensures Some? ==> r == value
      ensures None? ==> r == default
    {
      match this
      case Some(v) => v
      case None => default
    }
  }

  /** A Python step that either returns a value or raises (any exception type). */
  datatype Outcome<T> = Ok(value: T) | Raised {
    /** `try: ... except Exception: pass` around a step whose result is optional. */
    function Swallow(): (r: Option<T>)
      ensures r.Some? <==> Ok?
      ensures Ok? ==> r.value == value
    {
      match this
      case Ok(v) => Some(v)
      case Raised => None
    }
  }
}
