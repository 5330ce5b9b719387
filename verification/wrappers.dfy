// Option and Result, the two shapes in which the pipeline reports "nothing"
// and "this step raised".
module Wrappers {

  datatype Option<+T> = None | Some(value: T) {
    predicate IsSome() { Some? }

    function GetOr(default: T): (r: T)
      ensures Some? ==> r == value
      ensures None? ==> r == default
    {
      match this
      case None => default
      case Some(v) => v
    }
  }

  /** A step that either produced a value or raised; the error carries no payload
      because every handler in the pipeline logs it and moves on. */
  datatype Result<+T> = Ok(value: T) | Failure {
    function ToOption(): (r: Option<T>)
      ensures r.Some? <==> Ok?
      ensures Ok? ==> r.value == value
    {
      match this
      case Ok(v) => Some(v)
      case Failure => None
    }
  }
}
