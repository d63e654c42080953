/** Option and Result values, used wherever the source returns `undefined`/`null`
 *  or throws. */
module Wrappers {

  datatype Option<T> = None | Some(value: T) {
    predicate IsSome() { this.Some? }

    function GetOr(default: T): (r: T)
      ensures this.Some? ==> r == value
      ensures this.None? ==> r == default
    {
      match this
      case Some(v) => v
      case None => default
    }
  }

  datatype Result<T, E> = Ok(value: T) | Err(error: E)
}
