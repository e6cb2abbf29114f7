/** Option and Result, shared by the note store and the scheduler. */
module Wrappers {

  /** An optional value; in this model `None` also stands for a JavaScript
      number that is NaN (or, for a maximum, "no maximum at all"). */
  datatype Option<+T> = None | Some(value: T) {

    /** Returns the value in Some, or `default` for None. */
    function GetOr(default: T): T {
      match this
      case Some(v) => v
      case None => default
    }
  }

  /** The outcome of an edit: a new value, or the reason it was refused. */
  datatype Result<+R, +E> = Success(value: R) | Failure(error: E) {

    /** Returns the value in Success, or `default` for Failure. */
    function GetOr(default: R): R {
      match this
      case Success(v) => v
      case Failure(_) => default
    }
  }
}
