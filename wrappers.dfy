/** Small result types shared by the modules of the dashboard model. */
module Wrappers {

  datatype Option<+T> = None | Some(value: T)

  /** The Python exceptions the modelled code can raise.  A failed HTTP request,
      a non-2xx status (raise_for_status) and an unreadable JSON body are all
      RequestError. */
  datatype Exception = RequestError | KeyError | TypeError | ValueError | ZeroDivisionError

  /** What a Python call does: it returns a value or raises an exception. */
  datatype Outcome<+T> = Returns(value: T) | Raises(error: Exception) {

    predicate IsFailure() {
      Raises?
    }

    function PropagateFailure<U>(): Outcome<U>
      requires Raises?
    {
      Raises(error)
    }

    function Extract(): T
      requires Returns?
    {
      value
    }
  }
}
