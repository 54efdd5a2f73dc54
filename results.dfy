/** Error kinds and result wrappers returned by the order book's operations. */
module Results {

  /** The ways an order-book call can fail. */
  datatype Error = InvalidSide | DuplicateOrderId | OrderNotFound | LevelOutOfRange

  datatype Option<T> = None | Some(value: T)

  /** A value, or the error that prevented computing it. */
  datatype Result<T> = Ok(value: T) | Err(error: Error) {
    predicate IsFailure() {
      Err?
    }

    function PropagateFailure<U>(): (r: Result<U>)
      requires Err?
    {
      Err(error)
    }

    function Extract(): (v: T)
      requires Ok?
    {
      value
    }
  }

  /** The outcome of a call that changes the book and returns nothing else. */
  datatype Outcome = Pass | Fail(error: Error)

  function ToOutcome<T>(r: Result<T>): (o: Outcome) {
    match r
    case Ok(_) => Pass
    case Err(e) => Fail(e)
  }
}
