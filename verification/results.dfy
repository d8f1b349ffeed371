/** How the model says that a getter delivered nothing and that a load stopped.
    `Option` is a value a getter may fail to deliver, and also a C# reference
    that may be null (a padded briefing name). `Result` is a load step's value
    or the error of the read that threw; `:-` passes that error on, as an
    uncaught exception leaves `Load`.
 */
module Results {

  datatype Option<+T> = None | Some(value: T) {

    predicate IsFailure() {
      None?
    }

    function PropagateFailure<U>(): Option<U>
      requires None?
    {
      None
    }

    function Extract(): T
      requires Some?
    {
      value
    }

    /** Turns an absent value into the given error. */
    function OrFail<E>(error: E): (r: Result<T, E>)
      ensures r.Success? <==> Some?
      ensures r.Success? ==> r.value == value
      ensures r.Failure? ==> r.error == error
    {
      match this
      case Some(v) => Success(v)
      case None => Failure(error)
    }
  }

  datatype Result<+T, +E> = Success(value: T) | Failure(error: E) {

    predicate IsFailure() {
      Failure?
    }

    function PropagateFailure<U>(): Result<U, E>
      requires Failure?
    {
      Failure(error)
    }

    function Extract(): T
      requires Success?
    {
      value
    }
  }
}
