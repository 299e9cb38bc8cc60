// Values that stand for Python's None, for raised exceptions, and for real time.
module Wrappers {
  datatype Option<+T> = None | Some(value: T)

  // Seconds since the epoch. Float and timedelta rounding are not modelled.
  type Time = real

  // One draw of random.random(), scaled by uniform(0, x) to x * u.
  type Unit = u: real | 0.0 <= u <= 1.0 witness 0.0

  // The exceptions that can leave an operation and make its transaction roll back.
  datatype Fault = ConnectionLost | IntegrityError | MessageNotFound | ChannelRaised

  // The end of a statement that returns nothing: normally, or by an exception.
  datatype Status = Ok | Raised(fault: Fault) {
    predicate IsFailure() { Raised? }

    function PropagateFailure(): Status
      requires Raised?
    {
      this
    }
  }

  // The end of a statement that returns a value, or raises.
  datatype Result<+T> = Success(value: T) | Failure(fault: Fault) {
    predicate IsFailure() { Failure? }

    function PropagateFailure(): Status
      requires Failure?
    {
      Raised(fault)
    }

    function Extract(): T
      requires Success?
    {
      value
    }
  }
}
