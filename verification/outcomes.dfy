/** Failure carriers for the waveform utilities: the Python exception each
    failure raises, and Option/Result values that hold either an answer or
    the failure that replaced it. */
module Outcomes {

  /** Python's None or a present value. */
  datatype Option<T> = None | Some(value: T) {

    /** The value held, or `default` when there is none. */
    function GetOr(default: T): T {
      match this
      case Some(v) => v
      case None => default
    }
  }

  /** The Python exception classes the utilities raise. */
  datatype ExceptionClass = ValueError | TypeError | IndexError

  /** Every way an operation of the model can fail. */
  datatype Error =
    | SizeMismatch                    // coalignment without resizing: unequal or odd lengths
    | MissingTaperMethod              // tapering requested with no method
    | UnknownTaperMethod(name: string) // tapering method that is not a key of the taper map
    | UnsupportedDType                // tapering data that is neither float32 nor float64
    | EmptyPhase                      // the first sample of an empty phase array
    | TooFewNonzero                   // fewer than two nonzero frequency-domain samples
  {
    /** The exception class the failure surfaces as. */
    function Raises(): ExceptionClass {
      match this
      case SizeMismatch => ValueError
      case MissingTaperMethod => ValueError
      case UnknownTaperMethod(_) => ValueError
      case UnsupportedDType => TypeError
      case EmptyPhase => IndexError
      case TooFewNonzero => IndexError
    }
  }

  /** The answer of an operation that may raise. */
  datatype Result<T> = Ok(value: T) | Err(error: Error) {

    predicate IsFailure() {
      Err?
    }

    /** The same failure, as a result of another value type. */
    function PropagateFailure<U>(): Result<U>
      requires Err?
    {
      Err(error)
    }

    function Extract(): T
      requires Ok?
    {
      value
    }
  }
}
