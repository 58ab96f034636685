/** Optional values, results and the errors the task-line code throws. */
module Results {

  /** A value that may be absent (`undefined` in the source). */
  datatype Option<+T> = None | Some(value: T) {
    function GetOr(default: T): T {
      match this
      case Some(v) => v
      case None => default
    }
  }

  /** The ways the modelled operations fail. Every `throw` of the source becomes one of these. */
  datatype Error =
    | NotATask                          // the checkbox pattern did not match the line
    | UnknownStatusSymbol(symbol: string)
    | InvalidTime                       // utils.parseTime rejected its input
    | InvalidDuration                   // utils.parseDuration rejected its input
    | UndefinedField(index: nat)        // a split array was read past its end

  /** The message the source attaches to each error. */
  function Message(e: Error): string {
    match e
    case NotATask => "Line does not match task regex"
    case UnknownStatusSymbol(s) => "Unknown status symbol: " + s
    case InvalidTime => "Invalid time string. Expected format: HH:mm."
    case InvalidDuration => "Invalid duration string. Expected format: HH:mm."
    case UndefinedField(_) => "Cannot read properties of undefined (reading 'match')"
  }

  /** Either a value or the error that a source function would have thrown. */
  datatype Result<+T> = Ok(value: T) | Err(error: Error) {
    predicate IsFailure() {
      Err?
    }

    function PropagateFailure<U>(): Result<U>
      requires Err?
    {
      Err(error)
    }

    function Extract(): T
      requires Ok?
    {
      value
    }
  }
}
