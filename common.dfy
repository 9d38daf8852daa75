/** Option and Result, and the exceptions that escape the application's operations. */
module Common {

  datatype Option<+T> = None | Some(value: T) {
    function GetOr(default: T): T {
      match this
      case Some(v) => v
      case None => default
    }
  }

  /** The exceptions the application code lets propagate. */
  datatype Exception =
    | ProcessFailed            // Symfony Process threw (timeout after 180 s, or the command could not start)
    | InvalidJson              // RuntimeException('Gemini returned invalid JSON')
    | ModelNotFound(model: string)  // Eloquent findOrFail found no row
    | ArrayToString            // ErrorException: the "Array to string conversion" warning of a (string) cast

  /** A value, or the exception thrown instead of returning one. */
  datatype Result<+T> = Ok(value: T) | Err(error: Exception) {
    predicate IsFailure() { Err? }

    function PropagateFailure<U>(): Result<U>
      requires Err?
    {
      Err(error)
    }

    function Extract(): T
      requires Ok?
    {
      value
    }
  }
}
