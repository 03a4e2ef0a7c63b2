/** Optional values and results carrying an error, used wherever the scheduler
    either returns null or throws. */
module Outcomes {

  /** A value that may be absent (Java's null). */
  datatype Option<+T> = None | Some(value: T) {

    /** The value, or `default` when absent. */
    function GetOr(default: T): T {
      match this
      case Some(v) => v
      case None => default
    }
  }

  /** Either a value or the exception the source would throw instead. */
  datatype Result<+T, +E> = Ok(value: T) | Err(error: E)

  /** The exceptions the modelled code can raise. */
  datatype Fault =
    | ConfigurationException(message: string)
    | SchedulerException(message: string)
    | IllegalArgumentException(message: string)
}
