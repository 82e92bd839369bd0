/** Optional values, the exceptions the login core can raise, and results that carry them. */
module Outcomes {

  datatype Option<T> = None | Some(value: T)

  /** The .NET exceptions that escape (or are caught by) the modelled code. */
  datatype Fault =
    | WebError            // System.Net.WebException: the transport failed or the server answered with an error status
    | ArgumentOutOfRange  // String.Substring called with a negative length or a range past the end
    | ApplicationError    // ApplicationException thrown when a folder tree cannot be retrieved

  /** A value, or the exception that was thrown instead of returning it. */
  datatype Result<T> = Ok(value: T) | Err(fault: Fault)
}
