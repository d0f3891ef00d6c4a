/** The exceptions the connection layer raises, each with the message it carries. */
module Errors {
  import opened Wrappers

  datatype Error =
      /** A required argument of `connect` is missing or empty. */
    | ConfigurationError(message: string)
      /** An operation on a connection that is already closed. */
    | ConnectionClosedError(message: string)
      /** The requested engine exists but its status is not "Running". */
    | EngineNotRunningError(engineName: string)
      /** The requested database is not the one the engine is attached to. */
    | InterfaceError(message: string)
      /** A failed `assert` statement (Python's AssertionError). */
    | AssertionError
      /** An error raised by a remote lookup (account, engine or database resolution). */
    | RemoteError(message: string)

  /** Python's `str()` of an optional string: `None` prints as "None". */
  function Str(o: Option<string>): string {
    match o
    case None => "None"
    case Some(s) => s
  }
}
