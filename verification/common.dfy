/** Failure-compatible wrappers shared by every module of the model. */
module Common {

  /** An optional value: PHP's `null` is `None`. */
  datatype Option<+T> = None | Some(value: T) {
    function GetOr(default: T): T {
      if Some? then value else default
    }
  }

  /** The exceptions the modelled code raises or the error paths it has. */
  datatype Error =
    | InvalidArgument(message: string)
    | MissingDeferredConfig(path: string)

  /** The outcome of an operation that can throw. */
  datatype Result<+T> = Success(value: T) | Failure(error: Error)
}
