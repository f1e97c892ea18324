/** Failure-carrying values shared by the registry, the context manager and the plugin.
    The source reports failures by throwing; the model returns them as `Err`. */
module Outcomes {

  /** A value that may be absent: `undefined` from a map lookup, `null` in the context slot. */
  datatype Option<+T> = None | Some(value: T)

  /** Every failure the core can raise. */
  datatype Error =
    | ConstructionFailed(kind: string)  // the factory could not construct an instance of the kind
    | NoCurrentContext                  // the checked accessor found the context slot empty
    | Thrown(message: string)           // an exception raised by user code run inside a scope

  /** The outcome of an operation that returns a value or throws. */
  datatype Result<+T> = Ok(value: T) | Err(error: Error)
}
