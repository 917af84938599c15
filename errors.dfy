/** Failure values shared by every part of the bot. */
module Errors {

  datatype Option<+T> = None | Some(value: T)

  /** The outcome of a Python call that either returns a value or raises. */
  datatype Result<+T> = Ok(value: T) | Err(error: Error)

  /** The exception classes that can reach the poll loop of the bot. */
  datatype ErrorKind =
    | TypeError          // builtin TypeError
    | KeyError           // builtin KeyError
    | ValueError         // builtin ValueError
    | AttributeError     // builtin AttributeError (a method called on the wrong JSON type)
    | EndpointResponse   // EndpointResponseException: the API answered with a non-200 status
    | DoNotSendToBot     // DoNotSendToBotException: the messenger failed to deliver
    | Generic            // a bare Exception raised by get_api_answer

  /** An exception value: its class and the text it was raised with. */
  datatype Error = Error(kind: ErrorKind, msg: string)
}
