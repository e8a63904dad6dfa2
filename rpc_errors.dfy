/** The error classes of rpc.py and the Python-level outcome of a call: either a
    returned value or a raised exception. Exceptions that are not subclasses of
    `rpc.Error` matter to the model because `TCPRequestHandler.handle` only
    catches `rpc.Error`.
 */
module RpcErrors {

  /** The seven subclasses of `rpc.Error`. */
  datatype ErrorKind =
    | ParseError
    | InvalidRequestError
    | MethodNotFoundError
    | InvalidParamsError
    | InvalidResponseError
    | ProtocolError
    | InternalError

  /** An instance of one of those classes; `args` is the exception's argument tuple.
      Every error raised by the core is built from a single string argument. */
  datatype Error = Error(kind: ErrorKind, args: seq<string>)

  /** A raised Python exception: an `rpc.Error`, or one of the built-in
      exceptions the core lets escape (a `TypeError` from a bad subscript, a bad
      `*args` or `raise None`; a `NameError` from an undefined global), or an
      exception of class `cls` outside `Exception` (SystemExit,
      KeyboardInterrupt, GeneratorExit, an old-style class instance), which no
      `except Exception` catches. */
  datatype PyException =
    | RpcError(error: Error)
    | TypeError
    | NameError(name: string)
    | NonException(cls: string)

  /** The outcome of a Python call. */
  datatype Outcome<+T> = Return(value: T) | Raise(exc: PyException)

  datatype Option<+T> = None | Some(value: T)

  /** `raise K(message)` for an error kind K. */
  function Fail<T>(kind: ErrorKind, message: string): Outcome<T>
  {
    Raise(RpcError(Error(kind, [message])))
  }

  /** Whether `except Error` catches the exception. */
  predicate Caught(e: PyException)
  {
    e.RpcError?
  }
}
