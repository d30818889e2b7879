/** Failure-carrying result types shared by the model, and the Python
    exceptions the modelled code raises. */
module Wrappers {

  datatype Option<+T> = None | Some(value: T)

  datatype Result<+R, +E> = Success(value: R) | Failure(error: E)

  datatype Outcome<+E> = Pass | Fail(error: E)

  /** The exceptions raised by the modelled code, named as in Python. */
  datatype Error =
    | AssertionError(message: string)
    | KeyError(key: string)
    | IndexError
    | AttributeError(what: string)
    | IOError(path: string)
    | CalledProcessError(argv: seq<string>)
    | UnregisteredHookError(hook: string)
}
