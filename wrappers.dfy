/** Option and Result types shared by every module, and the errors the plugins raise. */
module Wrappers {

  datatype Option<+T> = None | Some(value: T) {
    predicate IsFailure() { None? }

    function PropagateFailure<U>(): Option<U>
      requires None?
    {
      None
    }

    function Extract(): T
      requires Some?
    {
      value
    }

    function GetOr(default: T): T {
      match this
      case Some(v) => v
      case None => default
    }
  }

  /**
   * What a plugin call throws: a `PluginError(code, message)` raised on purpose,
   * or any other exception (a TypeError, a SyntaxError from `BigInt`, an `Error`
   * from a helper, a failed network read), described by its kind.
   */
  datatype Error =
    | PluginError(code: int, message: string)
    | Thrown(kind: string)

  datatype Result<+T> = Ok(value: T) | Err(error: Error) {
    predicate IsFailure() { Err? }

    function PropagateFailure<U>(): Result<U>
      requires Err?
    {
      Err(error)
    }

    function Extract(): T
      requires Ok?
    {
      value
    }
  }
}
