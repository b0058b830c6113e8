/**
 * Results shared by every module of the model: JavaScript's `undefined`
 * versus a value, and the exceptions a call can raise.
 */
module Results {

  /** A value that may be `undefined` in the source. */
  datatype Option<+T> = None | Some(value: T)

  /** What a `throw` in the source raises.
      - `TypeError` and `Error` are `new TypeError(message)` and `new Error(message)`;
      - `Thrown` is a bare string thrown as it is (`throw "..."`);
      - `Raised` is whatever a caller-supplied callback (a validator, a
        user action) throws; the engine only propagates it. */
  datatype Exception =
    | TypeError(message: string)
    | Error(message: string)
    | Thrown(text: string)
    | Raised(code: nat)

  /** The completion of a call that returns a value: it returns, or it throws. */
  datatype Result<+T> = Ok(value: T) | Throw(error: Exception)

  /** The completion of a call whose return value is ignored (or `undefined`). */
  datatype Outcome = Pass | Fail(error: Exception)
}
