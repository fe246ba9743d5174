/** Optional values and results shared by every module of the model. */
module Common {

  /** A value that may be absent: `null`/`undefined` in the service code. */
  datatype Option<+T> = None | Some(value: T) {
    function GetOr(default: T): T {
      match this
      case Some(v) => v
      case None => default
    }
  }

  /** The outcome of an operation that can throw: `Failure` carries the thrown value. */
  datatype Result<+R, +E> = Success(value: R) | Failure(error: E)

  /** An octet. */
  type Byte = b: int | 0 <= b < 256

  function Max(a: int, b: int): int {
    if a < b then b else a
  }

  function Min(a: int, b: int): int {
    if a < b then a else b
  }
}
