/** Optional values and outcomes shared by every module of the model. */
module Wrappers {

  /** A value that may be absent: models a nullable reference of the source. */
  datatype Option<+T> = None | Some(value: T)

  /** Either a value or an error. */
  datatype Result<+R, +E> = Success(value: R) | Failure(error: E)

  /** C# string concatenation treats a null operand as the empty string. */
  function OrEmpty(s: Option<string>): string
  {
    match s
    case Some(v) => v
    case None => ""
  }
}
