/** Result shapes of the C# code: a reference that may be null, and a call that may throw. */
module Wrappers {

  /** A C# reference that may be null. */
  datatype Option<+T> = None | Some(value: T) {
    function GetOr(default: T): T {
      match this
      case Some(v) => v
      case None => default
    }
  }

  /** A call that either throws (the exception is caught by a request handler) or returns. */
  datatype Attempt<+T> = Threw | Done(result: T)

  /** C# string concatenation treats a null string as the empty string. */
  function OrEmpty(s: Option<string>): string {
    s.GetOr("")
  }
}
