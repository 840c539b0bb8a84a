/** Small value wrappers shared by every module: an optional value (standing
    for a .NET reference that may be null), a success-or-failure result, and
    the `string.IsNullOrEmpty` test the source applies to its inputs. */
module Wrappers {

  /** `None` is the null reference, `Some(v)` a present value. */
  datatype Option<+T> = None | Some(value: T) {
    function GetOr(default: T): T {
      match this
      case Some(v) => v
      case None => default
    }
  }

  /** The outcome of an operation that can fail (an exception in the source). */
  datatype Result<+R, +E> = Success(value: R) | Failure(error: E)

  /** `string.IsNullOrEmpty`: a null string or the empty string. */
  predicate IsNullOrEmpty(s: Option<string>) {
    s.None? || s.value == ""
  }
}
