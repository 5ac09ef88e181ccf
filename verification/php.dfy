/**
 The slice of PHP's runtime semantics the middleware depends on: boolean
 conversion ("truthiness"), string conversion for concatenation, and the
 classes of throwables its `catch` clauses distinguish.
 */
module Php {

  /** A value read from the environment with `env(...)`: unset, a boolean, or a string. */
  datatype Scalar = Null | Bool(b: bool) | Str(s: string)

  /** PHP's conversion to bool: null, false, "" and "0" are falsy, every other string is truthy. */
  predicate Truthy(v: Scalar)
    ensures Truthy(v) ==> !v.Null? && v != Bool(false)
    ensures v == Str("") || v == Str("0") ==> !Truthy(v)
    ensures v.Str? && |v.s| >= 2 ==> Truthy(v)
  {
    match v
    case Null => false
    case Bool(b) => b
    case Str(s) => s != "" && s != "0"
  }

  /** PHP's conversion to string, as the `.` operator applies it. */
  function ToStr(v: Scalar): (s: string)
    ensures v.Str? ==> s == v.s
    ensures Truthy(v) ==> s != ""
  {
    match v
    case Null => ""
    case Bool(b) => if b then "1" else ""
    case Str(s) => s
  }

  /**
   Throwables by the class hierarchy the `catch` clauses test:
   anything implementing `GuzzleException` (all concrete ones extend
   `\Exception`), any other `\Exception`, and engine errors (`\Error`,
   such as `TypeError`) that are not `\Exception` at all.
   */
  datatype ThrowableClass = GuzzleException | PlainException | EngineError

  datatype Throwable = Throwable(cls: ThrowableClass, message: string, code: int)

  /** `$e instanceof \Exception` */
  predicate IsException(e: Throwable) {
    e.cls != EngineError
  }

  /** The result of a call into code that may throw. */
  datatype Fallible<+T> = Returned(value: T) | Raised(exc: Throwable)
}
