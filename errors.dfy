/**
  The exceptions a run can raise, as values.

  The four application errors of exception.py (all raised with an explicit
  message in the modelled code) and every other exception the pipeline can
  meet (Python built-ins such as IndexError, library errors) under the name
  Python prints for its class.
 */
module Errors {

  datatype Error =
    | NetworkError(msg: string)
    | UnauthorizedError(msg: string)
    | DataError(msg: string)
    | NotFound(msg: string)
      /** Any other exception: `qualName` is what `type(e)` prints between the quotes. */
    | Raised(qualName: string, msg: string)

  datatype Option<T> = None | Some(value: T)

  datatype Result<T> = Ok(value: T) | Err(error: Error)

  /** The fully qualified class name of the exception; the application errors live in module `exception`. */
  function QualName(e: Error): string
  {
    match e
    case NetworkError(_) => "exception.NetworkError"
    case UnauthorizedError(_) => "exception.UnauthorizedError"
    case DataError(_) => "exception.DataError"
    case NotFound(_) => "exception.NotFound"
    case Raised(q, _) => q
  }

  /** `str(e)`: an exception built from one message prints as that message. */
  function Message(e: Error): string
  {
    match e
    case NetworkError(m) => m
    case UnauthorizedError(m) => m
    case DataError(m) => m
    case NotFound(m) => m
    case Raised(_, m) => m
  }

  /** `str(type(e))`, e.g. `<class 'exception.DataError'>`. */
  function TypeRepr(e: Error): string
  {
    "<class '" + QualName(e) + "'>"
  }

  /** Python's `s[lo:hi]`: negative bounds count from the end, then both are clamped to the string. */
  function PySlice(s: string, lo: int, hi: int): (r: string)
    ensures |r| <= |s|
  {
    var a := Clamp(if lo < 0 then lo + |s| else lo, |s|);
    var b := Clamp(if hi < 0 then hi + |s| else hi, |s|);
    if a < b then s[a..b] else ""
  }

  function Clamp(i: int, n: nat): (r: nat)
    ensures r <= n
  {
    if i < 0 then 0 else if i > n then n else i
  }

  /**
    The terminal progress line for a failed run, built as core.py builds it
    (`str(type(e))[8:-2]` strips `<class '` and `'>`); the ensures states that
    the kind it reports is exactly the exception's qualified class name.
   */
  function FailureLine(e: Error): (line: string)
    ensures line == "Failed: " + QualName(e) + ":" + Message(e)
  {
    var repr := TypeRepr(e);
    assert repr[8..|repr| - 2] == QualName(e);
    "Failed: " + PySlice(repr, 8, -2) + ":" + Message(e)
  }
}
