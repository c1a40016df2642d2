/**
 * The parts of schema validation the application's forms share: an issue
 * is a message attached to a field, and string fields are checked for
 * length in the order the checks are declared, before any trimming, which
 * is declared last and therefore applies to the accepted value only.
 */
module Validation {
  import opened Wrappers

  datatype Issue = Issue(path: string, message: string)

  /** A parse either yields the transformed value or lists every issue found. */
  type Parsed<T> = Result<T, seq<Issue>>

  /** The issues of a `.min(lo, minMessage).max(hi, maxMessage)` string: at most one, since no length is below `lo` and above `hi`. */
  function LengthIssues(path: string, s: string, lo: nat, hi: nat, minMessage: string, maxMessage: string): (r: seq<Issue>)
    requires lo <= hi
    ensures r == [] <==> lo <= |s| <= hi
    ensures |s| < lo ==> r == [Issue(path, minMessage)]
    ensures |s| > hi ==> r == [Issue(path, maxMessage)]
  {
    (if |s| < lo then [Issue(path, minMessage)] else []) + (if |s| > hi then [Issue(path, maxMessage)] else [])
  }

  /** The issues of a `.max(hi, maxMessage)` string. */
  function MaxIssues(path: string, s: string, hi: nat, maxMessage: string): (r: seq<Issue>)
    ensures r == [] <==> |s| <= hi
  {
    if |s| > hi then [Issue(path, maxMessage)] else []
  }

  /** An issue raised when the check fails. */
  function Check(ok: bool, path: string, message: string): (r: seq<Issue>)
    ensures r == [] <==> ok
  {
    if ok then [] else [Issue(path, message)]
  }

  /** A field that may be left out (`.optional()`) or sent as `null` (`.nullable()`). */
  datatype OptionalText = Absent | Null | Given(text: string)
}
