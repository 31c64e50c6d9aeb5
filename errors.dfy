/**
 * Optional values and the decode errors both backends report.
 *
 * An error is reduced to what a caller can act on: the path from the
 * document root to the failure site (object keys and array indexes, in the
 * order the wrapping calls add them on the way out) and the kind of
 * failure. The text that errors.Wrap and fmt.Errorf put around it is not
 * modelled.
 */
module Errors {

  datatype Option<+T> = None | Some(value: T)

  /** One step of an error path: an object key or an array index. */
  datatype Segment = Key(name: string) | Index(i: nat)

  datatype ErrorKind =
    | UnexpectedKind     // a delimiter or scalar of the wrong kind
    | Malformed          // the input ends early, or no object key where one is due
    | TimestampParse     // the timestamp text is not RFC 3339 with fractional seconds
    | UnsupportedValue   // a dynamic-map value that has no flattening rule

  datatype Error = Error(path: seq<Segment>, kind: ErrorKind)

  /**
   * How a decode call ended: normally, with an error value, or with a Go
   * panic (which no decoder recovers from).
   */
  datatype Status = Ok | Fail(error: Error) | Panic

  /** A failure with no path yet, as the failing primitive reports it. */
  function Failure(kind: ErrorKind): Status
  {
    Fail(Error([], kind))
  }

  /**
   * errors.Wrap / errors.Wrapf: a failure gains one more outer path
   * segment; success and panics pass through.
   */
  function Wrap(st: Status, seg: Segment): (r: Status)
    ensures !st.Fail? ==> r == st
    ensures r.Fail? <==> st.Fail?
    ensures r.Fail? ==> r.error.kind == st.error.kind
    ensures r.Fail? ==> |r.error.path| > 0 && r.error.path[0] == seg && r.error.path[1..] == st.error.path
  {
    match st
    case Fail(e) => Fail(Error([seg] + e.path, e.kind))
    case _ => st
  }
}
