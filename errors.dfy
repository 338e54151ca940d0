/**
 * The package's error values: the sentinel errors every failure is reported
 * with, and the `Error` record a client keeps in its error slot.
 */
module Errors {
  import opened Wrappers

  /** The package-level sentinels created with `errors.New`. */
  datatype Kind = RRE | RSE | RPE | WAE | PAE | CDE | THW | BEW | BHW

  /**
   * A Go `error` value: one of the sentinels, or any other error (one made
   * ad hoc with `errors.New`, or one returned by the standard library).
   */
  datatype GoError = Sentinel(kind: Kind) | Failure(message: string)

  /** The message each sentinel was created with. */
  function KindMessage(k: Kind): string
  {
    match k
    case RRE => "could not read answer response"
    case RSE => "incorrect response status"
    case RPE => "response parsing error"
    case WAE => "address is wrong"
    case PAE => "no address(es) provided"
    case CDE => "cannot get data on url"
    case THW => "transaction hash is wrong"
    case BEW => "block height is wrong"
    case BHW => "block hash is wrong"
  }

  /** `err.Error()` for a Go error value. */
  function Message(e: GoError): string
  {
    match e
    case Sentinel(k) => KindMessage(k)
    case Failure(m) => m
  }

  /** An opaque HTTP response; only its status line is consulted. */
  datatype Response = Response(status: StatusLine, id: nat)

  /** net/http always fills `Status`, e.g. "200 OK"; it is never empty. */
  type StatusLine = s: string | |s| > 0 witness "200 OK"

  /**
   * The record stored in a client's error slot: the package sentinel, the
   * underlying library error, the HTTP response and the offending address,
   * each of the last three possibly nil.
   */
  datatype Error = Error(
    ErrorMain: GoError,
    ErrorExec: Option<GoError>,
    Response: Option<Response>,
    Address: Option<string>)

  /** `Error.Error()`: the text of the main error. */
  function ErrorString(e: Error): string
  {
    Message(e.ErrorMain)
  }

  /** No two sentinels share a message, so the text of a stored error names its sentinel. */
  lemma {:induction false} ErrorStringNamesSentinel(x: Error, y: Error)
    requires x.ErrorMain.Sentinel? && y.ErrorMain.Sentinel?
    requires ErrorString(x) == ErrorString(y)
    ensures x.ErrorMain == y.ErrorMain
  {
  }
}
