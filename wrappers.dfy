/** Outcome types shared by the provider model: Go's `error` values, the
    outcome of one metadata fetch, and Go's `(string, error)` return pair. */
module Wrappers {

  datatype Option<+T> = None | Some(value: T)

  /** The errors the provider can hand back. Error texts are not modelled:
      each fixed `fmt.Errorf` message is one distinguished constant, and an
      error raised by the metadata accessor keeps its own detail. */
  datatype Error =
    | MetaError(detail: string)       // raised by the metadata accessor
    | AttestationRetrievalFailed      // the one error AttestationData reports
    | NotImplemented                  // the error PrepareKey reports

  /** Outcome of one metadata fetch: the fetched value, or the accessor's error. */
  datatype Result<+T> = Ok(value: T) | Err(error: Error)

  /** Go's `(string, error)` pair: a value and a possibly nil error. */
  datatype Reply = Reply(value: string, err: Option<Error>)

  /** Reads a Go reply the way a caller does: a non-nil error wins, and
      otherwise the value is the answer. */
  function ToResult(r: Reply): (res: Result<string>)
    ensures res.Err? <==> r.err.Some?
    ensures res.Ok? ==> res.value == r.value
    ensures res.Err? ==> res.error == r.err.value
  {
    match r.err
    case Some(e) => Err(e)
    case None => Ok(r.value)
  }

  /** The reply Go code writes for a fetch outcome under the usual
      `if err != nil { return "", err }` idiom. */
  function FromResult(res: Result<string>): (r: Reply)
    ensures r.err.Some? <==> res.Err?
    ensures r.err.Some? ==> r.value == ""
    ensures res.Ok? ==> r.value == res.value
  {
    match res
    case Ok(v) => Reply(v, None)
    case Err(e) => Reply("", Some(e))
  }

  /** Writing a fetch outcome as a Go reply loses nothing. */
  lemma ResultReplyRoundTrip(res: Result<string>)
    ensures ToResult(FromResult(res)) == res
  {
  }
}
