/** Error values and the Option/Result wrappers the model uses in place of
    Go's `(value, error)` pairs, nil results and run-time panics. */
module Errors {

  datatype Option<+T> = None | Some(value: T)

  /** The error kinds the receiver produces.  A Go panic (index out of range,
      failed type assertion) is modelled as an error value of kind `Panic`,
      because it ends the call just as an error return does. */
  datatype Error =
    | InvalidTokens                                   // "invalid number of tokens"
    | NumRange(text: string)                          // strconv.ParseInt: value out of range
    | Panic(reason: string)                           // a Go run-time panic
    | UnknownMeasurement(measurement: string)         // "Unknown measurement \"%s\" encountered"
    | UnknownEnrichment(name: string)                 // "Unknown enrichment \"%s\" encountered"
    | EnrichmentUnavailable(setName: string)          // EnrichTags against an invalid cache
    | SinkFailure(step: string)                       // a driver call of a sink failed
    | CopyCountMismatch(expected: int, got: int)      // CopyFrom copied a different number of rows
    | Wrapped(context: string, cause: Error)          // fmt.Errorf("...: %w", cause)

  datatype Result<+T> = Ok(value: T) | Err(error: Error)

  /** `f` applied to every element in order, stopping at the first error. */
  function AllOk<A, B>(xs: seq<A>, f: A -> Result<B>): Result<seq<B>>
    decreases |xs|
  {
    if |xs| == 0 then Ok([])
    else
      match AllOk(xs[..|xs| - 1], f)
      case Err(e) => Err(e)
      case Ok(acc) =>
        match f(xs[|xs| - 1])
        case Err(e) => Err(e)
        case Ok(y) => Ok(acc + [y])
  }

  /** The whole succeeds iff every element does, and then holds their
      results in order. */
  lemma {:induction false} AllOkPointwise<A, B>(xs: seq<A>, f: A -> Result<B>)
    ensures AllOk(xs, f).Ok? <==> forall j | 0 <= j < |xs| :: f(xs[j]).Ok?
    ensures AllOk(xs, f).Ok? ==>
      |AllOk(xs, f).value| == |xs| &&
      forall j | 0 <= j < |xs| :: AllOk(xs, f).value[j] == f(xs[j]).value
    decreases |xs|
  {
    if |xs| > 0 {
      var n := |xs| - 1;
      AllOkPointwise(xs[..n], f);
      assert forall j | 0 <= j < n :: xs[..n][j] == xs[j];
    }
  }
}
