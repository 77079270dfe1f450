/**
  The errors the bridge produces or passes on. A Go `error` return is an
  `Option<Error>` in this model, `None` standing for nil.
*/
module Errors {

  datatype Error =
    /** context.Canceled */
    | Canceled
    /** an error from code outside the model, seen only as its message */
    | Foreign(text: string)
    /** an error from code outside the model that wraps another one (it has an Unwrap method) */
    | ForeignWrapping(text: string, cause: Error)
    /** "missing mappings" */
    | MissingMappings
    /** "missing metricName" */
    | MissingMetricName
    /** "missing metricType" */
    | MissingMetricType
    /** "missing knxGroupAddress" */
    | MissingKnxGroupAddress
    /** "missing server.host" */
    | MissingServerHost
    /** "missing server.port" */
    | MissingServerPort
    /** "missing server.path" */
    | MissingServerPath
    /** "mapping %d (%s): %s", formatted with %s, so it does not wrap its cause */
    | MappingFailed(index: nat, metricName: string, cause: Error)
    /** "knxrpc stream closed: %s", does not wrap its cause */
    | StreamClosed(cause: Error)
    /** "unable to build metrics.path: %s", does not wrap its cause */
    | MetricsPathFailed(cause: Error)
    /** ErrInvalidAuthCredentials */
    | InvalidAuthCredentials

  /**
    errors.Is(e, context.Canceled): follows the chain of wrapped errors.
    Errors built with fmt.Errorf and %s end the chain.
  */
  predicate IsCanceled(e: Error)
    ensures IsCanceled(e) ==> e.Canceled? || e.ForeignWrapping?
  {
    match e
    case Canceled => true
    case ForeignWrapping(_, cause) => IsCanceled(cause)
    case _ => false
  }

  /** The errors errors.Is visits: `e` itself, then each error its Unwrap returns. */
  function Chain(e: Error): (c: seq<Error>)
    ensures |c| >= 1 && c[0] == e
  {
    match e
    case ForeignWrapping(_, cause) => [e] + Chain(cause)
    case _ => [e]
  }

  /** errors.Is(e, context.Canceled) holds exactly when context.Canceled is somewhere on the chain. */
  lemma {:induction false} IsCanceledOnChain(e: Error)
    ensures IsCanceled(e) <==> Canceled in Chain(e)
  {
    match e
    case ForeignWrapping(_, cause) =>
      IsCanceledOnChain(cause);
      assert Chain(e) == [e] + Chain(cause);
    case _ =>
  }
}
