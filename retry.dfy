/**
 * `error_wrapper`: await the wrapped call up to `MAX_RETRIES + 1` times. The
 * upstream's classified error and the HTTP client's transport error are retried and,
 * on the last attempt, turned into a JSON error response; any other exception
 * propagates at once.
 */
module RetryExecutor {
  import opened JsonValues
  import opened Upstream

  /** What `error_wrapper` ends with. */
  datatype Outcome<T> =
    /** The wrapped call's value. */
    | Returned(value: T)
    /** A `JSONResponse(body, status_code=status)`. */
    | ErrorResponse(status: int, body: Json)
    /** An exception the wrapper does not catch. */
    | Propagated(exception: Exception)
    /** The trailing `return None`. */
    | NoneReturned

  /** The two exception kinds the wrapper catches and retries. */
  predicate Retryable(e: Exception) {
    e.CursorWebError? || e.RequestException?
  }

  /** The response for a caught exception on the last attempt. */
  function ErrorResponseFor<T>(e: Exception): (r: Outcome<T>)
    requires Retryable(e)
    ensures e.CursorWebError? ==> r == ErrorResponse(e.statusCode, e.openAiError)
    ensures e.RequestException? ==> r.ErrorResponse? && r.status == 500
    ensures e.RequestException? ==>
      r.body == JObject(map["error" := JObject(map[
        "message" := JString(e.message), "type" := JString("http_error"), "code" := JString("http_error")])])
  {
    match e
    case CursorWebError(status, body) => ErrorResponse(status, body)
    case RequestException(message) =>
      ErrorResponse(500, JObject(map["error" := JObject(map[
        "message" := JString(message), "type" := JString("http_error"), "code" := JString("http_error")])]))
  }

  /**
   * The attempt loop. `attempt(k)` is what the `k`-th await of the wrapped call
   * gives; `calls` is how many awaits were made. The first success is returned;
   * a caught exception is retried until the attempt numbered `maxRetries`, whose
   * failure becomes the error response; any other exception propagates. Only a
   * negative `maxRetries` makes no call and returns None.
   */
  method ErrorWrapper<T>(maxRetries: int, attempt: nat -> Attempt<T>) returns (r: Outcome<T>, calls: nat)
    ensures maxRetries < 0 ==> calls == 0
    ensures maxRetries >= 0 ==> 1 <= calls <= maxRetries + 1
    ensures r.NoneReturned? <==> maxRetries < 0
    ensures forall k :: 0 <= k < calls - 1 ==> attempt(k).Raised? && Retryable(attempt(k).exception)
    ensures calls > 0 ==>
      match attempt(calls - 1)
      case Ok(v) => r == Returned(v)
      case Raised(e) =>
        if Retryable(e) then calls == maxRetries + 1 && r == ErrorResponseFor(e)
        else r == Propagated(e)
  {
    calls := 0;
    var k := 0;
    while k < maxRetries + 1
      invariant 0 <= k && (maxRetries >= 0 ==> k <= maxRetries) && (maxRetries < 0 ==> k == 0)
      invariant calls == k
      invariant forall j :: 0 <= j < k ==> attempt(j).Raised? && Retryable(attempt(j).exception)
    {
      var outcome := attempt(k);
      calls := calls + 1;
      match outcome {
        case Ok(v) =>
          return Returned(v), calls;
        case Raised(e) =>
          if !Retryable(e) {
            return Propagated(e), calls;
          }
          if k == maxRetries {
            return ErrorResponseFor(e), calls;
          }
      }
      k := k + 1;
    }
    r := NoneReturned;
  }
}
