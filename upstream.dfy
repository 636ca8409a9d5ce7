/**
 * Exceptions the core distinguishes, and lazy sequences modelled as finite
 * values: a generator yields its items in order and then either stops or raises.
 */
module Upstream {
  import opened Optional
  import opened JsonValues

  datatype Exception =
    /** The upstream's own classified error: its HTTP status and its OpenAI-style error body. */
    | CursorWebError(statusCode: int, openAiError: Json)
    /** A transport failure from the HTTP client; `message` is `str(e)`. */
    | RequestException(message: string)
    /** Raised by `__anext__()` on an exhausted generator. */
    | StopAsyncIteration
    /** Any other exception, named by its type. */
    | OtherException(kind: string)

  /** The outcome of an awaited call: a value, or an exception it raised. */
  datatype Attempt<T> = Ok(value: T) | Raised(exception: Exception)

  /** A generator: the items it yields, then `failure` raised (Some) or a normal end (None). */
  datatype Source<T> = Source(items: seq<T>, failure: Option<Exception>)
}
