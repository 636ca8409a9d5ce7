/**
 * `safe_stream_wrapper`: pull the first item of a generator before any streaming
 * response exists, so that a failure there reaches the caller as an ordinary
 * exception; afterwards replay that item followed by the rest.
 */
module SafeStreamGate {
  import opened Optional
  import opened Upstream
  import opened StreamTranslator

  /**
   * The stream handed to the SSE response, or the exception raised by the first
   * pull: the generator's own, or `StopAsyncIteration` when it yields nothing.
   * The stream is the first item followed by the rest, which is the input itself.
   */
  function SafeStreamWrapper<T>(generator: Source<T>): (r: Attempt<Source<T>>)
    ensures r.Ok? <==> |generator.items| > 0
    ensures r.Ok? ==> r.value == generator
    ensures r.Raised? ==> r.exception == generator.failure.GetOr(StopAsyncIteration)
  {
    if |generator.items| == 0 then Raised(generator.failure.GetOr(StopAsyncIteration))
    else
      var firstItem := generator.items[0];
      var rest := generator.items[1..];
      Ok(Source([firstItem] + rest, generator.failure))
  }

  /**
   * Gating the streaming translator: the gate raises exactly when the upstream's
   * very first pull raises, and then with that exception; an upstream that yields
   * nothing at all still produces a stream (the `stop` chunk and `[DONE]`).
   */
  lemma GatedSession(model: string, src: Source<string>, env: Env, extract: Extractor)
    ensures var gated := SafeStreamWrapper(Session(model, src, env, extract).output);
      && (gated.Raised? <==> src.items == [] && src.failure.Some?)
      && (gated.Raised? ==> gated.exception == src.failure.value)
      && (gated.Ok? ==> gated.value == Session(model, src, env, extract).output)
  {
    var ev := Session(model, src, env, extract).output.items;
    SessionEnds(model, src, env, extract);
    if src.items != [] {
      ContentChunks(model, src, env, extract);
      if FirstDetectionFrom(src.items, 0, extract) == Some(0) {
        assert |ev| >= 2;
      }
    }
  }
}
