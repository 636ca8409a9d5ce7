/**
 * `stream_chat_completion` and `non_stream_chat_completion`: translate the
 * upstream's text fragments into OpenAI SSE chunks, or into one completion.
 */
module StreamTranslator {
  import opened Optional
  import opened Text
  import opened JsonValues
  import opened Upstream
  import opened ResponseFormatter
  import opened ToolCallExtractor

  /** The values one translation draws from `uuid.uuid4()` and `time.time()`. */
  datatype Env = Env(sessionUuid: Uuid, callUuid: Uuid, replyUuid: Uuid, sessionTime: int, replyTime: int)

  /** A streaming translation: the events yielded, then a normal end or an exception, and how many fragments were pulled. */
  datatype Translation = Translation(output: Source<Event>, consumed: nat)

  /** What `extract_tool_calls_from_response` is to the translator: text in, tool calls or None out. */
  type Extractor = string -> Option<seq<JsonObject>>

  /** Python's `if tool_calls:`: a list that is present and not empty. */
  predicate Fires(calls: Option<seq<JsonObject>>) {
    calls.Some? && |calls.value| > 0
  }

  /** Extraction finds a tool call in the text accumulated up to and including fragment `k`. */
  predicate DetectsAt(fragments: seq<string>, k: nat, extract: Extractor)
    requires k < |fragments|
  {
    Fires(extract(Concat(fragments[..k + 1])))
  }

  /** The first fragment, at `i` or later, after which extraction fires. */
  function FirstDetectionFrom(fragments: seq<string>, i: nat, extract: Extractor): (r: Option<nat>)
    requires i <= |fragments|
    decreases |fragments| - i
    ensures r.Some? ==> i <= r.value < |fragments| && DetectsAt(fragments, r.value, extract)
    ensures forall k :: i <= k < |fragments| && (r.None? || k < r.value) ==> !DetectsAt(fragments, k, extract)
  {
    if i == |fragments| then None
    else if DetectsAt(fragments, i, extract) then Some(i)
    else FirstDetectionFrom(fragments, i + 1, extract)
  }

  /** The opening chunk, then one content chunk per fragment; nothing for no fragments. */
  function ContentEvents(chatId: string, created: int, model: string, xs: seq<string>): seq<Event> {
    if xs == [] then []
    else [Data(SessionChunk(chatId, created, model, Opening, Unfinished))]
         + seq(|xs|, j requires 0 <= j < |xs| => Data(SessionChunk(chatId, created, model, ContentDelta(xs[j]), Unfinished)))
  }

  /** One chunk per tool call, the last one complete, then the `tool_calls` finish chunk and `[DONE]`. */
  function ToolEvents(calls: seq<JsonObject>, chatId: string, created: int, model: string, env: Env): seq<Event> {
    seq(|calls|, i requires 0 <= i < |calls| => Data(SseToolCallChunk(i, calls[i], i == |calls| - 1, env.replyUuid, env.replyTime)))
    + [Data(SessionChunk(chatId, created, model, NoDelta, ToolCallsFinish)), Done]
  }

  /** The `stop` finish chunk and `[DONE]`. */
  function StopEvents(chatId: string, created: int, model: string): seq<Event> {
    [Data(SessionChunk(chatId, created, model, NoDelta, Stop)), Done]
  }

  /**
   * What a streaming session yields, stated over the whole input: every fragment
   * before the first detection becomes a content chunk (after one opening chunk);
   * on detection the tool-call chunks, the `tool_calls` finish chunk and `[DONE]`
   * follow and nothing more is pulled; without detection the `stop` finish chunk and
   * `[DONE]` follow a normal end, and an upstream exception propagates instead.
   */
  function Session(model: string, src: Source<string>, env: Env, extract: Extractor): Translation {
    var chatId := SessionId(env.sessionUuid);
    var created := env.sessionTime;
    match FirstDetectionFrom(src.items, 0, extract)
    case Some(d) =>
      var calls := extract(Concat(src.items[..d + 1])).value;
      Translation(Source(ContentEvents(chatId, created, model, src.items[..d]) + ToolEvents(calls, chatId, created, model, env), None), d + 1)
    case None =>
      var tail := if src.failure.None? then StopEvents(chatId, created, model) else [];
      Translation(Source(ContentEvents(chatId, created, model, src.items) + tail, src.failure), |src.items|)
  }

  /** Appending a fragment appends its content chunk, preceded by the opening chunk when it is the first. */
  lemma ContentEventsSnoc(chatId: string, created: int, model: string, xs: seq<string>, x: string)
    ensures ContentEvents(chatId, created, model, xs + [x])
         == ContentEvents(chatId, created, model, xs)
            + (if xs == [] then [Data(SessionChunk(chatId, created, model, Opening, Unfinished))] else [])
            + [Data(SessionChunk(chatId, created, model, ContentDelta(x), Unfinished))]
  {
    var ys := xs + [x];
    var rhs := ContentEvents(chatId, created, model, xs)
               + (if xs == [] then [Data(SessionChunk(chatId, created, model, Opening, Unfinished))] else [])
               + [Data(SessionChunk(chatId, created, model, ContentDelta(x), Unfinished))];
    assert |ContentEvents(chatId, created, model, ys)| == |rhs|;
    forall j | 0 <= j < |rhs| ensures ContentEvents(chatId, created, model, ys)[j] == rhs[j] {
      if j > 0 && j - 1 < |xs| {
        assert ys[j - 1] == xs[j - 1];
      }
    }
  }

  /** The accumulated text after fragment `i` is the text before it plus the fragment. */
  lemma ConcatStep(fragments: seq<string>, i: nat)
    requires i < |fragments|
    ensures Concat(fragments[..i + 1]) == Concat(fragments[..i]) + fragments[i]
    ensures fragments[..i + 1] == fragments[..i] + [fragments[i]]
  {
    assert fragments[..i + 1][..i] == fragments[..i];
  }

  /** The session when extraction first fires after fragment `i`. */
  lemma SessionWhenDetected(model: string, src: Source<string>, env: Env, extract: Extractor, i: nat)
    requires i < |src.items| && DetectsAt(src.items, i, extract)
    requires forall k :: 0 <= k < i ==> !DetectsAt(src.items, k, extract)
    ensures FirstDetectionFrom(src.items, 0, extract) == Some(i)
    ensures var chatId := SessionId(env.sessionUuid);
            var calls := extract(Concat(src.items[..i + 1])).value;
      Session(model, src, env, extract)
        == Translation(Source(ContentEvents(chatId, env.sessionTime, model, src.items[..i])
                              + ToolEvents(calls, chatId, env.sessionTime, model, env), None), i + 1)
  {
  }

  /** The session when extraction never fires. */
  lemma SessionWhenUndetected(model: string, src: Source<string>, env: Env, extract: Extractor)
    requires forall k :: 0 <= k < |src.items| ==> !DetectsAt(src.items, k, extract)
    ensures FirstDetectionFrom(src.items, 0, extract) == None
    ensures var chatId := SessionId(env.sessionUuid);
            var tail := if src.failure.None? then StopEvents(chatId, env.sessionTime, model) else [];
      Session(model, src, env, extract)
        == Translation(Source(ContentEvents(chatId, env.sessionTime, model, src.items) + tail, src.failure), |src.items|)
  {
  }

  /** The `for i, tool_call in enumerate(tool_calls)` loop: one chunk per call, the last marked complete. */
  method AppendToolChunks(events: seq<Event>, calls: seq<JsonObject>, env: Env) returns (out: seq<Event>)
    ensures out == events + seq(|calls|, n requires 0 <= n < |calls| => Data(SseToolCallChunk(n, calls[n], n == |calls| - 1, env.replyUuid, env.replyTime)))
  {
    out := events;
    var j := 0;
    while j < |calls|
      invariant j <= |calls|
      invariant out == events + seq(j, n requires 0 <= n < j => Data(SseToolCallChunk(n, calls[n], n == |calls| - 1, env.replyUuid, env.replyTime)))
    {
      out := out + [Data(SseToolCallChunk(j, calls[j], j == |calls| - 1, env.replyUuid, env.replyTime))];
      j := j + 1;
    }
  }

  /** The generator as the source writes it: accumulate, re-run extraction after every fragment, emit. */
  method StreamChatCompletion(model: string, src: Source<string>, env: Env, extract: Extractor) returns (t: Translation)
    ensures t == Session(model, src, env, extract)
  {
    var chatId := SessionId(env.sessionUuid);
    var createdTime := env.sessionTime;
    var isSendInit := false;
    var fullDelta := "";
    var events: seq<Event> := [];
    var i := 0;
    while i < |src.items|
      invariant i <= |src.items|
      invariant fullDelta == Concat(src.items[..i])
      invariant isSendInit == (i > 0)
      invariant events == ContentEvents(chatId, createdTime, model, src.items[..i])
      invariant forall k :: 0 <= k < i ==> !DetectsAt(src.items, k, extract)
    {
      var chunk := src.items[i];
      ConcatStep(src.items, i);
      fullDelta := fullDelta + chunk;
      var toolCalls := extract(fullDelta);
      if toolCalls.Some? && |toolCalls.value| > 0 {
        SessionWhenDetected(model, src, env, extract, i);
        events := AppendToolChunks(events, toolCalls.value, env);
        events := events + [Data(SessionChunk(chatId, createdTime, model, NoDelta, ToolCallsFinish)), Done];
        return Translation(Source(events, None), i + 1);
      }
      ContentEventsSnoc(chatId, createdTime, model, src.items[..i], chunk);
      if !isSendInit {
        events := events + [Data(SessionChunk(chatId, createdTime, model, Opening, Unfinished))];
        isSendInit := true;
      }
      events := events + [Data(SessionChunk(chatId, createdTime, model, ContentDelta(chunk), Unfinished))];
      i := i + 1;
    }
    assert src.items[..i] == src.items;
    SessionWhenUndetected(model, src, env, extract);
    if src.failure.Some? {
      return Translation(Source(events, src.failure), i);
    }
    events := events + [Data(SessionChunk(chatId, createdTime, model, NoDelta, Stop)), Done];
    return Translation(Source(events, None), i);
  }

  /**
   * A session that is not cut short by an upstream exception ends with a finish
   * chunk of the session and then `[DONE]`; the reason is `tool_calls` exactly when
   * extraction fired, and then no fragment after the detecting one was pulled.
   * `[DONE]` occurs only at the end.
   */
  lemma SessionEnds(model: string, src: Source<string>, env: Env, extract: Extractor)
    ensures var t := Session(model, src, env, extract);
            var ev := t.output.items;
            var d := FirstDetectionFrom(src.items, 0, extract);
      && (t.output.failure.None? <==> d.Some? || src.failure.None?)
      && (t.output.failure.None? ==>
            && |ev| >= 2 && ev[|ev| - 1] == Done
            && ev[|ev| - 2] == Data(SessionChunk(SessionId(env.sessionUuid), env.sessionTime, model, NoDelta,
                                                 if d.Some? then ToolCallsFinish else Stop)))
      && (t.output.failure.Some? ==> t.output.failure == src.failure && t.consumed == |src.items|)
      && (forall j :: 0 <= j < |ev| - 1 ==> ev[j].Data?)
      && (d.Some? ==> t.consumed == d.value + 1 <= |src.items|)
      && (d.None? ==> t.consumed == |src.items|)
  {
    var t := Session(model, src, env, extract);
    var ev := t.output.items;
    var chatId := SessionId(env.sessionUuid);
    match FirstDetectionFrom(src.items, 0, extract)
    case Some(d) =>
      var calls := extract(Concat(src.items[..d + 1])).value;
      var content := ContentEvents(chatId, env.sessionTime, model, src.items[..d]);
      assert ev == content + ToolEvents(calls, chatId, env.sessionTime, model, env);
      forall j | 0 <= j < |ev| - 1 ensures ev[j].Data? {
        if j >= |content| + |calls| {
          assert ev[j] == Data(SessionChunk(chatId, env.sessionTime, model, NoDelta, ToolCallsFinish));
        }
      }
    case None =>
  }

  /** Where each event of the content run stands, and that all of them belong to the session. */
  lemma ContentEventsAt(chatId: string, created: int, model: string, xs: seq<string>)
    ensures var ev := ContentEvents(chatId, created, model, xs);
      && |ev| == (if xs == [] then 0 else |xs| + 1)
      && (xs != [] ==> ev[0] == Data(SessionChunk(chatId, created, model, Opening, Unfinished)))
      && (forall j :: 1 <= j <= |xs| ==> ev[j] == Data(SessionChunk(chatId, created, model, ContentDelta(xs[j - 1]), Unfinished)))
      && BelongsToSession(ev, chatId, created, model)
      && (forall j :: 1 <= j < |ev| ==> ev[j].chunk.delta.ContentDelta?)
  {
    var ev := ContentEvents(chatId, created, model, xs);
    if xs != [] {
      var body := seq(|xs|, j requires 0 <= j < |xs| => Data(SessionChunk(chatId, created, model, ContentDelta(xs[j]), Unfinished)));
      assert ev == [Data(SessionChunk(chatId, created, model, Opening, Unfinished))] + body;
      forall j | 1 <= j < |ev| ensures ev[j] == body[j - 1] {}
    }
  }

  /** Every chunk of `ev` other than a tool-call chunk carries the session's id, timestamp and model. */
  ghost predicate BelongsToSession(ev: seq<Event>, chatId: string, created: int, model: string) {
    forall j :: 0 <= j < |ev| && ev[j].Data? && !ev[j].chunk.delta.ToolCallDelta? ==>
      ev[j].chunk.id == chatId && ev[j].chunk.created == created && ev[j].chunk.model == model
  }

  /** No event of `ev` is an opening chunk. */
  ghost predicate NoOpening(ev: seq<Event>) {
    forall j :: 0 <= j < |ev| && ev[j].Data? ==> ev[j].chunk.delta != Opening
  }

  lemma {:induction false} SessionJoin(a: seq<Event>, b: seq<Event>, chatId: string, created: int, model: string)
    requires BelongsToSession(a, chatId, created, model) && BelongsToSession(b, chatId, created, model)
    ensures BelongsToSession(a + b, chatId, created, model)
  {
    forall j | 0 <= j < |a + b| && (a + b)[j].Data? && !(a + b)[j].chunk.delta.ToolCallDelta?
      ensures (a + b)[j].chunk.id == chatId && (a + b)[j].chunk.created == created && (a + b)[j].chunk.model == model
    {
      if j >= |a| { assert (a + b)[j] == b[j - |a|]; }
    }
  }

  /**
   * What follows the content run on detection: one tool chunk per call, with the
   * call's index and only the last one complete, then the session's `tool_calls`
   * finish chunk and `[DONE]`; neither tail holds an opening chunk, and every
   * non-tool chunk in them belongs to the session.
   */
  lemma TailEvents(calls: seq<JsonObject>, chatId: string, created: int, model: string, env: Env)
    ensures var ev := ToolEvents(calls, chatId, created, model, env);
      && |ev| == |calls| + 2
      && (forall i :: 0 <= i < |calls| ==>
            && ev[i].Data? && ev[i].chunk.delta.ToolCallDelta? && ev[i].chunk.choiceIndex == i
            && (ev[i].chunk.finishReason == ToolCallsFinish <==> i == |calls| - 1)
            && ev[i].chunk.finishReason != Stop)
      && ev[|calls|] == Data(SessionChunk(chatId, created, model, NoDelta, ToolCallsFinish))
      && ev[|calls| + 1] == Done
    ensures NoOpening(ToolEvents(calls, chatId, created, model, env))
    ensures BelongsToSession(ToolEvents(calls, chatId, created, model, env), chatId, created, model)
    ensures NoOpening(StopEvents(chatId, created, model))
    ensures BelongsToSession(StopEvents(chatId, created, model), chatId, created, model)
  {
    var ev := ToolEvents(calls, chatId, created, model, env);
    forall j | 0 <= j < |ev| && ev[j].Data?
      ensures ev[j].chunk.delta != Opening
      ensures !ev[j].chunk.delta.ToolCallDelta? ==> ev[j].chunk.id == chatId && ev[j].chunk.created == created && ev[j].chunk.model == model
    {
      if j < |calls| {
        assert ev[j] == Data(SseToolCallChunk(j, calls[j], j == |calls| - 1, env.replyUuid, env.replyTime));
      }
    }
  }

  /**
   * The content path: each fragment processed before detection yields exactly one
   * content chunk carrying that fragment, in order, and the opening chunk comes
   * first, right before the first content chunk.
   */
  lemma ContentChunks(model: string, src: Source<string>, env: Env, extract: Extractor)
    ensures var ev := Session(model, src, env, extract).output.items;
            var d := FirstDetectionFrom(src.items, 0, extract);
            var n := if d.Some? then d.value else |src.items|;
            var chatId := SessionId(env.sessionUuid);
      && n <= |src.items|
      && (n > 0 ==> |ev| > n && ev[0] == Data(SessionChunk(chatId, env.sessionTime, model, Opening, Unfinished)))
      && (forall j :: 0 <= j < n ==> j + 1 < |ev| && ev[j + 1] == Data(SessionChunk(chatId, env.sessionTime, model, ContentDelta(src.items[j]), Unfinished)))
      && (n == 0 ==> NoOpening(ev))
  {
    var ev := Session(model, src, env, extract).output.items;
    var chatId := SessionId(env.sessionUuid);
    var d := FirstDetectionFrom(src.items, 0, extract);
    var n := if d.Some? then d.value else |src.items|;
    var xs := src.items[..n];
    assert src.items[..|src.items|] == src.items;
    var content := ContentEvents(chatId, env.sessionTime, model, xs);
    ContentEventsAt(chatId, env.sessionTime, model, xs);
    assert ev[..|content|] == content;
    forall j | 0 <= j < n
      ensures j + 1 < |ev| && ev[j + 1] == Data(SessionChunk(chatId, env.sessionTime, model, ContentDelta(src.items[j]), Unfinished))
    {
      assert xs[j] == src.items[j];
      assert ev[j + 1] == content[j + 1];
    }
    if n == 0 {
      if d.Some? {
        TailEvents(extract(Concat(src.items[..1])).value, chatId, env.sessionTime, model, env);
      } else {
        TailEvents([], chatId, env.sessionTime, model, env);
      }
    }
  }

  /**
   * The opening chunk is sent at most once, as the first event and only when a
   * content chunk follows; every chunk except the tool-call chunks carries the
   * session's one id, one timestamp and the requested model.
   */
  lemma SessionIdentity(model: string, src: Source<string>, env: Env, extract: Extractor)
    ensures var ev := Session(model, src, env, extract).output.items;
            var chatId := SessionId(env.sessionUuid);
      && (forall j :: 0 <= j < |ev| && ev[j].Data? && ev[j].chunk.delta == Opening ==>
            j == 0 && 1 < |ev| && ev[1].Data? && ev[1].chunk.delta.ContentDelta?)
      && (forall j :: 0 <= j < |ev| && ev[j].Data? && !ev[j].chunk.delta.ToolCallDelta? ==>
            ev[j].chunk.id == chatId && ev[j].chunk.created == env.sessionTime && ev[j].chunk.model == model)
  {
    var ev := Session(model, src, env, extract).output.items;
    var chatId := SessionId(env.sessionUuid);
    var d := FirstDetectionFrom(src.items, 0, extract);
    var n := if d.Some? then d.value else |src.items|;
    var xs := src.items[..n];
    assert src.items[..|src.items|] == src.items;
    var content := ContentEvents(chatId, env.sessionTime, model, xs);
    ContentEventsAt(chatId, env.sessionTime, model, xs);
    var tail: seq<Event>;
    if d.Some? {
      tail := ToolEvents(extract(Concat(src.items[..d.value + 1])).value, chatId, env.sessionTime, model, env);
      TailEvents(extract(Concat(src.items[..d.value + 1])).value, chatId, env.sessionTime, model, env);
    } else {
      tail := if src.failure.None? then StopEvents(chatId, env.sessionTime, model) else [];
      TailEvents([], chatId, env.sessionTime, model, env);
    }
    assert ev == content + tail;
    SessionJoin(content, tail, chatId, env.sessionTime, model);
    forall j | 0 <= j < |ev| && ev[j].Data? && ev[j].chunk.delta == Opening
      ensures j == 0 && 1 < |ev| && ev[1].Data? && ev[1].chunk.delta.ContentDelta?
    {
      assert ev[1] == content[1];
    }
  }

  /**
   * With the source's extractor, a detecting session yields exactly one tool-call
   * chunk after the content chunks. As written it carries a fresh `chatcmpl-` id
   * (not the session's), its own timestamp, model `default-model`, the call's id, and
   * a null name and empty arguments: the chunk builder reads `name` and `arguments`
   * from the top level of a call that keeps them under `function`.
   */
  lemma DetectedToolChunk(model: string, src: Source<string>, env: Env, lib: Library)
    requires FirstDetectionFrom(src.items, 0, ExtractorOf(env.callUuid, lib)).Some?
    ensures var d := FirstDetectionFrom(src.items, 0, ExtractorOf(env.callUuid, lib)).value;
            var ev := Session(model, src, env, ExtractorOf(env.callUuid, lib)).output.items;
            var k := if d == 0 then 0 else d + 1;
      && |ev| == k + 3
      && ev[k] == Data(Chunk(ReplyId(env.replyUuid), env.replyTime, "default-model", 0,
                             ToolCallDelta(JString("call_" + env.callUuid[..8]), JNull, JString("")), ToolCallsFinish))
      && ev[k].chunk.id != SessionId(env.sessionUuid)
      && ev[k + 1] == Data(SessionChunk(SessionId(env.sessionUuid), env.sessionTime, model, NoDelta, ToolCallsFinish))
      && ev[k + 2] == Done
  {
    var extract := ExtractorOf(env.callUuid, lib);
    var d := FirstDetectionFrom(src.items, 0, extract).value;
    var text := Concat(src.items[..d + 1]);
    assert extract(text) == ToolCalls(text, env.callUuid, lib);
    ToolCallShape(text, env.callUuid, lib);
    var call := ToolCalls(text, env.callUuid, lib).value[0];
    assert "name" !in call && "arguments" !in call;
  }

  /** The text a client reassembles from the content deltas of a stream. */
  function StreamedText(events: seq<Event>): string {
    if events == [] then ""
    else
      var last := events[|events| - 1];
      StreamedText(events[..|events| - 1])
      + (if last.Data? && last.chunk.delta.ContentDelta? then last.chunk.delta.content else "")
  }

  lemma {:induction false} StreamedTextAppend(a: seq<Event>, b: seq<Event>)
    ensures StreamedText(a + b) == StreamedText(a) + StreamedText(b)
  {
    if b == [] {
      assert a + b == a;
    } else {
      assert (a + b)[..|a + b| - 1] == a + b[..|b| - 1];
      StreamedTextAppend(a, b[..|b| - 1]);
    }
  }

  /** The content chunks of a session carry the fragments' text and nothing else. */
  lemma {:induction false} StreamedContentText(chatId: string, created: int, model: string, xs: seq<string>)
    ensures StreamedText(ContentEvents(chatId, created, model, xs)) == Concat(xs)
  {
    if xs != [] {
      var init := xs[..|xs| - 1];
      var x := xs[|xs| - 1];
      assert init + [x] == xs;
      ContentEventsSnoc(chatId, created, model, init, x);
      StreamedContentText(chatId, created, model, init);
      var opening := if init == [] then [Data(SessionChunk(chatId, created, model, Opening, Unfinished))] else [];
      var tail := [Data(SessionChunk(chatId, created, model, ContentDelta(x), Unfinished))];
      StreamedTextAppend(ContentEvents(chatId, created, model, init) + opening, tail);
      StreamedTextAppend(ContentEvents(chatId, created, model, init), opening);
      assert StreamedText(tail) == StreamedText([]) + x;
      assert StreamedText(opening) == "" by {
        if init == [] { assert StreamedText(opening) == StreamedText([]) + ""; }
      }
    }
  }

  /**
   * `non_stream_chat_completion`: exactly one completion, or the upstream's
   * exception. When extraction fires on the whole text the reply is the tool-call
   * response; otherwise it carries all fragments concatenated, finishes with `stop`
   * and reports zero usage.
   */
  function Aggregate(model: string, src: Source<string>, env: Env, extract: Extractor): (r: Attempt<Completion>)
    ensures r.Raised? <==> src.failure.Some?
    ensures r.Raised? ==> r.exception == src.failure.value
    ensures r.Ok? && r.value.message.TextMessage? ==>
      && !Fires(extract(Concat(src.items)))
      && r.value == Completion(SessionId(env.sessionUuid), env.sessionTime, model, TextMessage(Concat(src.items)), Stop, Usage(0, 0, 0))
    ensures r.Ok? && r.value.message.ToolCallMessage? ==>
      && Fires(extract(Concat(src.items)))
      && r.value.message.toolCalls == extract(Concat(src.items)).value
      && r.value.finishReason == ToolCallsFinish && r.value.model == model
      && r.value.usage.totalTokens == r.value.usage.promptTokens + r.value.usage.completionTokens
  {
    if src.failure.Some? then Raised(src.failure.value)
    else
      var text := Concat(src.items);
      var toolCalls := extract(text);
      if Fires(toolCalls) then
        Ok(CreateToolCallResponse(MessageData(Some(model), Some(0), Some(0)), toolCalls.value, env.replyUuid, env.replyTime))
      else
        Ok(Completion(SessionId(env.sessionUuid), env.sessionTime, model, TextMessage(text), Stop, Usage(0, 0, 0)))
  }

  /** The source's coroutine: drain every fragment, then run extraction once on the whole text. */
  method NonStreamChatCompletion(model: string, src: Source<string>, env: Env, extract: Extractor) returns (r: Attempt<Completion>)
    ensures r == Aggregate(model, src, env, extract)
  {
    var fullContent := "";
    var fullDelta := "";
    var i := 0;
    while i < |src.items|
      invariant i <= |src.items|
      invariant fullContent == Concat(src.items[..i]) && fullDelta == fullContent
    {
      ConcatStep(src.items, i);
      fullContent := fullContent + src.items[i];
      fullDelta := fullDelta + src.items[i];
      i := i + 1;
    }
    assert src.items[..i] == src.items;
    if src.failure.Some? {
      return Raised(src.failure.value);
    }
    var toolCalls := extract(fullDelta);
    if toolCalls.Some? && |toolCalls.value| > 0 {
      r := Ok(CreateToolCallResponse(MessageData(Some(model), Some(0), Some(0)), toolCalls.value, env.replyUuid, env.replyTime));
    } else {
      r := Ok(Completion(SessionId(env.sessionUuid), env.sessionTime, model, TextMessage(fullContent), Stop, Usage(0, 0, 0)));
    }
  }

  /**
   * The two modes agree on an upstream that ends normally: when streaming never
   * detects a call, the single completion carries exactly the text the stream's
   * content chunks carried; when the completion is a tool-call response, streaming
   * detected a call too (possibly on an earlier fragment). The extractor must find
   * nothing in empty text, as the source's does (`EmptyTextHasNoCall`): with no
   * fragments the stream never runs it while the aggregator runs it once.
   */
  lemma StreamAndAggregateAgree(model: string, src: Source<string>, env: Env, extract: Extractor)
    requires src.failure.None?
    requires !Fires(extract(""))
    ensures FirstDetectionFrom(src.items, 0, extract).None? ==>
      Aggregate(model, src, env, extract)
        == Ok(Completion(SessionId(env.sessionUuid), env.sessionTime, model,
                         TextMessage(StreamedText(Session(model, src, env, extract).output.items)), Stop, Usage(0, 0, 0)))
    ensures Aggregate(model, src, env, extract).Ok? && Aggregate(model, src, env, extract).value.message.ToolCallMessage? ==>
      FirstDetectionFrom(src.items, 0, extract).Some?
  {
    var chatId := SessionId(env.sessionUuid);
    var n := |src.items|;
    if FirstDetectionFrom(src.items, 0, extract).None? {
      if n > 0 {
        assert src.items[..n - 1 + 1] == src.items;
        assert !DetectsAt(src.items, n - 1, extract);
      } else {
        assert Concat(src.items) == "";
      }
      assert !Fires(extract(Concat(src.items)));
      var content := ContentEvents(chatId, env.sessionTime, model, src.items);
      var stop := StopEvents(chatId, env.sessionTime, model);
      assert Session(model, src, env, extract).output.items == content + stop;
      StreamedContentText(chatId, env.sessionTime, model, src.items);
      StreamedTextAppend(content, stop);
      assert StreamedText(stop) == "" by {
        assert stop[..1] == [stop[0]];
        assert [stop[0]][..0] == [];
        assert StreamedText([stop[0]]) == StreamedText([]) + "";
      }
      assert StreamedText(Session(model, src, env, extract).output.items) == Concat(src.items);
    }
  }
}
