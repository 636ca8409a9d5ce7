/**
 * The OpenAI-shaped payloads: completion objects, SSE chunks, and the helpers that
 * build tool-call responses and tool-call chunks. Identifiers and timestamps come
 * from `uuid.uuid4()` and `time.time()`, which the caller passes in.
 */
module ResponseFormatter {
  import opened Optional
  import opened Text
  import opened JsonValues

  predicate IsHexDigit(c: char) {
    '0' <= c <= '9' || 'a' <= c <= 'f'
  }

  /** A random UUID as its 32 lower-case hex digits (`uuid.uuid4().hex`). */
  type Uuid = s: string | |s| == 32 && forall i :: 0 <= i < |s| ==> IsHexDigit(s[i])
    witness "00000000000000000000000000000000"

  /** `str(u)`: the hex digits grouped 8-4-4-4-12 and joined by dashes. */
  function UuidText(u: Uuid): string {
    u[..8] + "-" + u[8..12] + "-" + u[12..16] + "-" + u[16..20] + "-" + u[20..]
  }

  /** `str(u)[:8]` is the first eight hex digits. */
  lemma UuidTextPrefix(u: Uuid)
    ensures Take(UuidText(u), 8) == u[..8]
  {
    assert UuidText(u)[..8] == u[..8];
  }

  /** A session id `chatcmpl-` + `uuid4().hex[:29]`. */
  function SessionId(u: Uuid): (id: string)
    ensures |id| == 9 + 29 && StartsWith(id, "chatcmpl-")
  {
    "chatcmpl-" + u[..29]
  }

  /** A reply id `chatcmpl-` + `str(uuid4())[:8]`. */
  function ReplyId(u: Uuid): (id: string)
    ensures |id| == 9 + 8 && StartsWith(id, "chatcmpl-")
    ensures id == "chatcmpl-" + u[..8]
  {
    UuidTextPrefix(u);
    "chatcmpl-" + Take(UuidText(u), 8)
  }

  datatype FinishReason = Unfinished | Stop | ToolCallsFinish

  /** The `delta` of a streamed chunk. */
  datatype Delta =
    /** `{}` */
    | NoDelta
    /** `{"role": "assistant", "content": ""}` */
    | Opening
    /** `{"content": text}` */
    | ContentDelta(content: string)
    /** `{"tool_calls": [{"index": 0, "id": id, "function": {"name": name, "arguments": arguments}, "type": "function"}]}` */
    | ToolCallDelta(id: Json, name: Json, arguments: Json)

  /** A `chat.completion.chunk` object with its single choice. */
  datatype Chunk = Chunk(id: string, created: int, model: string, choiceIndex: int, delta: Delta, finishReason: FinishReason)

  /** One SSE event: `data:` followed by a chunk's JSON, or the literal `[DONE]`. */
  datatype Event = Data(chunk: Chunk) | Done

  datatype Usage = Usage(promptTokens: int, completionTokens: int, totalTokens: int)

  /** The assistant message of a completion: text content, or null content with tool calls. */
  datatype Message = TextMessage(content: string) | ToolCallMessage(toolCalls: seq<JsonObject>)

  /** A `chat.completion` object with its single choice. */
  datatype Completion = Completion(id: string, created: int, model: string, message: Message, finishReason: FinishReason, usage: Usage)

  /** The `message_data` dict handed to `create_tool_call_response`; a missing key is None. */
  datatype MessageData = MessageData(model: Option<string>, inputTokens: Option<int>, outputTokens: Option<int>)

  /** A chunk of a session: it carries the session's id, timestamp and model. */
  function SessionChunk(chatId: string, created: int, model: string, delta: Delta, finish: FinishReason): Chunk {
    Chunk(chatId, created, model, 0, delta, finish)
  }

  /**
   * `create_tool_call_response`: a completion whose message has null content and the
   * tool calls, finishing with `tool_calls`; the model defaults to `default-model`
   * and the token counts to 0, and the total is their sum.
   */
  function CreateToolCallResponse(data: MessageData, toolCalls: seq<JsonObject>, u: Uuid, now: int): (r: Completion)
    ensures r.message == ToolCallMessage(toolCalls) && r.finishReason == ToolCallsFinish
    ensures r.usage.totalTokens == r.usage.promptTokens + r.usage.completionTokens
    ensures r.usage.promptTokens == data.inputTokens.GetOr(0) && r.usage.completionTokens == data.outputTokens.GetOr(0)
    ensures r.model == data.model.GetOr("default-model")
    ensures r.id == "chatcmpl-" + u[..8] && r.created == now
  {
    var input := data.inputTokens.GetOr(0);
    var output := data.outputTokens.GetOr(0);
    Completion(ReplyId(u), now, data.model.GetOr("default-model"), ToolCallMessage(toolCalls), ToolCallsFinish,
               Usage(input, output, input + output))
  }

  /**
   * `create_sse_tool_call_chunk`: a chunk with a fresh id and timestamp, model
   * `default-model`, choice `index`, and a tool-call delta that reads `id`, `name` and
   * `arguments` from the top level of `call` (null, null and "" when absent); its
   * finish reason is `tool_calls` for the last call and null otherwise.
   */
  function SseToolCallChunk(index: int, call: JsonObject, isComplete: bool, u: Uuid, now: int): (r: Chunk)
    ensures r.model == "default-model" && r.id == "chatcmpl-" + u[..8] && r.created == now
    ensures r.choiceIndex == index
    ensures r.delta == ToolCallDelta(Get(call, "id", JNull), Get(call, "name", JNull), Get(call, "arguments", JString("")))
    ensures r.finishReason == (if isComplete then ToolCallsFinish else Unfinished)
  {
    Chunk(ReplyId(u), now, "default-model", index,
          ToolCallDelta(Get(call, "id", JNull), Get(call, "name", JNull), Get(call, "arguments", JString(""))),
          if isComplete then ToolCallsFinish else Unfinished)
  }
}
