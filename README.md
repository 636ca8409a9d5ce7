# Cursor-to-OpenAI bridge: translation core in Dafny

The service sits in front of Cursor's chat backend and speaks the OpenAI chat
completions protocol. The upstream streams plain text fragments, and the bridge
turns them into OpenAI responses: a streaming run of SSE chunks
(`chat.completion.chunk`, then `[DONE]`) or one aggregated `chat.completion`. In
both modes it watches the accumulated text for a tool call written as JSON. The
call may sit in a fenced code block or inline as `{"name": ..., "arguments": ...}`.
When one is found, the bridge answers with an OpenAI `tool_calls` message in place
of text. Around this sit three smaller pieces:

- a retry wrapper that turns upstream failures into OpenAI-style JSON errors;
- a gate that pulls the first streamed item before the SSE response is committed;
- a padding step for base64url text.

On the handler side there are two helpers: one parses upstream SSE lines, the
other converts OpenAI messages into the upstream's role-and-parts form.

The model has one module per component:

| module | file | contents |
|---|---|---|
| `Text` | text.dfy | Python string operations used by the core (`find`, `in`, `startswith`, slicing, `*`) |
| `JsonValues`, `Upstream`, `Optional` | json.dfy, upstream.dfy, optional.dfy | JSON values, the library calls, exceptions, generators |
| `ToolCallScanner` | scanner.dfy | the brace/string/escape scanner that delimits an inline JSON object |
| `ToolCallExtractor` | extractor.dfy | `parse_tool_call_from_content`, `extract_tool_calls_from_response` |
| `DetectionExample` | detection.dfy | a worked inline detection, followed character by character |
| `ResponseFormatter` | formatter.dfy | ids, chunks and completions, `create_tool_call_response`, `create_sse_tool_call_chunk` |
| `StreamTranslator` | stream.dfy | `stream_chat_completion`, `non_stream_chat_completion` and how they relate |
| `RetryExecutor` | retry.dfy | `error_wrapper` |
| `SafeStreamGate` | gate.dfy | `safe_stream_wrapper` |
| `Base64Padding` | base64pad.dfy | the padding in `decode_base64url_safe` |
| `CursorMessages` | cursormessages.dfy | `parse_sse_line`, `to_cursor_messages` |

Library calls and nondeterminism are inputs:

- **Library calls.** `json.loads`, `json.dumps` and the fenced-block `re.search` are
  fields of a `Library` value passed to the extractor. `json.loads` yields a value,
  a decode error, or some other failure; the other failure escapes to the outer
  `except Exception`.
- **Nondeterministic values.** `uuid.uuid4()` and `time.time()` become an `Env`
  holding 32-hex-digit uuids and integer timestamps.
- **Generators.** An upstream generator is a `Source`: the finite list of items it
  yields, then either a normal end or the exception it raises.
- **Loops.** The source's loops are methods:
  - the scanner;
  - the streaming and aggregating loops;
  - the retry loop;
  - the tool-call list;
  - the message conversion.

  Each of them except the retry loop is proved equal to a specification function,
  and the properties are proved about that function. The retry loop's contract
  states its behaviour directly.

## Model

| member | source | states |
|---|---|---|
| ToolCallScanner.Step | app/utils.py:305-316 | one character of the walk: an escaped character only clears the escape, a backslash sets it, a quote toggles the string flag, braces count only outside strings |
| ToolCallScanner.Limit | app/utils.py:303 | the window end `min(start + 1000, len(content))` |
| ToolCallScanner.Walk | app/utils.py:298-316 | the `level`, `in_string`, `escape_next` values after reading `content[start:i]` from the initial `0, False, False` |
| ToolCallScanner.ClosesAt | app/utils.py:315-319 | reading `content[i-1]` is an unescaped `}` outside strings that takes the level from 1 to 0 |
| Text.IndexOf | app/utils.py:294 | `find` gives the first index where the pattern occurs, or -1 exactly when it occurs nowhere |
| Text.Contains | app/utils.py:291 | `pat in s` holds exactly when some index has an occurrence |
| Text.ContainsInner | app/utils.py:343 | a text containing `"name"` also contains `name` (any sub-string of a contained pattern is contained) |
| ToolCallScanner.FirstClose | app/utils.py:303-319 | the first position in the window after `k` where the scan closes the object at depth 0, or the start when there is none; no earlier position closes |
| ToolCallScanner.ObjectEnd | app/utils.py:297-319 | `end_pos` is the start, or the first close within `min(start + 1000, len)`; no position before it closes |
| ToolCallScanner.ScanObjectEnd | app/utils.py:297-319 | the loop with its `level`, `in_string`, `escape_next` updates and `break` computes exactly `ObjectEnd` |
| ToolCallScanner.DepthPositiveBeforeClose | app/utils.py:303-319 | from an opening `{`, the depth stays at least 1 until the first close |
| ToolCallScanner.BalancedObject | app/utils.py:303-321 | a found end has `}` just before it, depth 0 there and positive depth at every earlier position; with no close in the window the depth is positive throughout |
| ToolCallScanner.WalkOnSlice | app/utils.py:303-322 | scanning the slice `content[start:end_pos]` from 0 visits the same states as scanning `content` from `start` |
| ToolCallExtractor.FencedStage | app/utils.py:274-288 | with a fence and a matched block: found exactly when `json.loads` gives a dict with both `name` and `arguments` (and then that dict), aborted exactly when `json.loads` fails with something other than a decode error; otherwise fall through |
| ToolCallExtractor.InlineCandidate | app/utils.py:291-322 | when both quoted keys occur and the scan from the first `{"name"` closes within the window, the candidate is `content[start:end_pos]`; there is no candidate without both keys, without `{"name"`, or without a close |
| ToolCallExtractor.NoCloseInsideMarker | app/utils.py:295-319 | the scanner cannot close the object inside the seven characters of `{"name"` |
| ToolCallExtractor.InlineCandidateShape | app/utils.py:295-322 | the candidate is the slice from the first `{"name"`: longer than the marker, at most 1000 characters, starts with `{"name"`, ends with `}`, balanced at its end and open at every earlier position |
| ToolCallExtractor.InlineStage | app/utils.py:291-330 | a dict is accepted exactly when the candidate exists and `json.loads` gives a dict with both keys, and it is that dict |
| ToolCallExtractor.ParseToolCall | app/utils.py:267-333 | an accepted fenced parse is returned; a fenced failure that is not a decode error gives None; otherwise an accepted inline parse is returned; a found call has both keys and came from one of the two parses; with neither a fence nor `{"name"` in the text there is none |
| ToolCallExtractor.NoAcceptedParseNoCall | app/utils.py:267-333 | when neither the fenced block nor the inline candidate parses to a dict with both keys, the result is None |
| DetectionExample.InlineExampleDetected | app/utils.py:291-373 | the unfenced text `{"name":"f","arguments":{}}` is its own inline candidate (the inner `{}` does not end the scan), parses to its dict, passes the pre-check and yields one tool call |
| ToolCallExtractor.ParseToolCallFromContent | app/utils.py:267-333 | the method running the scanner loop returns exactly `ParseToolCall` |
| ToolCallExtractor.InlineCandidatePassesPreCheck | app/utils.py:343 | any text with an inline candidate passes the unquoted `name`/`arguments` precheck |
| ToolCallExtractor.IsToolData | app/utils.py:284 | `isinstance(tool_data, dict) and 'name' in tool_data and 'arguments' in tool_data` (the same test at line 325) |
| ToolCallExtractor.MayHoldToolCall | app/utils.py:343 | the pre-check: `function_call`, or both unquoted `name` and `arguments`, occur |
| ToolCallExtractor.ArgumentsText | app/utils.py:352-355 | string arguments are kept, anything else is `json.dumps`-ed |
| ToolCallExtractor.ToolCallObject | app/utils.py:357-364 | the tool-call dict: `id`, type `function`, and `function` holding the name and the arguments text |
| ToolCallExtractor.ToolCalls | app/utils.py:336-373 | None whenever the precheck fails; otherwise a list exactly when a tool call is parsed |
| ToolCallExtractor.ToolCallShape | app/utils.py:349-368 | a list holds exactly one call: type `function`, id `call_` plus 8 hex digits of the uuid, function `{name, arguments-as-text}` |
| ToolCallExtractor.ExtractToolCalls | app/utils.py:336-373 | the method that appends to `tool_calls` returns exactly `ToolCalls` |
| ToolCallExtractor.EmptyTextHasNoCall | app/utils.py:343-344 | empty text never yields tool calls |
| JsonValues.Get | app/utils.py:417-420 | `dict.get(key, default)`: the value under the key, or the default when it is absent |
| ResponseFormatter.UuidText | app/utils.py:351 | `str(uuid)`: the 32 hex digits in the 8-4-4-4-12 dashed form |
| ResponseFormatter.UuidTextPrefix | app/utils.py:351 | `str(uuid)[:8]` equals the first 8 hex digits |
| ResponseFormatter.SessionChunk | app/utils.py:197-209 | a session chunk: the session id, time and model, choice index 0, the given delta and finish reason (the same shape at lines 216-228, 234-246 and 250-262) |
| ResponseFormatter.SessionId | app/utils.py:174 | the stream id is `chatcmpl-` plus 29 characters |
| ResponseFormatter.ReplyId | app/utils.py:381 | the per-response id is `chatcmpl-` plus the uuid's first 8 hex digits |
| ResponseFormatter.CreateToolCallResponse | app/utils.py:376-400 | message holds the tool calls, finish reason `tool_calls`, model defaults to `default-model`, token counts default to 0 and the total is their sum |
| ResponseFormatter.SseToolCallChunk | app/utils.py:403-428 | model `default-model`, the given choice index, delta from the call's top-level `id`/`name`/`arguments` with defaults null/null/`""`, finish reason `tool_calls` only when complete |
| StreamTranslator.Fires | app/utils.py:189 | `if tool_calls:` holds for a non-empty list and not for None or `[]` |
| StreamTranslator.ContentEvents | app/utils.py:215-247 | the chunks for fragments without a detection: the opening `{role: assistant, content: ""}` chunk before the first, then one content chunk per fragment |
| StreamTranslator.ToolEvents | app/utils.py:189-212 | the detection tail: one tool chunk per call (the last marked complete), the `tool_calls` finish chunk, `[DONE]` |
| StreamTranslator.StopEvents | app/utils.py:250-264 | the normal-end tail: the `stop` finish chunk and `[DONE]` |
| StreamTranslator.Session | app/utils.py:167-264 | the whole stream: content chunks up to the first detection, then the detection tail; without detection, the content chunks and the normal-end tail, or the upstream's exception |
| StreamTranslator.FirstDetectionFrom | app/utils.py:183-189 | the first fragment index from `i` after which extraction on the accumulated text fires, and no earlier one |
| StreamTranslator.ContentEventsSnoc | app/utils.py:215-247 | one more fragment adds a content chunk, preceded by the opening chunk only for the first |
| StreamTranslator.ConcatStep | app/utils.py:184 | `full_delta` after a fragment is the previous text plus that fragment |
| StreamTranslator.SessionWhenDetected | app/utils.py:183-212 | when extraction first fires at fragment `i`, the output is the content chunks of fragments before `i`, then the tool chunks; `i + 1` fragments are pulled |
| StreamTranslator.SessionWhenUndetected | app/utils.py:183-264 | without detection, the output is the content chunks of all fragments, then `stop` and `[DONE]` unless the upstream raised |
| StreamTranslator.AppendToolChunks | app/utils.py:191-194 | one chunk per call with its index, only the last one marked complete |
| StreamTranslator.StreamChatCompletion | app/utils.py:167-264 | the streaming loop produces exactly `Session` |
| StreamTranslator.SessionEnds | app/utils.py:183-264 | no exception exactly when detected or the upstream ended normally; then it ends in a finish chunk and `[DONE]`, reason `tool_calls` iff detected; `[DONE]` only last; fragments after a detection are never pulled |
| StreamTranslator.ContentEventsAt | app/utils.py:215-247 | the opening chunk `{role: assistant, content: ""}` comes first, then fragment `j` at position `j + 1`, all with the session id, time and model |
| StreamTranslator.TailEvents | app/utils.py:191-212 | the tool tail is one tool chunk per call, each with its index and only the last marked `tool_calls`, then the session's `tool_calls` finish chunk and `[DONE]`; neither the tool tail nor the stop tail holds an opening chunk, and their non-tool chunks carry the session's id, time and model |
| StreamTranslator.SessionJoin | app/utils.py:174-264 | if every non-tool chunk of two runs carries the session's id, time and model, so does every non-tool chunk of their concatenation |
| StreamTranslator.ContentChunks | app/utils.py:215-247 | when at least one fragment comes before the detection (or, with no detection, at least one fragment arrives), the opening chunk is first and each such fragment `j` is at position `j + 1`; a detection on the very first fragment sends no opening chunk |
| StreamTranslator.SessionIdentity | app/utils.py:174-264 | the opening chunk occurs only at position 0 and is followed by content; every non-tool chunk carries the session id, time and model |
| StreamTranslator.DetectedToolChunk | app/utils.py:189-212 | with the real extractor, a detection yields exactly one tool chunk: id `chatcmpl-` + 8 hex digits (not the session id), model `default-model`, delta id `call_…`, name null and arguments `""` (they sit under `function`), marked complete; then the session's `tool_calls` finish chunk and `[DONE]`, and nothing else after it |
| StreamTranslator.StreamedTextAppend | app/utils.py:229-247 | the text a client reads from chunks distributes over concatenation |
| StreamTranslator.StreamedContentText | app/utils.py:215-247 | the text carried by the content chunks is the concatenation of the fragments |
| StreamTranslator.Aggregate | app/utils.py:115-164 | raises iff the upstream raised (with its exception); a text completion carries the concatenated fragments with finish `stop` and zero usage; a tool completion carries the extracted calls |
| StreamTranslator.NonStreamChatCompletion | app/utils.py:115-164 | the aggregating loop produces exactly `Aggregate` |
| StreamTranslator.StreamAndAggregateAgree | app/utils.py:115-264 | for an upstream that ends normally: without a stream detection, the aggregate is the text that the stream's content chunks carry; an aggregate tool-call answer implies the stream detected a call |
| RetryExecutor.Retryable | app/utils.py:58 | the exceptions the wrapper catches: `CursorWebError` and `RequestException` |
| RetryExecutor.ErrorResponseFor | app/utils.py:61-77 | a `CursorWebError` becomes its own status and OpenAI error body; a `RequestException` becomes status 500 with `{"error": {message, type: http_error, code: http_error}}` |
| RetryExecutor.ErrorWrapper | app/utils.py:53-81 | at most `MAX_RETRIES + 1` calls; every call but the last raised a retryable exception; the last call's value is returned, its non-retryable exception propagated, or its retryable one on the final attempt turned into the error response; None exactly when `MAX_RETRIES < 0` |
| SafeStreamGate.SafeStreamWrapper | app/utils.py:20-50 | raises iff the generator yields nothing, with its exception or `StopAsyncIteration`; otherwise the replayed stream (first item, then the rest) is the original one |
| SafeStreamGate.GatedSession | main.py:42 | gating the stream translator raises only when the upstream raised before any fragment, with that exception; otherwise it passes the session through unchanged |
| Base64Padding.PadBase64Url | app/utils.py:84-89 | the result has a length divisible by 4, extends the data only with `=` and by fewer than 4 |
| Base64Padding.PaddingIsShortest | app/utils.py:87-89 | no shorter `=`-extension has a length divisible by 4 |
| Base64Padding.PaddingIdempotent | app/utils.py:87-89 | padding already padded text changes nothing |
| CursorMessages.IsPySpace | main.py:95 | the characters Python's `str.isspace` accepts, which `strip()` removes |
| CursorMessages.LStrip | main.py:95 | removes exactly the leading Python whitespace |
| CursorMessages.RStrip | main.py:95 | removes exactly the trailing Python whitespace |
| CursorMessages.Strip | main.py:95 | a contiguous slice of the line, cut only at whitespace, with no whitespace at either end |
| CursorMessages.StripTrimmed | main.py:95 | a line with no whitespace at either end strips to itself |
| CursorMessages.StripIdempotent | main.py:95 | stripping twice is stripping once |
| CursorMessages.ParseSseLine | main.py:93-98 | a payload exactly when the stripped line starts with `data: `, and then `data: ` + payload is the stripped line |
| CursorMessages.ParseSseLineRoundTrip | main.py:93-98 | `data: ` + payload parses back to the payload when it does not end in whitespace |
| CursorMessages.EmptyDataLineIgnored | main.py:93-98 | a bare `data: ` line loses its space to the strip and yields None |
| CursorMessages.PartsTextLength | main.py:77-80 | the joined text's length is the sum of the parts' text lengths; parts without text contribute nothing |
| CursorMessages.HasText | main.py:78 | a part's text is truthy: present and non-empty |
| CursorMessages.PartsText | main.py:76-80 | the joined texts of the parts that have one, in order |
| CursorMessages.MessageText | main.py:73-80 | string content as is, list content as its joined part texts |
| CursorMessages.PresentMessages | main.py:70-72 | the messages that are present, and only those; none is dropped exactly when every entry is present |
| CursorMessages.Converted | main.py:69-90 | the upstream message for each present message, in order |
| CursorMessages.ToCursorMessage | main.py:73-87 | one upstream message with the same role and a single `text` part holding the message's text |
| CursorMessages.ConvertedOneForOne | main.py:65-90 | the i-th result is the conversion of the i-th message that is present |
| CursorMessages.AbsentMessagesSkipped | main.py:70-72 | missing messages produce nothing |
| CursorMessages.ToCursorMessages | main.py:65-90 | the loop (a missing list treated as empty, absent messages skipped, part texts joined) returns exactly `Converted` |

## Left out

- `json.loads`, `json.dumps`, the fenced-block `re.search` and `base64.urlsafe_b64decode` are library calls. The first three are uninterpreted inputs in `Library`. Decoding after padding is not modelled.
- `uuid.uuid4()` and `time.time()` are inputs (`Env`). Each `create_sse_tool_call_chunk` call draws its own uuid and time; the model uses one reply uuid. The extractor returns at most one call, so only one chunk is made.
- The JSON serialization of chunks (`json.dumps(..., ensure_ascii=False)`) is not modelled. Events are structured values; `Data(chunk)` stands for `{"data": json.dumps(chunk)}`. The constant fields (`object`, `role`, `index`) are implied by the constructors.
- `EventSourceResponse` and `JSONResponse` construction, the SSE headers, and FastAPI routing and auth are not modelled.
- Generators are finite sequences. Async suspension, cancellation and back-pressure are not modelled.
- StreamTranslator.StreamChatCompletion: it takes the extractor as a value (`Extractor`) rather than calling `ExtractToolCalls`. `DetectedToolChunk` instantiates it with the real one, `ExtractorOf`.
- StreamTranslator.NonStreamChatCompletion: `None` fragments are not modelled. In the source, `full_content += None` would raise `TypeError` here.
- StreamTranslator.StreamChatCompletion: `None` fragments are not modelled. The streaming loop leaves them out of `full_delta` only (app/utils.py:184). It still sends the opening chunk for a first fragment and a content chunk with `content: null` (app/utils.py:215-247). The model's fragments are strings, so it has no such chunk.
- RetryExecutor.ErrorWrapper: `MAX_RETRIES` is a parameter, not a configuration read. The wrapped call is a function from the attempt number to its outcome, so the model has no side effects between attempts. The HTTP handler (main.py:37-44) passes the same upstream generator to every attempt, and that generator is finished once it has raised. A retried streaming request then sees no fragments and answers with a lone `stop` chunk; a retried non-streaming request answers with an empty `stop` completion. The model does not capture this sharing.
- CursorMessages.ToCursorMessages: message content is either a string or a list of parts. Other content shapes are not modelled, because the request models (app/models.py) are not part of this model.
- `cursor_chat`, `get_x_is_human`, `runjs`, `to_async`, `generate_random_string` and `list_models` are network I/O, subprocesses, randomness and framework plumbing. They are not part of this model.
- app/errors.py is not part of this model. `CursorWebError` is reduced to its status code and its OpenAI error body.
