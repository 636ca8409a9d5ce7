/**
 * `parse_tool_call_from_content` and `extract_tool_calls_from_response`: find a
 * `{"name": ..., "arguments": ...}` object in free text, first in a fenced code
 * block, then inline with the bounded scanner, and turn it into an OpenAI tool call.
 */
module ToolCallExtractor {
  import opened Optional
  import opened Text
  import opened JsonValues
  import opened ToolCallScanner
  import opened ResponseFormatter

  const QuotedName: string := "\"name\""
  const QuotedArguments: string := "\"arguments\""
  const Fence: string := "```"

  /** The value `json.loads` gave is a dict holding both `name` and `arguments`. */
  predicate IsToolData(v: Json) {
    v.JObject? && "name" in v.fields && "arguments" in v.fields
  }

  /** How the fenced-block attempt ends: an accepted dict, fall through to the inline scan, or an escaped exception. */
  datatype FencedVerdict = Found(data: JsonObject) | FallThrough | Aborted

  function FencedStage(content: string, lib: Library): (r: FencedVerdict)
    ensures r.Found? ==> "name" in r.data && "arguments" in r.data
    ensures r.Found? || r.Aborted? ==> Contains(content, Fence) && lib.fencedBlock(content).Some?
    ensures Contains(content, Fence) && lib.fencedBlock(content).Some? ==>
      var loaded := lib.loads(lib.fencedBlock(content).value);
      && (loaded.Parsed? && IsToolData(loaded.value) <==> r.Found?)
      && (r.Found? ==> loaded == Parsed(JObject(r.data)))
      && (loaded.OtherFailure? <==> r.Aborted?)
  {
    if !Contains(content, Fence) then FallThrough
    else match lib.fencedBlock(content)
      case None => FallThrough
      case Some(block) =>
        match lib.loads(block)
        case Parsed(v) => if IsToolData(v) then Found(v.fields) else FallThrough
        case DecodeError => FallThrough
        case OtherFailure => Aborted
  }

  /**
   * The text the inline scan hands to `json.loads`: from the first `{"name"` to the
   * brace that closes it, provided both quoted keys occur and the object closes
   * within the window.
   */
  function InlineCandidate(content: string): (r: Option<string>)
    ensures r.Some? ==> Contains(content, QuotedName) && Contains(content, QuotedArguments)
    ensures !Contains(content, Marker) ==> r.None?
    ensures Contains(content, QuotedName) && Contains(content, QuotedArguments) ==>
      var start := IndexOf(content, Marker);
      start >= 0 && ObjectEnd(content, start) > start ==> r == Some(content[start..ObjectEnd(content, start)])
    ensures r.Some? ==>
      var start := IndexOf(content, Marker);
      start >= 0 && ObjectEnd(content, start) > start
  {
    if !(Contains(content, QuotedName) && Contains(content, QuotedArguments)) then None
    else
      var start := IndexOf(content, Marker);
      if start == -1 then None
      else
        var e := ObjectEnd(content, start);
        if e > start then Some(content[start..e]) else None
  }

  /** The walk cannot close inside the seven characters of `{"name"`: its quote opens a string. */
  lemma NoCloseInsideMarker(content: string, start: nat)
    requires OccursAt(content, Marker, start)
    ensures forall k :: start < k <= start + 7 ==> !ClosesAt(content, start, k)
  {
    assert content[start..start + 7] == Marker;
    assert content[start] == '{' && content[start + 1] == '"' && content[start + 2] == 'n';
    assert content[start + 3] == 'a' && content[start + 4] == 'm' && content[start + 5] == 'e';
    assert Walk(content, start, start + 1) == ScanState(1, false, false);
    assert Walk(content, start, start + 2) == ScanState(1, true, false);
    assert Walk(content, start, start + 3) == ScanState(1, true, false);
    assert Walk(content, start, start + 4) == ScanState(1, true, false);
    assert Walk(content, start, start + 5) == ScanState(1, true, false);
    assert Walk(content, start, start + 6) == ScanState(1, true, false);
  }

  /**
   * The inline candidate is `content[start:end]` for the first `{"name"` at `start`,
   * with `start < end <= start + 1000`; it begins with `{"name"`, ends with `}`, and
   * its out-of-string brace depth is 0 at its end and positive at every earlier position.
   */
  lemma InlineCandidateShape(content: string)
    requires InlineCandidate(content).Some?
    ensures var cand := InlineCandidate(content).value;
            var start := IndexOf(content, Marker);
      && 0 <= start
      && (forall k :: 0 <= k < start ==> !OccursAt(content, Marker, k))
      && start + |cand| <= |content|
      && cand == content[start..start + |cand|]
      && |Marker| < |cand| <= Window
      && StartsWith(cand, Marker)
      && cand[|cand| - 1] == '}'
      && Walk(cand, 0, |cand|).level == 0
      && forall k :: 0 < k < |cand| ==> Walk(cand, 0, k).level > 0
  {
    var cand := InlineCandidate(content).value;
    var start := IndexOf(content, Marker);
    var e := ObjectEnd(content, start);
    assert content[start..start + 7] == Marker;
    NoCloseInsideMarker(content, start);
    BalancedObject(content, start);
    assert e > start + 7;
    assert cand[..7] == content[start..start + 7];
    WalkOnSlice(content, start, e, e);
    forall k | 0 < k < |cand| ensures Walk(cand, 0, k).level > 0 {
      WalkOnSlice(content, start, e, start + k);
    }
  }

  /** The inline attempt: parse the candidate and accept a dict with both keys. */
  function InlineStage(content: string, lib: Library): (r: Option<JsonObject>)
    ensures r.Some? ==> "name" in r.value && "arguments" in r.value
    ensures r.Some? <==>
      InlineCandidate(content).Some? && lib.loads(InlineCandidate(content).value).Parsed?
      && IsToolData(lib.loads(InlineCandidate(content).value).value)
    ensures r.Some? ==> lib.loads(InlineCandidate(content).value) == Parsed(JObject(r.value))
  {
    match InlineCandidate(content)
    case None => None
    case Some(text) =>
      match lib.loads(text)
      case Parsed(v) => if IsToolData(v) then Some(v.fields) else None
      case _ => None
  }

  /**
   * `parse_tool_call_from_content`: the dict found, or None. Every failure (no
   * candidate, a parse error, a value that is not a dict with both keys, any other
   * exception) yields None; nothing is raised.
   */
  function ParseToolCall(content: string, lib: Library): (r: Option<JsonObject>)
    ensures r.Some? ==> "name" in r.value && "arguments" in r.value
    ensures r.Some? ==>
      || (Contains(content, Fence) && lib.fencedBlock(content).Some?
          && lib.loads(lib.fencedBlock(content).value) == Parsed(JObject(r.value)))
      || (InlineCandidate(content).Some? && lib.loads(InlineCandidate(content).value) == Parsed(JObject(r.value)))
    ensures !Contains(content, Fence) && !Contains(content, Marker) ==> r.None?
    ensures Contains(content, Fence) && lib.fencedBlock(content).Some? ==>
      var loaded := lib.loads(lib.fencedBlock(content).value);
      && (loaded.Parsed? && IsToolData(loaded.value) ==> r == Some(loaded.value.fields))
      && (loaded.OtherFailure? ==> r == None)
    ensures FencedStage(content, lib).FallThrough? && InlineCandidate(content).Some? ==>
      var loaded := lib.loads(InlineCandidate(content).value);
      loaded.Parsed? && IsToolData(loaded.value) ==> r == Some(loaded.value.fields)
  {
    match FencedStage(content, lib)
    case Found(data) => Some(data)
    case Aborted => None
    case FallThrough => InlineStage(content, lib)
  }

  /** When neither the fenced block nor the inline candidate parses to a dict with both keys, no call is found. */
  lemma NoAcceptedParseNoCall(content: string, lib: Library)
    requires forall block :: lib.fencedBlock(content) == Some(block) ==> !(lib.loads(block).Parsed? && IsToolData(lib.loads(block).value))
    requires forall text :: InlineCandidate(content) == Some(text) ==> !(lib.loads(text).Parsed? && IsToolData(lib.loads(text).value))
    ensures ParseToolCall(content, lib) == None
  {
  }

  /** The method form of `parse_tool_call_from_content`, running the scanner loop. */
  method ParseToolCallFromContent(content: string, lib: Library) returns (r: Option<JsonObject>)
    ensures r == ParseToolCall(content, lib)
  {
    if Contains(content, Fence) {
      var jsonMatch := lib.fencedBlock(content);
      if jsonMatch.Some? {
        var loaded := lib.loads(jsonMatch.value);
        if loaded.OtherFailure? {
          return None;
        }
        if loaded.Parsed? && IsToolData(loaded.value) {
          return Some(loaded.value.fields);
        }
      }
    }
    if Contains(content, QuotedName) && Contains(content, QuotedArguments) {
      var startPos := IndexOf(content, Marker);
      if startPos != -1 {
        var endPos := ScanObjectEnd(content, startPos);
        if endPos > startPos {
          var potentialJson := content[startPos..endPos];
          var loaded := lib.loads(potentialJson);
          if loaded.Parsed? && IsToolData(loaded.value) {
            return Some(loaded.value.fields);
          }
        }
      }
    }
    return None;
  }

  /** The cheap pre-check: `function_call`, or both unquoted `name` and `arguments`, occur. */
  predicate MayHoldToolCall(content: string) {
    Contains(content, "function_call") || (Contains(content, "name") && Contains(content, "arguments"))
  }

  /** The pre-check never rejects text that the inline scan could accept: the quoted keys contain the unquoted ones. */
  lemma InlineCandidatePassesPreCheck(content: string)
    requires InlineCandidate(content).Some?
    ensures MayHoldToolCall(content)
  {
    assert Contains(content, QuotedName) && Contains(content, QuotedArguments);
    assert QuotedName[1..5] == "name";
    ContainsInner(content, QuotedName, "name", 1);
    assert QuotedArguments[1..10] == "arguments";
    ContainsInner(content, QuotedArguments, "arguments", 1);
  }

  /** `arguments` as a string: kept when it already is one, JSON-encoded otherwise. */
  function ArgumentsText(v: Json, lib: Library): (r: string)
    ensures v.JString? ==> r == v.s
    ensures !v.JString? ==> r == lib.dumps(v)
  {
    if v.JString? then v.s else lib.dumps(v)
  }

  /** The tool-call dict built from parsed tool data. */
  function ToolCallObject(data: JsonObject, id: string, lib: Library): JsonObject
    requires "name" in data && "arguments" in data
  {
    map[
      "id" := JString(id),
      "type" := JString("function"),
      "function" := JObject(map[
        "name" := data["name"],
        "arguments" := JString(ArgumentsText(data["arguments"], lib))])]
  }

  /** `extract_tool_calls_from_response`: None, or a list of tool calls built from the parsed dict. */
  function ToolCalls(content: string, callUuid: Uuid, lib: Library): (r: Option<seq<JsonObject>>)
    ensures !MayHoldToolCall(content) ==> r.None?
    ensures r.Some? <==> MayHoldToolCall(content) && ParseToolCall(content, lib).Some?
  {
    if !MayHoldToolCall(content) then None
    else match ParseToolCall(content, lib)
      case None => None
      case Some(data) =>
        if |data| > 0 && "name" in data then Some([ToolCallObject(data, "call_" + Take(UuidText(callUuid), 8), lib)])
        else None
  }

  /**
   * A detected call list holds exactly one call, of type `function`, with id `call_`
   * followed by eight hex digits, the parsed name, and the arguments as a string.
   */
  lemma ToolCallShape(content: string, callUuid: Uuid, lib: Library)
    requires ToolCalls(content, callUuid, lib).Some?
    ensures var calls := ToolCalls(content, callUuid, lib).value;
            var data := ParseToolCall(content, lib).value;
      && |calls| == 1
      && "type" in calls[0] && "id" in calls[0] && "function" in calls[0]
      && calls[0]["type"] == JString("function")
      && calls[0]["id"] == JString("call_" + callUuid[..8])
      && |calls[0]["id"].s| == 13 && (forall i :: 5 <= i < 13 ==> IsHexDigit(calls[0]["id"].s[i]))
      && calls[0]["function"] == JObject(map[
           "name" := data["name"],
           "arguments" := JString(ArgumentsText(data["arguments"], lib))])
  {
    UuidTextPrefix(callUuid);
    var id := "call_" + callUuid[..8];
    forall i | 5 <= i < 13 ensures IsHexDigit(id[i]) {
      assert id[i] == callUuid[i - 5];
    }
  }

  /** The method form of `extract_tool_calls_from_response`, building its list by appending. */
  method ExtractToolCalls(content: string, callUuid: Uuid, lib: Library) returns (r: Option<seq<JsonObject>>)
    ensures r == ToolCalls(content, callUuid, lib)
  {
    if !(Contains(content, "function_call") || (Contains(content, "name") && Contains(content, "arguments"))) {
      assert !MayHoldToolCall(content);
      return None;
    }
    assert MayHoldToolCall(content);
    var toolCalls: seq<JsonObject> := [];
    var toolData := ParseToolCallFromContent(content, lib);
    if toolData.Some? && |toolData.value| > 0 && "name" in toolData.value {
      var toolCallId := "call_" + Take(UuidText(callUuid), 8);
      toolCalls := toolCalls + [ToolCallObject(toolData.value, toolCallId, lib)];
      assert toolCalls == [ToolCallObject(toolData.value, toolCallId, lib)];
    }
    r := if |toolCalls| > 0 then Some(toolCalls) else None;
  }

  /** `extract_tool_calls_from_response` as a value, for the translators that call it. */
  function ExtractorOf(callUuid: Uuid, lib: Library): string -> Option<seq<JsonObject>> {
    text => ToolCalls(text, callUuid, lib)
  }

  /** Empty text never holds a tool call: it fails the cheap pre-check. */
  lemma EmptyTextHasNoCall(callUuid: Uuid, lib: Library)
    ensures ToolCalls("", callUuid, lib).None?
    ensures ExtractorOf(callUuid, lib)("").None?
  {
    assert !OccursAt("", "function_call", IndexOf("", "function_call"));
    assert !OccursAt("", "name", IndexOf("", "name"));
  }
}
