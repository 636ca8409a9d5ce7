/**
 * A worked detection: the inline tool call `{"name":"f","arguments":{}}`, written without a
 * fence, is found by `parse_tool_call_from_content` and passes the pre-check of
 * `extract_tool_calls_from_response`. The scan is followed character by character,
 * including the inner `{}` that must not end the object.
 */
module DetectionExample {
  import opened Optional
  import opened Text
  import opened JsonValues
  import opened ToolCallScanner
  import opened ToolCallExtractor
  import opened ResponseFormatter

  const InlineExample: string := "{\"name\":\"f\",\"arguments\":{}}"

  /** What `json.loads` makes of the example. */
  const InlineExampleData: JsonObject := map["name" := JString("f"), "arguments" := JObject(map[])]

  /** The example's characters, one by one. */
  predicate IsInlineExample(s: string) {
    && |s| == 27
    && s[0] == '{' && s[1] == '\"' && s[2] == 'n' && s[3] == 'a' && s[4] == 'm' && s[5] == 'e' && s[6] == '\"'
    && s[7] == ':' && s[8] == '\"' && s[9] == 'f' && s[10] == '\"' && s[11] == ',' && s[12] == '\"' && s[13] == 'a'
    && s[14] == 'r' && s[15] == 'g' && s[16] == 'u' && s[17] == 'm' && s[18] == 'e' && s[19] == 'n' && s[20] == 't'
    && s[21] == 's' && s[22] == '\"' && s[23] == ':' && s[24] == '{' && s[25] == '}' && s[26] == '}'
  }

  /*
   * The characters of the string literal, read seven at a time: reading all 27
   * indices of the literal in one proof is more than the solver manages within its
   * limit, so `InlineExampleText` assembles the four groups. The walk lemmas below
   * then work from `IsInlineExample` alone, never from the literal.
   */
  lemma InlineExampleChars0()
    ensures |InlineExample| == 27
    ensures InlineExample[0] == '{' && InlineExample[1] == '\"' && InlineExample[2] == 'n' && InlineExample[3] == 'a' && InlineExample[4] == 'm' && InlineExample[5] == 'e' && InlineExample[6] == '\"'
  {
  }

  lemma InlineExampleChars1()
    ensures |InlineExample| == 27
    ensures InlineExample[7] == ':' && InlineExample[8] == '\"' && InlineExample[9] == 'f' && InlineExample[10] == '\"' && InlineExample[11] == ',' && InlineExample[12] == '\"' && InlineExample[13] == 'a'
  {
  }

  lemma InlineExampleChars2()
    ensures |InlineExample| == 27
    ensures InlineExample[14] == 'r' && InlineExample[15] == 'g' && InlineExample[16] == 'u' && InlineExample[17] == 'm' && InlineExample[18] == 'e' && InlineExample[19] == 'n' && InlineExample[20] == 't'
  {
  }

  lemma InlineExampleChars3()
    ensures |InlineExample| == 27
    ensures InlineExample[21] == 's' && InlineExample[22] == '\"' && InlineExample[23] == ':' && InlineExample[24] == '{' && InlineExample[25] == '}' && InlineExample[26] == '}'
  {
  }

  lemma InlineExampleText()
    ensures IsInlineExample(InlineExample)
  {
    InlineExampleChars0();
    InlineExampleChars1();
    InlineExampleChars2();
    InlineExampleChars3();
  }

  /** The walk over the first twelve characters, `{"name":"f",`, ends outside strings at depth 1. */
  lemma WalkHead(s: string)
    requires IsInlineExample(s)
    ensures Walk(s, 0, 12) == ScanState(1, false, false)
  {
    assert Walk(s, 0, 1) == ScanState(1, false, false);
    assert Walk(s, 0, 2) == ScanState(1, true, false);
    assert Walk(s, 0, 3) == ScanState(1, true, false);
    assert Walk(s, 0, 4) == ScanState(1, true, false);
    assert Walk(s, 0, 5) == ScanState(1, true, false);
    assert Walk(s, 0, 6) == ScanState(1, true, false);
    assert Walk(s, 0, 7) == ScanState(1, false, false);
    assert Walk(s, 0, 8) == ScanState(1, false, false);
    assert Walk(s, 0, 9) == ScanState(1, true, false);
    assert Walk(s, 0, 10) == ScanState(1, true, false);
    assert Walk(s, 0, 11) == ScanState(1, false, false);
  }

  /** The inner `{` raises the depth to 2 and its `}` lowers it back to 1. */
  lemma WalkTail(s: string)
    requires IsInlineExample(s)
    ensures Walk(s, 0, 25).level == 2
    ensures Walk(s, 0, 26) == ScanState(1, false, false)
  {
    WalkHead(s);
    assert Walk(s, 0, 13) == ScanState(1, true, false);
    assert Walk(s, 0, 14) == ScanState(1, true, false);
    assert Walk(s, 0, 15) == ScanState(1, true, false);
    assert Walk(s, 0, 16) == ScanState(1, true, false);
    assert Walk(s, 0, 17) == ScanState(1, true, false);
    assert Walk(s, 0, 18) == ScanState(1, true, false);
    assert Walk(s, 0, 19) == ScanState(1, true, false);
    assert Walk(s, 0, 20) == ScanState(1, true, false);
    assert Walk(s, 0, 21) == ScanState(1, true, false);
    assert Walk(s, 0, 22) == ScanState(1, true, false);
    assert Walk(s, 0, 23) == ScanState(1, false, false);
    assert Walk(s, 0, 24) == ScanState(1, false, false);
  }

  /** The scan closes the object at the last brace, not at the inner one. */
  lemma ExampleObjectEnd(s: string)
    requires IsInlineExample(s)
    ensures ObjectEnd(s, 0) == |s|
  {
    WalkTail(s);
    assert ClosesAt(s, 0, 27);
    forall j | 0 < j < 26 ensures !ClosesAt(s, 0, j) {
      assert s[j - 1] != '}';
    }
    assert !ClosesAt(s, 0, 26);
  }

  /** The example starts with `{"name"`, holds both quoted keys and no fence. */
  lemma ExampleOccurrences(s: string)
    requires IsInlineExample(s)
    ensures IndexOf(s, Marker) == 0
    ensures Contains(s, QuotedName) && Contains(s, QuotedArguments)
    ensures !Contains(s, Fence)
  {
    assert s[0..7] == Marker;
    assert OccursAt(s, Marker, 0);
    assert s[1..7] == QuotedName;
    assert OccursAt(s, QuotedName, 1);
    assert s[12..23] == QuotedArguments;
    assert OccursAt(s, QuotedArguments, 12);
    forall k ensures !OccursAt(s, Fence, k) {
      if 0 <= k && k + 3 <= |s| {
        assert s[k..k + 3][0] == s[k];
      }
    }
  }

  /**
   * The inline path detects the example: the whole text is the candidate, and when
   * `json.loads` reads it as the expected dict, that dict is the parsed tool call
   * and `extract_tool_calls_from_response` returns a list of one call.
   */
  lemma InlineExampleDetected(callUuid: Uuid, lib: Library)
    requires lib.loads(InlineExample) == Parsed(JObject(InlineExampleData))
    ensures InlineCandidate(InlineExample) == Some(InlineExample)
    ensures ParseToolCall(InlineExample, lib) == Some(InlineExampleData)
    ensures MayHoldToolCall(InlineExample)
    ensures ToolCalls(InlineExample, callUuid, lib).Some? && |ToolCalls(InlineExample, callUuid, lib).value| == 1
  {
    InlineExampleText();
    ExampleOccurrences(InlineExample);
    ExampleObjectEnd(InlineExample);
    assert InlineExample[0..|InlineExample|] == InlineExample;
    InlineCandidatePassesPreCheck(InlineExample);
    ToolCallShape(InlineExample, callUuid, lib);
  }
}
