/**
 * The two helpers of the HTTP handler that shape data for and from the upstream:
 * `parse_sse_line`, which reads one line of the upstream's event stream, and
 * `to_cursor_messages`, which turns OpenAI chat messages into the upstream's
 * role-and-parts messages.
 */
module CursorMessages {
  import opened Optional
  import opened Text

  /** Python's `str.isspace` for one character: the characters `str.strip()` removes. */
  predicate IsPySpace(c: char) {
    c == ' ' || '\t' <= c <= '\r' || '\U{1C}' <= c <= '\U{1F}' || c == '\U{85}' || c == '\U{A0}'
    || c == '\U{1680}' || '\U{2000}' <= c <= '\U{200A}' || c == '\U{2028}' || c == '\U{2029}'
    || c == '\U{202F}' || c == '\U{205F}' || c == '\U{3000}'
  }

  /** `s` without its leading whitespace: a suffix of `s` whose cut-off part is all whitespace. */
  function LStrip(s: string): (r: string)
    ensures |r| <= |s| && r == s[|s| - |r|..]
    ensures forall k :: 0 <= k < |s| - |r| ==> IsPySpace(s[k])
    ensures |r| > 0 ==> !IsPySpace(r[0])
  {
    if |s| > 0 && IsPySpace(s[0]) then LStrip(s[1..]) else s
  }

  /** `s` without its trailing whitespace: a prefix of `s` whose cut-off part is all whitespace. */
  function RStrip(s: string): (r: string)
    ensures |r| <= |s| && r == s[..|r|]
    ensures forall k :: |r| <= k < |s| ==> IsPySpace(s[k])
    ensures |r| > 0 ==> !IsPySpace(r[|r| - 1])
  {
    if |s| > 0 && IsPySpace(s[|s| - 1]) then RStrip(s[..|s| - 1]) else s
  }

  /** Python's `s.strip()`. */
  function Strip(s: string): (r: string)
    ensures |r| <= |s|
    ensures |r| > 0 ==> !IsPySpace(r[0]) && !IsPySpace(r[|r| - 1])
    ensures exists i ::
      (&& 0 <= i <= |s| - |r| && s[i..][..|r|] == r
       && (forall k :: 0 <= k < i ==> IsPySpace(s[k]))
       && (forall k :: i + |r| <= k < |s| ==> IsPySpace(s[k])))
  {
    var l := LStrip(s);
    var r := RStrip(l);
    var i := |s| - |l|;
    assert l == s[i..];
    assert s[i..][..|r|] == r;
    assert forall k :: 0 <= k < i ==> IsPySpace(s[k]);
    assert forall k :: i + |r| <= k < |s| ==> IsPySpace(s[k]) by {
      forall k | i + |r| <= k < |s| ensures IsPySpace(s[k]) {
        assert s[k] == l[k - i];
      }
    }
    assert |r| > 0 ==> r[0] == l[0];
    r
  }

  /** A string with no whitespace at either end is its own stripped form. */
  lemma StripTrimmed(s: string)
    requires |s| > 0 ==> !IsPySpace(s[0]) && !IsPySpace(s[|s| - 1])
    ensures Strip(s) == s
  {
    if |s| > 0 {
      assert LStrip(s) == s;
      assert RStrip(s) == s;
    }
  }

  /** Stripping twice is stripping once. */
  lemma StripIdempotent(s: string)
    ensures Strip(Strip(s)) == Strip(s)
  {
    StripTrimmed(Strip(s));
  }

  const DataPrefix := "data: "

  /**
   * The payload of an upstream event-stream line: after stripping, a line that
   * begins with `data: ` yields the rest of it; any other line yields None.
   */
  function ParseSseLine(line: string): (r: Option<string>)
    ensures r.Some? <==> StartsWith(Strip(line), DataPrefix)
    ensures r.Some? ==> DataPrefix + r.value == Strip(line)
    ensures r.Some? && |r.value| > 0 ==> !IsPySpace(r.value[|r.value| - 1])
  {
    var stripped := Strip(line);
    if StartsWith(stripped, DataPrefix) then
      var payload := stripped[|DataPrefix|..];
      assert DataPrefix + payload == stripped;
      Some(payload)
    else None
  }

  /** A `data: ` line round-trips its payload when the payload does not end in whitespace. */
  lemma ParseSseLineRoundTrip(payload: string)
    requires |payload| > 0 && !IsPySpace(payload[|payload| - 1])
    ensures ParseSseLine(DataPrefix + payload) == Some(payload)
  {
    var line := DataPrefix + payload;
    StripTrimmed(line);
    assert line[..|DataPrefix|] == DataPrefix;
  }

  /** A bare `data: ` line loses its trailing space to the strip and is not a data line. */
  lemma EmptyDataLineIgnored()
    ensures ParseSseLine(DataPrefix) == None
  {
    assert LStrip(DataPrefix) == DataPrefix;
    assert RStrip(DataPrefix) == "data:";
  }

  /** One element of an OpenAI message's list content. */
  datatype ContentPart = ContentPart(partType: string, text: Option<string>)

  /** An OpenAI message's content: a plain string or a list of parts. */
  datatype MessageContent = TextContent(text: string) | PartsContent(parts: seq<ContentPart>)

  datatype OpenAIMessage = OpenAIMessage(role: string, content: MessageContent)

  /** A part of an upstream message: `{'type': 'text', 'text': ...}`. */
  datatype CursorPart = CursorPart(partType: string, text: string)

  /** An upstream message: `{'role': ..., 'parts': [...]}`. */
  datatype CursorMessage = CursorMessage(role: string, parts: seq<CursorPart>)

  /** Python truthiness of an optional text: present and non-empty. */
  predicate HasText(p: ContentPart) {
    p.text.Some? && p.text.value != ""
  }

  /** The texts of the parts that carry one, joined in order. */
  function PartsText(parts: seq<ContentPart>): string {
    if parts == [] then ""
    else
      var last := parts[|parts| - 1];
      PartsText(parts[..|parts| - 1]) + (if HasText(last) then last.text.value else "")
  }

  /** The joined text's length is the sum of the parts' text lengths; parts without text give the empty string. */
  lemma {:induction false} PartsTextLength(parts: seq<ContentPart>)
    ensures |PartsText(parts)| == TextLengths(parts)
    ensures (forall p :: p in parts ==> !HasText(p)) ==> PartsText(parts) == ""
  {
    if parts != [] {
      PartsTextLength(parts[..|parts| - 1]);
      assert forall p :: p in parts[..|parts| - 1] ==> p in parts;
    }
  }

  /** The summed length of the parts' texts. */
  function TextLengths(parts: seq<ContentPart>): nat {
    if parts == [] then 0
    else
      var last := parts[|parts| - 1];
      TextLengths(parts[..|parts| - 1]) + (if last.text.Some? then |last.text.value| else 0)
  }

  /** The text a message is reduced to. */
  function MessageText(m: OpenAIMessage): string {
    match m.content
    case TextContent(s) => s
    case PartsContent(parts) => PartsText(parts)
  }

  /** The upstream form of one message: its role and a single text part. */
  function ToCursorMessage(m: OpenAIMessage): (c: CursorMessage)
    ensures c.role == m.role && |c.parts| == 1
    ensures c.parts[0].partType == "text" && c.parts[0].text == MessageText(m)
  {
    CursorMessage(m.role, [CursorPart("text", MessageText(m))])
  }

  /** The upstream forms of the messages that are present, in order. */
  function Converted(messages: seq<Option<OpenAIMessage>>): seq<CursorMessage> {
    if messages == [] then []
    else
      var last := messages[|messages| - 1];
      Converted(messages[..|messages| - 1]) + (if last.Some? then [ToCursorMessage(last.value)] else [])
  }

  /** The messages that are present, in order. */
  function PresentMessages(messages: seq<Option<OpenAIMessage>>): (r: seq<OpenAIMessage>)
    ensures |r| <= |messages|
    ensures forall m :: m in r <==> Some(m) in messages
    ensures |r| == |messages| <==> forall i :: 0 <= i < |messages| ==> messages[i].Some?
  {
    if messages == [] then []
    else
      var last := messages[|messages| - 1];
      PresentMessages(messages[..|messages| - 1]) + (if last.Some? then [last.value] else [])
  }

  /**
   * Conversion is one-for-one on the messages that are present: the i-th upstream
   * message has the role of the i-th present message and its text as a single part.
   */
  lemma {:induction false} ConvertedOneForOne(messages: seq<Option<OpenAIMessage>>)
    ensures |Converted(messages)| == |PresentMessages(messages)|
    ensures forall i :: 0 <= i < |Converted(messages)| ==>
      Converted(messages)[i] == ToCursorMessage(PresentMessages(messages)[i])
  {
    if messages != [] {
      ConvertedOneForOne(messages[..|messages| - 1]);
    }
  }

  /** Missing messages are skipped: an all-absent list converts to nothing. */
  lemma {:induction false} AbsentMessagesSkipped(messages: seq<Option<OpenAIMessage>>)
    requires forall i :: 0 <= i < |messages| ==> messages[i].None?
    ensures Converted(messages) == []
  {
    if messages != [] {
      AbsentMessagesSkipped(messages[..|messages| - 1]);
    }
  }

  /**
   * `to_cursor_messages`: a missing list is an empty one; every present message
   * becomes one upstream message whose text is the message's string content or
   * the join of its parts' non-empty texts.
   */
  method ToCursorMessages(messageList: Option<seq<Option<OpenAIMessage>>>) returns (result: seq<CursorMessage>)
    ensures result == Converted(messageList.GetOr([]))
  {
    var messages := messageList.GetOr([]);
    result := [];
    for i := 0 to |messages|
      invariant result == Converted(messages[..i])
    {
      assert messages[..i + 1][..i] == messages[..i];
      var m := messages[i];
      if m.None? {
        continue;
      }
      var text := "";
      match m.value.content {
        case TextContent(s) =>
          text := s;
        case PartsContent(parts) =>
          for j := 0 to |parts|
            invariant text == PartsText(parts[..j])
          {
            assert parts[..j + 1][..j] == parts[..j];
            if !HasText(parts[j]) {
              continue;
            }
            text := text + parts[j].text.value;
          }
          assert parts[..|parts|] == parts;
      }
      var message := CursorMessage(m.value.role, [CursorPart("text", text)]);
      result := result + [message];
    }
    assert messages[..|messages|] == messages;
  }
}
