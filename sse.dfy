/** The event-stream path: `CortexResponseParser.parse_sse_response` with its
    helpers `_process_sse_line` and `_parse_delta_content`.

    A line `event: NAME` sets the current event; a line `data: PAYLOAD` is
    folded under it; `data: [DONE]` stops the fold.  `json.loads` is the
    caller-supplied `decode` (`None` where it raises JSONDecodeError). */
module Sse {
  import opened PyJson
  import opened Model

  type Decoder = string -> Option<Json>

  const TextDeltaEvent := "response.text.delta"
  const TextEvent := "response.text"
  const ThinkingDeltaEvent := "response.thinking.delta"
  const ThinkingEvent := "response.thinking"
  const StatusEvent := "response.status"
  const ToolResultEvent := "response.tool_result"

  /** Events whose payloads are never folded as message deltas. */
  const DirectEvents: seq<string> :=
    [TextDeltaEvent, TextEvent, ThinkingDeltaEvent, ThinkingEvent, StatusEvent]

  const OpenTag := "<thinking>"
  const CloseTag := "</thinking>"

  /** `_parse_delta_content`'s result dict. */
  datatype DeltaParts = DeltaParts(text: string, toolUse: seq<Json>, toolResults: seq<Json>)

  const NoParts := DeltaParts("", [], [])

  /** The dicts `_process_sse_line` returns, one constructor per `type`. */
  datatype ParsedLine =
    | NotData                                   // {}
    | Done                                      // {'type': 'done'}
    | TraceData(payload: string)                // {'type': 'trace', ...}
    | FinalMessage(role: Json, content: Json)   // {'type': 'final_message', ...}
    | Message(parts: DeltaParts)                // {'type': 'message', ...}
    | OtherData(body: Json)                     // {'type': 'other', ...}
    | ParseError                                // {'type': 'error', ...}

  /** The fold's variables: `current_event`, the three `accumulated_content`
      buffers, `accumulated_thinking` and `response.status_messages`. */
  datatype SseState = SseState(
    event: Option<string>,
    text: string,
    toolUse: seq<Json>,
    toolResults: seq<Json>,
    thinking: seq<string>,
    status: seq<Json>)

  const Init := SseState(None, "", [], [], [], [])

  predicate IsDataLine(line: string) { StartsWith(line, "data: ") }

  predicate IsEventLine(line: string) { StartsWith(line, "event: ") }

  lemma EventLineIsNotData(line: string)
    requires IsEventLine(line)
    ensures !IsDataLine(line)
  {
    assert line[0] == line[..7][0] == 'e';
  }

  /** `line[6:].strip()` of a data line. */
  function Payload(line: string): string
    requires IsDataLine(line)
  {
    Strip(line[6..])
  }

  /** The terminator: a data line whose payload is `[DONE]`. */
  predicate IsDoneLine(line: string) {
    IsDataLine(line) && Payload(line) == "[DONE]"
  }

  predicate NoDone(lines: seq<string>) {
    forall k :: 0 <= k < |lines| ==> !IsDoneLine(lines[k])
  }

  // ---------------------------------------------------------------------
  // The thinking marker search

  /** `re.search(r'<thinking>(.*?)</thinking>', t, re.DOTALL).group(1)`. */
  function ThinkingSpan(t: string): Option<string> {
    match IndexOf(t, OpenTag, 0)
    case None => None
    case Some(p) =>
      match IndexOf(t, CloseTag, p + |OpenTag|)
      case None => None
      case Some(q) => Some(t[p + |OpenTag|..q])
  }

  /** The lazy match: the text between the first opening marker and the
      nearest closing marker after it; no match when no opening marker is
      followed by a closing one. */
  lemma ThinkingSpanIsLazyMatch(t: string)
    ensures ThinkingSpan(t).None? ==>
      forall p, q :: OccursAt(t, OpenTag, p) && OccursAt(t, CloseTag, q) ==> q < p + |OpenTag|
    ensures ThinkingSpan(t).Some? ==> exists p, q ::
      OccursAt(t, OpenTag, p) && (forall i :: 0 <= i < p ==> !OccursAt(t, OpenTag, i))
      && p + |OpenTag| <= q && OccursAt(t, CloseTag, q)
      && (forall i :: p + |OpenTag| <= i < q ==> !OccursAt(t, CloseTag, i))
      && ThinkingSpan(t).value == t[p + |OpenTag|..q]
  {
    IndexOfIsFirst(t, OpenTag, 0);
    match IndexOf(t, OpenTag, 0)
    case None =>
    case Some(p) =>
      IndexOfIsFirst(t, CloseTag, p + |OpenTag|);
  }

  /** What one thinking payload text adds to `accumulated_thinking`: the
      stripped span exactly when there is a span and it is not blank. */
  function SpanAdded(t: string): (r: seq<string>)
    ensures |r| <= 1
    ensures r != [] ==> ThinkingSpan(t).Some? && r[0] == Strip(ThinkingSpan(t).value) && r[0] != ""
    ensures ThinkingSpan(t).Some? && Strip(ThinkingSpan(t).value) != "" ==> r == [Strip(ThinkingSpan(t).value)]
  {
    match ThinkingSpan(t)
    case None => []
    case Some(x) => if Strip(x) == "" then [] else [Strip(x)]
  }

  // ---------------------------------------------------------------------
  // _parse_delta_content

  /** One delta entry: `text` entries concatenate, `tool_use` and
      `tool_results` entries are appended, anything else is ignored. */
  function AddEntry(acc: DeltaParts, entry: Json): Py<DeltaParts> {
    var kind :- Get(entry, "type", JNull);
    if kind == JStr("text") then
      var t :- Get(entry, "text", JStr(""));
      if t.JStr? then Ok(acc.(text := acc.text + t.s)) else Raise(TypeError)
    else if kind == JStr("tool_use") then
      var u :- Get(entry, "tool_use", JObj([]));
      Ok(acc.(toolUse := acc.toolUse + [u]))
    else if kind == JStr("tool_results") then
      var r :- Get(entry, "tool_results", JObj([]));
      Ok(acc.(toolResults := acc.toolResults + [r]))
    else Ok(acc)
  }

  function DeltaFold(acc: DeltaParts, entries: seq<Json>): Py<DeltaParts>
    decreases |entries|
  {
    if |entries| == 0 then Ok(acc)
    else
      var acc' :- AddEntry(acc, entries[0]);
      DeltaFold(acc', entries[1..])
  }

  /** `_parse_delta_content(content)`. */
  function ParseDeltaContent(content: Json): Py<DeltaParts> {
    var entries :- Iter(content);
    DeltaFold(NoParts, entries)
  }

  // ---------------------------------------------------------------------
  // _process_sse_line

  /** `_process_sse_line(line)`. */
  function ProcessSseLine(line: string, decode: Decoder): Py<ParsedLine> {
    if !IsDataLine(line) then Ok(NotData)
    else
      var jsonStr := Payload(line);
      if jsonStr == "[DONE]" then Ok(Done)
      else if StartsWith(jsonStr, "[") then Ok(TraceData(jsonStr))
      else match decode(jsonStr)
        case None => Ok(ParseError)
        case Some(data) =>
          var hasContent :- PyIn("content", data);
          var hasRole :- if hasContent then PyIn("role", data) else Ok(false);
          var role :- if hasRole then Get(data, "role", JNull) else Ok(JNull);
          if hasContent && hasRole && role == Assistant then
            var r :- At(data, "role");
            var c :- At(data, "content");
            Ok(FinalMessage(r, c))
          else
            var obj :- Get(data, "object", JNull);
            if obj == JStr("message.delta") then
              var delta :- Get(data, "delta", JObj([]));
              var hasDeltaContent :- PyIn("content", delta);
              if hasDeltaContent then
                var c :- At(delta, "content");
                var parts :- ParseDeltaContent(c);
                Ok(Message(parts))
              else Ok(OtherData(data))
            else Ok(OtherData(data))
  }

  // ---------------------------------------------------------------------
  // parse_sse_response

  /** The event-specific branch of the fold (the `try` block): only a
      decodable payload reaches it. */
  function EventFold(st: SseState, decoded: Option<Json>): Py<SseState> {
    match decoded
    case None => Ok(st)
    case Some(v) =>
      if st.event == Some(ThinkingDeltaEvent) || st.event == Some(ThinkingEvent) then
        var hasText :- PyIn("text", v);
        if !hasText then Ok(st)
        else
          var t :- At(v, "text");
          if !t.JStr? then Raise(TypeError)
          else Ok(st.(thinking := st.thinking + SpanAdded(t.s)))
      else if st.event == Some(StatusEvent) then
        var hasMessage :- PyIn("message", v);
        if !hasMessage then Ok(st)
        else
          var m :- At(v, "message");
          Ok(st.(status := st.status + [m]))
      else if st.event == Some(TextDeltaEvent) then
        var hasText :- PyIn("text", v);
        if !hasText then Ok(st)
        else
          var t :- At(v, "text");
          if !t.JStr? then Raise(TypeError)
          else Ok(st.(text := st.text + t.s))
      else if st.event == Some(ToolResultEvent) then
        var hasContent :- PyIn("content", v);
        var hasId :- if hasContent then PyIn("tool_use_id", v) else Ok(false);
        if !(hasContent && hasId) then Ok(st)
        else
          var id :- At(v, "tool_use_id");
          var content :- At(v, "content");
          Ok(st.(toolResults := st.toolResults + [JObj([("tool_use_id", id), ("content", content)])]))
      else Ok(st)
  }

  /** Message deltas are folded unless the current event is a direct one. */
  predicate FoldsDeltas(event: Option<string>) {
    !(event.Some? && event.value in DirectEvents)
  }

  function Absorb(st: SseState, p: DeltaParts): SseState {
    st.(text := st.text + p.text, toolUse := st.toolUse + p.toolUse, toolResults := st.toolResults + p.toolResults)
  }

  /** One iteration of the loop, for a line that is not the terminator. */
  function SseStep(st: SseState, line: string, decode: Decoder): Py<SseState> {
    if IsEventLine(line) then Ok(st.(event := Some(Strip(line[7..]))))
    else
      var st1 :- if IsDataLine(line) then EventFold(st, decode(Payload(line))) else Ok(st);
      var parsed :- ProcessSseLine(line, decode);
      Ok(if FoldsDeltas(st1.event) && parsed.Message? then Absorb(st1, parsed.parts) else st1)
  }

  /** The loop over the lines, up to the terminator. */
  function SseRun(st: SseState, lines: seq<string>, decode: Decoder): Py<SseState>
    decreases |lines|
  {
    if |lines| == 0 || IsDoneLine(lines[0]) then Ok(st)
    else
      var st' :- SseStep(st, lines[0], decode);
      SseRun(st', lines[1..], decode)
  }

  /** One step of the loop: the terminator stops it, an exception ends it. */
  lemma SseRunUnfold(st: SseState, lines: seq<string>, decode: Decoder)
    requires |lines| > 0
    ensures IsDoneLine(lines[0]) ==> SseRun(st, lines, decode) == Ok(st)
    ensures !IsDoneLine(lines[0]) && SseStep(st, lines[0], decode).Raise? ==>
      SseRun(st, lines, decode) == Raise(SseStep(st, lines[0], decode).exc)
    ensures !IsDoneLine(lines[0]) && SseStep(st, lines[0], decode).Ok? ==>
      SseRun(st, lines, decode) == SseRun(SseStep(st, lines[0], decode).value, lines[1..], decode)
  {
  }

  // ---------------------------------------------------------------------
  // The flush

  function ThinkingMessage(t: string): ParsedMessage {
    ParsedMessage(Assistant, JArr([ThinkingItem(t)]))
  }

  /** One message per buffered thinking text that is non-blank. */
  function ThinkingMessages(ts: seq<string>): seq<ParsedMessage> {
    if |ts| == 0 then []
    else
      ThinkingMessages(ts[..|ts| - 1])
      + (if Strip(ts[|ts| - 1]) != "" then [ThinkingMessage(ts[|ts| - 1])] else [])
  }

  /** The aggregate message exists when any of the three buffers is non-empty. */
  predicate Pending(st: SseState) {
    st.text != "" || st.toolUse != [] || st.toolResults != []
  }

  /** One tagged item per buffered value, in order. */
  function TaggedItems(tag: string, xs: seq<Json>): seq<Json> {
    if |xs| == 0 then [] else TaggedItems(tag, xs[..|xs| - 1]) + [TaggedItem(tag, xs[|xs| - 1])]
  }

  /** The aggregate message's content: the text item, then the tool uses,
      then the tool results. */
  function AggregateContent(st: SseState): seq<Json> {
    (if st.text != "" then [TextItem(st.text)] else [])
    + TaggedItems("tool_use", st.toolUse) + TaggedItems("tool_results", st.toolResults)
  }

  function Flush(st: SseState): seq<ParsedMessage> {
    ThinkingMessages(st.thinking)
    + (if Pending(st) then [ParsedMessage(Assistant, JArr(AggregateContent(st)))] else [])
  }

  /** The `try` block of `parse_sse_response`'s loop, for a payload that
      decoded to `v`. */
  method FoldPayload(st: SseState, v: Json) returns (r: Py<SseState>)
    ensures r == EventFold(st, Some(v))
  {
    var currentEvent := st.event;
    var thinking := st.thinking;
    var status := st.status;
    var text := st.text;
    var toolResults := st.toolResults;
    if currentEvent == Some(ThinkingDeltaEvent) || currentEvent == Some(ThinkingEvent) {
      var hasText :- PyIn("text", v);
      if hasText {
        var thinkingText :- At(v, "text");
        if !thinkingText.JStr? {
          return Raise(TypeError);
        }
        var span := ThinkingSpan(thinkingText.s);
        if span.Some? {
          var cleanThinking := Strip(span.value);
          if cleanThinking != "" {
            thinking := thinking + [cleanThinking];
          }
        }
        assert thinking == st.thinking + SpanAdded(thinkingText.s);
      }
    } else if currentEvent == Some(StatusEvent) {
      var hasMessage :- PyIn("message", v);
      if hasMessage {
        var statusMsg :- At(v, "message");
        status := status + [statusMsg];
      }
    } else if currentEvent == Some(TextDeltaEvent) {
      var hasText :- PyIn("text", v);
      if hasText {
        var textContent :- At(v, "text");
        if !textContent.JStr? {
          return Raise(TypeError);
        }
        text := text + textContent.s;
      }
    } else if currentEvent == Some(TextEvent) {
    } else if currentEvent == Some(ToolResultEvent) {
      var hasContent :- PyIn("content", v);
      if hasContent {
        var hasId :- PyIn("tool_use_id", v);
        if hasId {
          var id :- At(v, "tool_use_id");
          var content :- At(v, "content");
          toolResults := toolResults + [JObj([("tool_use_id", id), ("content", content)])];
        }
      }
    }
    return Ok(st.(thinking := thinking, status := status, text := text, toolResults := toolResults));
  }

  /** The first loop of the flush: one message per buffered thinking text
      that is not blank. */
  method ThinkingFlushed(thinking: seq<string>) returns (flushed: seq<ParsedMessage>)
    ensures flushed == ThinkingMessages(thinking)
  {
    flushed := [];
    for k := 0 to |thinking|
      invariant flushed == ThinkingMessages(thinking[..k])
    {
      assert thinking[..k + 1][..k] == thinking[..k];
      if Strip(thinking[k]) != "" {
        flushed := flushed + [ThinkingMessage(thinking[k])];
      }
    }
    assert thinking[..|thinking|] == thinking;
  }

  /** The second and third loops of the flush: one `{'type': tag, tag: x}`
      item per buffered value. */
  method AppendTagged(content: seq<Json>, tag: string, xs: seq<Json>) returns (r: seq<Json>)
    ensures r == content + TaggedItems(tag, xs)
  {
    r := content;
    for k := 0 to |xs|
      invariant r == content + TaggedItems(tag, xs[..k])
    {
      assert xs[..k + 1][..k] == xs[..k];
      r := r + [TaggedItem(tag, xs[k])];
    }
    assert xs[..|xs|] == xs;
  }

  /** The end of `parse_sse_response`: the messages it appends, one per
      buffered thinking text, then the aggregate message. */
  method FlushedMessages(st: SseState) returns (flushed: seq<ParsedMessage>)
    ensures flushed == Flush(st)
  {
    var thinking, text, toolUse, toolResults := st.thinking, st.text, st.toolUse, st.toolResults;
    flushed := ThinkingFlushed(thinking);
    if text != "" || toolUse != [] || toolResults != [] {
      var content: seq<Json> := [];
      if text != "" {
        content := content + [TextItem(text)];
      }
      content := AppendTagged(content, "tool_use", toolUse);
      content := AppendTagged(content, "tool_results", toolResults);
      assert content == AggregateContent(st);
      flushed := flushed + [ParsedMessage(Assistant, JArr(content))];
    }
  }

  /** One pass of `parse_sse_response`'s loop over a line that is not the
      terminator: an event line selects the current event; a data line goes
      through the event-specific branch and then through `_process_sse_line`. */
  method SseLine(st: SseState, line: string, decode: Decoder) returns (r: Py<SseState>)
    requires !IsDoneLine(line)
    ensures r == SseStep(st, line, decode)
  {
    if IsEventLine(line) {
      return Ok(st.(event := Some(Strip(line[7..]))));
    }
    var folded := st;
    if IsDataLine(line) {
      var dataContent := Strip(line[6..]);
      match decode(dataContent) {
        case None =>
        case Some(jsonData) =>
          folded :- FoldPayload(st, jsonData);
      }
    }
    var parsedLine :- ProcessSseLine(line, decode);
    if FoldsDeltas(folded.event) && parsedLine.Message? {
      folded := Absorb(folded, parsedLine.parts);
    }
    return Ok(folded);
  }

  /** `parse_sse_response(sse_lines)`.  The loop's variables are kept in one
      `SseState`; the status messages are stored on the response at the end. */
  method ParseSseResponse(lines: seq<string>, decode: Decoder) returns (r: Py<CortexResponse>)
    ensures r.Raise? <==> SseRun(Init, lines, decode).Raise?
    ensures r.Raise? ==> r.exc == SseRun(Init, lines, decode).exc
    ensures r.Ok? ==> (fresh(r.value)
      && r.value.messages == Flush(SseRun(Init, lines, decode).value)
      && r.value.statusMessages == SseRun(Init, lines, decode).value.status
      && r.value.suggestions == [] && r.value.requestId == JNull)
  {
    var response := new CortexResponse();
    var st := Init;
    var i := 0;
    while i < |lines|
      invariant 0 <= i <= |lines|
      invariant SseRun(Init, lines, decode) == SseRun(st, lines[i..], decode)
      invariant response.messages == [] && response.suggestions == [] && response.requestId == JNull
    {
      var line := lines[i];
      assert lines[i..][0] == line && lines[i..][1..] == lines[i + 1..];
      if IsDoneLine(line) {
        assert SseRun(st, lines[i..], decode) == Ok(st) by {
          SseRunUnfold(st, lines[i..], decode);
        }
        break;
      }
      var next := SseLine(st, line, decode);
      if next.Raise? {
        assert SseRun(st, lines[i..], decode) == Raise(next.exc) by {
          SseRunUnfold(st, lines[i..], decode);
        }
        return Raise(next.exc);
      }
      assert SseRun(st, lines[i..], decode) == SseRun(next.value, lines[i + 1..], decode) by {
        SseRunUnfold(st, lines[i..], decode);
      }
      st := next.value;
      i := i + 1;
    }
    assert SseRun(Init, lines, decode) == Ok(st);
    var flushed := FlushedMessages(st);
    response.messages := response.messages + flushed;
    response.statusMessages := st.status;
    return Ok(response);
  }
}
