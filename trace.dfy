/** The trace path: `CortexResponseParser._parse_trace_response` and
    `_extract_from_trace`.

    Each `data: [...]` line holds a JSON array of JSON-encoded trace objects.
    A trace object carries OpenTelemetry-style attributes
    (`{"key": ..., "value": {"stringValue": ...}}`); four keys are read and
    the response is built in place.  The line loop catches `TypeError` and
    `JSONDecodeError`, so an exception met halfway through a line keeps the
    changes made before it; any other exception leaves the parser. */
module Trace {
  import opened PyJson
  import opened Model
  import opened Sse

  const ResponseKey := "ai.observability.agent.response"
  const SqlKey := "ai.observability.agent.tool.cortex_analyst.sql_query"
  const SearchKey := "ai.observability.agent.tool.cortex_search.results"
  const RequestIdKey := "ai.observability.agent.request_id"

  /** Search texts longer than this are cut to this length plus `...`. */
  const MaxSearchText := 1000

  /** The part of a `CortexResponse` the trace path writes. */
  datatype TraceState = TraceState(messages: seq<ParsedMessage>, requestId: Json)

  const Empty := TraceState([], JNull)

  /** The state reached, and the exception that stopped the work, if any:
      the source mutates the response in place, so an exception does not
      undo what came before it. */
  datatype Outcome = Outcome(st: TraceState, exc: Option<Exc>)

  function StateOf(response: CortexResponse): TraceState
    reads response
  {
    TraceState(response.messages, response.requestId)
  }

  // ---------------------------------------------------------------------
  // The items the extractor builds

  function AnalystResult(sql: string): Json {
    JObj([("tool_use_id", JStr("cortex_analyst")),
          ("content", JArr([JObj([("json", JObj([("sql", JStr(sql))]))])]))])
  }

  /** One search record: its (possibly cut) text, the fixed title, and an id
      numbered from 1 by the record's position in the whole array. */
  function SearchRecord(text: Json, i: nat): Json {
    JObj([("text", text), ("doc_title", JStr("Support Cases")),
          ("doc_id", JStr("search_result_" + NatToString(i + 1)))])
  }

  function SearchResult(record: Json): Json {
    JObj([("tool_use_id", JStr("cortex_search")),
          ("content", JArr([JObj([("json", JObj([("searchResults", JArr([record]))]))])]))])
  }

  /** `response.messages[-1].content.append(item)` when there is a message,
      otherwise a new assistant message holding `item`. */
  function AppendItem(ms: seq<ParsedMessage>, item: Json): Py<seq<ParsedMessage>> {
    if |ms| == 0 then Ok([ParsedMessage(Assistant, JArr([item]))])
    else
      var last := ms[|ms| - 1];
      if last.content.JArr? then Ok(ms[..|ms| - 1] + [last.(content := JArr(last.content.items + [item]))])
      else Raise(AttributeError)
  }

  /** `value.get('stringValue', '').strip()`. */
  function StringValue(value: Json): Py<string> {
    var v :- Get(value, "stringValue", JStr(""));
    StripJ(v)
  }

  /** `any(msg.text_content == text for msg in messages)`, which stops at the
      first match. */
  function AnyTextEquals(ms: seq<ParsedMessage>, text: string): Py<bool> {
    if |ms| == 0 then Ok(false)
    else
      var t :- TextContent(ms[0]);
      if t == text then Ok(true) else AnyTextEquals(ms[1..], text)
  }

  /** `text[:1000] + '...' if len(text) > 1000 else text`. */
  function Truncated(text: Json): Py<Json> {
    var n :- Len(text);
    if n <= MaxSearchText then Ok(text)
    else match text
      case JStr(s) => Ok(JStr(s[..MaxSearchText] + "..."))
      case _ => Raise(TypeError)
  }

  // ---------------------------------------------------------------------
  // One attribute

  /** The agent's answer: a new text-only message, unless it is blank or some
      message already has that text. */
  function ResponseAttr(st: TraceState, value: Json): Outcome {
    match StringValue(value)
    case Raise(e) => Outcome(st, Some(e))
    case Ok(text) =>
      if text == "" then Outcome(st, None)
      else match AnyTextEquals(st.messages, text)
        case Raise(e) => Outcome(st, Some(e))
        case Ok(found) =>
          if found then Outcome(st, None)
          else Outcome(st.(messages := st.messages + [ParsedMessage(Assistant, JArr([TextItem(text)]))]), None)
  }

  /** A generated SQL query: a `cortex_analyst` tool result, unless it is
      blank or already the SQL of some tool result. */
  function SqlAttr(st: TraceState, value: Json): Outcome {
    match StringValue(value)
    case Raise(e) => Outcome(st, Some(e))
    case Ok(sql) =>
      if sql == "" then Outcome(st, None)
      else match SqlQueries(st.messages)
        case Raise(e) => Outcome(st, Some(e))
        case Ok(existing) =>
          if JStr(sql) in existing then Outcome(st, None)
          else match AppendItem(st.messages, ToolResultsItem(AnalystResult(sql)))
            case Raise(e) => Outcome(st, Some(e))
            case Ok(ms) => Outcome(st.(messages := ms), None)
  }

  /** The search loop from position `k` on: one `cortex_search` tool result
      per non-empty `stringValue`. */
  function SearchFrom(st: TraceState, results: seq<Json>, k: nat): Outcome
    requires k <= |results|
    decreases |results| - k
  {
    if k == |results| then Outcome(st, None)
    else
      match Get(results[k], "stringValue", JStr(""))
      case Raise(e) => Outcome(st, Some(e))
      case Ok(text) =>
        if !Truthy(text) then SearchFrom(st, results, k + 1)
        else match Truncated(text)
          case Raise(e) => Outcome(st, Some(e))
          case Ok(kept) =>
            match AppendItem(st.messages, ToolResultsItem(SearchResult(SearchRecord(kept, k))))
            case Raise(e) => Outcome(st, Some(e))
            case Ok(ms) => SearchFrom(st.(messages := ms), results, k + 1)
  }

  /** `value.get('arrayValue', {}).get('values', [])`, walked when truthy. */
  function SearchValues(value: Json): Py<seq<Json>> {
    var av :- Get(value, "arrayValue", JObj([]));
    var results :- Get(av, "values", JArr([]));
    if !Truthy(results) then Ok([]) else Iter(results)
  }

  function SearchAttr(st: TraceState, value: Json): Outcome {
    match SearchValues(value)
    case Raise(e) => Outcome(st, Some(e))
    case Ok(results) => SearchFrom(st, results, 0)
  }

  /** The request id is written only while it is falsy. */
  function RequestIdAttr(st: TraceState, value: Json): Outcome {
    if Truthy(st.requestId) then Outcome(st, None)
    else match Get(value, "stringValue", JStr(""))
      case Raise(e) => Outcome(st, Some(e))
      case Ok(id) => Outcome(st.(requestId := id), None)
  }

  /** One iteration of `_extract_from_trace`'s loop. */
  function ApplyAttr(st: TraceState, attr: Json): Outcome {
    match Get(attr, "key", JStr(""))
    case Raise(e) => Outcome(st, Some(e))
    case Ok(key) =>
      match Get(attr, "value", JObj([]))
      case Raise(e) => Outcome(st, Some(e))
      case Ok(value) =>
        if key == JStr(ResponseKey) then ResponseAttr(st, value)
        else if key == JStr(SqlKey) then SqlAttr(st, value)
        else if key == JStr(SearchKey) then SearchAttr(st, value)
        else if key == JStr(RequestIdKey) then RequestIdAttr(st, value)
        else Outcome(st, None)
  }

  function ApplyAttrs(st: TraceState, attrs: seq<Json>): Outcome
    decreases |attrs|
  {
    if |attrs| == 0 then Outcome(st, None)
    else
      var o := ApplyAttr(st, attrs[0]);
      if o.exc.Some? then o else ApplyAttrs(o.st, attrs[1..])
  }

  /** `_extract_from_trace(trace_data, response)`. */
  function ExtractTrace(st: TraceState, data: Json): Outcome {
    match Get(data, "attributes", JArr([]))
    case Raise(e) => Outcome(st, Some(e))
    case Ok(attrs) =>
      match Iter(attrs)
      case Raise(e) => Outcome(st, Some(e))
      case Ok(items) => ApplyAttrs(st, items)
  }

  // ---------------------------------------------------------------------
  // _parse_trace_response

  /** The inner loop over a trace array: each element is decoded and
      extracted in turn. */
  function TraceElems(st: TraceState, elems: seq<Json>, decode: Decoder): Outcome
    decreases |elems|
  {
    if |elems| == 0 then Outcome(st, None)
    else if !elems[0].JStr? then Outcome(st, Some(TypeError))
    else match decode(elems[0].s)
      case None => Outcome(st, Some(JSONDecodeError))
      case Some(data) =>
        var o := ExtractTrace(st, data);
        if o.exc.Some? then o else TraceElems(o.st, elems[1..], decode)
  }

  predicate Caught(exc: Option<Exc>) {
    exc == Some(TypeError) || exc == Some(JSONDecodeError)
  }

  /** The `try` block of one line, before the `except` clause. */
  function TraceLineTry(st: TraceState, payload: string, decode: Decoder): Outcome {
    if !StartsWith(payload, "[") then Outcome(st, None)
    else match decode(payload)
      case None => Outcome(st, Some(JSONDecodeError))
      case Some(arr) =>
        match Iter(arr)
        case Raise(e) => Outcome(st, Some(e))
        case Ok(elems) => TraceElems(st, elems, decode)
  }

  /** One line: non-data lines are skipped, and `TypeError` and
      `JSONDecodeError` are swallowed. */
  function TraceLine(st: TraceState, line: string, decode: Decoder): Outcome {
    if !IsDataLine(line) then Outcome(st, None)
    else
      var o := TraceLineTry(st, Payload(line), decode);
      if Caught(o.exc) then Outcome(o.st, None) else o
  }

  function TraceRun(st: TraceState, lines: seq<string>, decode: Decoder): Outcome
    decreases |lines|
  {
    if |lines| == 0 then Outcome(st, None)
    else
      var o := TraceLine(st, lines[0], decode);
      if o.exc.Some? then o else TraceRun(o.st, lines[1..], decode)
  }

  // ---------------------------------------------------------------------
  // The methods

  /** The search loop, appending to the response as it goes. */
  method AppendSearchResults(results: seq<Json>, response: CortexResponse) returns (exc: Option<Exc>)
    modifies response
    ensures Outcome(StateOf(response), exc) == SearchFrom(old(StateOf(response)), results, 0)
    ensures response.suggestions == old(response.suggestions)
    ensures response.statusMessages == old(response.statusMessages)
  {
    var i := 0;
    while i < |results|
      invariant 0 <= i <= |results|
      invariant SearchFrom(old(StateOf(response)), results, 0) == SearchFrom(StateOf(response), results, i)
      invariant response.suggestions == old(response.suggestions)
      invariant response.statusMessages == old(response.statusMessages)
    {
      var text := Get(results[i], "stringValue", JStr(""));
      if text.Raise? {
        return Some(text.exc);
      }
      if Truthy(text.value) {
        var kept := Truncated(text.value);
        if kept.Raise? {
          return Some(kept.exc);
        }
        var ms := AppendItem(response.messages, ToolResultsItem(SearchResult(SearchRecord(kept.value, i))));
        if ms.Raise? {
          return Some(ms.exc);
        }
        response.messages := ms.value;
      }
      i := i + 1;
    }
    return None;
  }
  /** One iteration of `_extract_from_trace`'s loop over the attributes. */
  method ApplyAttribute(attr: Json, response: CortexResponse) returns (exc: Option<Exc>)
    modifies response
    ensures Outcome(StateOf(response), exc) == ApplyAttr(old(StateOf(response)), attr)
    ensures response.suggestions == old(response.suggestions)
    ensures response.statusMessages == old(response.statusMessages)
  {
    var key := Get(attr, "key", JStr(""));
    if key.Raise? {
      return Some(key.exc);
    }
    var value := Get(attr, "value", JObj([]));
    var st := StateOf(response);
    if key.value == JStr(SearchKey) {
      var results := SearchValues(value.value);
      assert ApplyAttr(st, attr) == SearchAttr(st, value.value);
      if results.Raise? {
        return Some(results.exc);
      }
      exc := AppendSearchResults(results.value, response);
      return;
    }
    // The answer, the SQL query and the request id each change at most one
    // field; their outcome is computed by the functions above.
    var o := ApplyAttr(st, attr);
    response.messages, response.requestId := o.st.messages, o.st.requestId;
    exc := o.exc;
  }

  /** `_extract_from_trace(trace_data, response)`. */
  method ExtractFromTrace(data: Json, response: CortexResponse) returns (exc: Option<Exc>)
    modifies response
    ensures Outcome(StateOf(response), exc) == ExtractTrace(old(StateOf(response)), data)
    ensures response.suggestions == old(response.suggestions)
    ensures response.statusMessages == old(response.statusMessages)
  {
    var attributes := Get(data, "attributes", JArr([]));
    if attributes.Raise? {
      return Some(attributes.exc);
    }
    var attrs := Iter(attributes.value);
    if attrs.Raise? {
      return Some(attrs.exc);
    }
    var items := attrs.value;
    var i := 0;
    while i < |items|
      invariant 0 <= i <= |items|
      invariant ExtractTrace(old(StateOf(response)), data) == ApplyAttrs(StateOf(response), items[i..])
      invariant response.suggestions == old(response.suggestions)
      invariant response.statusMessages == old(response.statusMessages)
    {
      assert items[i..][0] == items[i] && items[i..][1..] == items[i + 1..];
      exc := ApplyAttribute(items[i], response);
      if exc.Some? {
        return;
      }
      i := i + 1;
    }
    return None;
  }

  /** The loop over one line's trace array. */
  method ExtractElems(elems: seq<Json>, decode: Decoder, response: CortexResponse) returns (exc: Option<Exc>)
    modifies response
    ensures Outcome(StateOf(response), exc) == TraceElems(old(StateOf(response)), elems, decode)
    ensures response.suggestions == old(response.suggestions)
    ensures response.statusMessages == old(response.statusMessages)
  {
    var i := 0;
    while i < |elems|
      invariant 0 <= i <= |elems|
      invariant TraceElems(old(StateOf(response)), elems, decode) == TraceElems(StateOf(response), elems[i..], decode)
      invariant response.suggestions == old(response.suggestions)
      invariant response.statusMessages == old(response.statusMessages)
    {
      assert elems[i..][0] == elems[i] && elems[i..][1..] == elems[i + 1..];
      if !elems[i].JStr? {
        return Some(TypeError);
      }
      match decode(elems[i].s) {
        case None =>
          return Some(JSONDecodeError);
        case Some(traceData) =>
          exc := ExtractFromTrace(traceData, response);
          if exc.Some? {
            return;
          }
      }
      i := i + 1;
    }
    return None;
  }

  /** `_parse_trace_response(lines)`: an exception the line loop does not
      catch leaves the parser, and the response is then lost. */
  method ParseTraceResponse(lines: seq<string>, decode: Decoder) returns (r: Py<CortexResponse>)
    ensures r.Raise? <==> TraceRun(Empty, lines, decode).exc.Some?
    ensures r.Raise? ==> r.exc == TraceRun(Empty, lines, decode).exc.value
    ensures r.Ok? ==> (fresh(r.value)
      && StateOf(r.value) == TraceRun(Empty, lines, decode).st
      && r.value.suggestions == [] && r.value.statusMessages == [])
  {
    var response := new CortexResponse();
    var i := 0;
    while i < |lines|
      invariant 0 <= i <= |lines|
      invariant TraceRun(Empty, lines, decode) == TraceRun(StateOf(response), lines[i..], decode)
      invariant response.suggestions == [] && response.statusMessages == []
    {
      var line := lines[i];
      assert lines[i..][0] == line && lines[i..][1..] == lines[i + 1..];
      if !IsDataLine(line) {
        i := i + 1;
        continue;
      }
      var jsonStr := Strip(line[6..]);
      var exc: Option<Exc> := None;
      if StartsWith(jsonStr, "[") {
        match decode(jsonStr) {
          case None =>
            exc := Some(JSONDecodeError);
          case Some(traceArray) =>
            var elems := Iter(traceArray);
            if elems.Raise? {
              exc := Some(elems.exc);
            } else {
              exc := ExtractElems(elems.value, decode, response);
            }
        }
      }
      if exc.Some? && !Caught(exc) {
        return Raise(exc.value);
      }
      i := i + 1;
    }
    return Ok(response);
  }
}
