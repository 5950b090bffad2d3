/** The two remaining entry points: `parse_json_response`, which reads one
    non-streaming JSON document, and the splitting loop of
    `parse_file_response`, which cuts a sample file into groups of lines
    and hands each group to a parser. */
module Documents {
  import opened PyJson
  import opened Model
  import opened Sse
  import opened Trace

  // ---------------------------------------------------------------------
  // parse_json_response

  /** What a JSON document contributes to a fresh response. */
  datatype Document = Document(requestId: Json, messages: seq<ParsedMessage>, suggestions: seq<Suggestion>)

  /** `json.loads` is applied only when the argument is a string. */
  function DocumentData(input: Json, decode: Decoder): Py<Json> {
    if input.JStr? then
      match decode(input.s)
      case None => Raise(JSONDecodeError)
      case Some(data) => Ok(data)
    else Ok(input)
  }

  function Suggestions(xs: seq<Json>): (r: seq<Suggestion>)
    ensures |r| == |xs| && forall i :: 0 <= i < |xs| ==> r[i].text == xs[i]
  {
    seq(|xs|, i requires 0 <= i < |xs| => Suggestion(xs[i]))
  }

  /** The `message` member, when there is one, as a message whose role
      defaults to `assistant` and whose content defaults to `[]`. */
  function MessageOf(data: Json): Py<seq<ParsedMessage>> {
    var has :- PyIn("message", data);
    if !has then Ok([])
    else
      var md :- At(data, "message");
      var role :- Get(md, "role", Assistant);
      var content :- Get(md, "content", JArr([]));
      Ok([ParsedMessage(role, content)])
  }

  /** The values of the `suggestions` member, in iteration order. */
  function SuggestionValues(data: Json): Py<seq<Json>> {
    var has :- PyIn("suggestions", data);
    if !has then Ok([])
    else
      var v :- At(data, "suggestions");
      Iter(v)
  }

  function ReadDocument(data: Json): Py<Document> {
    var requestId :- Get(data, "request_id", JNull);
    var messages :- MessageOf(data);
    var values :- SuggestionValues(data);
    Ok(Document(requestId, messages, Suggestions(values)))
  }

  /** `parse_json_response(json_data)`. */
  method ParseJsonResponse(input: Json, decode: Decoder) returns (r: Py<CortexResponse>)
    ensures r.Raise? <==> (DocumentData(input, decode).Raise? || ReadDocument(DocumentData(input, decode).value).Raise?)
    ensures r.Ok? ==> (fresh(r.value)
      && var doc := ReadDocument(DocumentData(input, decode).value).value;
      r.value.requestId == doc.requestId && r.value.messages == doc.messages
      && r.value.suggestions == doc.suggestions && r.value.statusMessages == [])
  {
    var data :- DocumentData(input, decode);
    var response := new CortexResponse();
    var requestId :- Get(data, "request_id", JNull);
    response.requestId := requestId;
    var messages :- MessageOf(data);
    response.messages := response.messages + messages;
    var values :- SuggestionValues(data);
    var i := 0;
    while i < |values|
      invariant 0 <= i <= |values|
      invariant response.suggestions == Suggestions(values[..i])
      invariant response.requestId == requestId && response.messages == messages
      invariant response.statusMessages == []
    {
      response.suggestions := response.suggestions + [Suggestion(values[i])];
      i := i + 1;
    }
    assert values[..i] == values;
    return Ok(response);
  }

  /** A document yields at most one message, present exactly when it has a
      `message` member, with role `assistant` unless the member names one. */
  lemma DocumentMessages(data: Json)
    requires ReadDocument(data).Ok?
    ensures var ms := ReadDocument(data).value.messages;
      |ms| <= 1
      && (|ms| == 1 <==> HasKey(data, "message"))
      && (|ms| == 1 ==> var md := Lookup(data.fields, "message").value;
            ms[0].role == (if HasKey(md, "role") then Lookup(md.fields, "role").value else Assistant)
            && ms[0].content == (if HasKey(md, "content") then Lookup(md.fields, "content").value else JArr([])))
  {
  }

  /** Suggestions keep the order of the `suggestions` list, one per entry. */
  lemma DocumentSuggestions(data: Json, xs: seq<Json>)
    requires ReadDocument(data).Ok?
    requires HasKey(data, "suggestions") && Lookup(data.fields, "suggestions").value == JArr(xs)
    ensures var ss := ReadDocument(data).value.suggestions;
      |ss| == |xs| && forall i :: 0 <= i < |xs| ==> ss[i] == Suggestion(xs[i])
  {
  }

  // ---------------------------------------------------------------------
  // parse_file_response

  const Marker := "Sample response"

  /** The splitting loop's variables: the groups already closed by a later
      marker, the group being read, and whether a marker has been seen. */
  datatype Splitter = Splitter(closed: seq<seq<string>>, current: seq<string>, inResponse: bool)

  const Start := Splitter([], [], false)

  /** One raw line: a marker closes a non-empty group and opens a new one;
      any other non-blank line joins the open group once a marker has been
      seen. */
  function SplitLine(s: Splitter, raw: string): Splitter {
    var line := Strip(raw);
    if StartsWith(line, Marker) then
      Splitter(if s.current != [] then s.closed + [s.current] else s.closed, [], true)
    else if s.inResponse && line != "" then s.(current := s.current + [line])
    else s
  }

  function SplitFrom(s: Splitter, lines: seq<string>): Splitter
    decreases |lines|
  {
    if |lines| == 0 then s else SplitFrom(SplitLine(s, lines[0]), lines[1..])
  }

  /** The first exception the event-stream parser raises on the groups, in
      order. */
  function FirstSseError(groups: seq<seq<string>>, decode: Decoder): Option<Exc>
    decreases |groups|
  {
    if |groups| == 0 then None
    else if SseRun(Init, groups[0], decode).Raise? then Some(SseRun(Init, groups[0], decode).exc)
    else FirstSseError(groups[1..], decode)
  }

  /** The exception `parse_file_response` ends with, if any: the groups closed
      by a marker go through the event-stream parser, the final group through
      the trace parser. */
  function FileError(lines: seq<string>, decode: Decoder): Option<Exc> {
    var s := SplitFrom(Start, lines);
    var sseError := FirstSseError(s.closed, decode);
    if sseError.Some? then sseError
    else if s.current != [] then TraceRun(Empty, s.current, decode).exc
    else None
  }

  /** `response` is what the event-stream parser makes of `group`. */
  predicate SseParsed(response: CortexResponse, group: seq<string>, decode: Decoder)
    reads response
  {
    SseRun(Init, group, decode).Ok?
    && response.messages == Flush(SseRun(Init, group, decode).value)
    && response.statusMessages == SseRun(Init, group, decode).value.status
  }

  /** A marker closes the open group: the event-stream parser reads it, and
      either its exception is the first one or its response joins the list. */
  method CloseGroup(s: Splitter, responses: seq<CortexResponse>, decode: Decoder) returns (r: Py<seq<CortexResponse>>)
    requires FirstSseError(s.closed, decode) == None && |responses| == |s.closed|
    requires forall k :: 0 <= k < |s.closed| ==> SseParsed(responses[k], s.closed[k], decode)
    ensures r.Raise? ==> FirstSseError(s.closed + [s.current], decode) == Some(r.exc)
    ensures r.Ok? ==> (FirstSseError(s.closed + [s.current], decode) == None
      && |r.value| == |s.closed| + 1
      && forall k :: 0 <= k < |s.closed| + 1 ==> SseParsed(r.value[k], (s.closed + [s.current])[k], decode))
  {
    var parsed := ParseSseResponse(s.current, decode);
    FirstSseErrorAppend(s.closed, s.current, decode);
    if parsed.Raise? {
      return Raise(parsed.exc);
    }
    r := Ok(responses + [parsed.value]);
    forall k | 0 <= k < |s.closed| + 1
      ensures SseParsed(r.value[k], (s.closed + [s.current])[k], decode)
    {
      if k < |s.closed| {
        assert r.value[k] == responses[k];
      }
    }
  }

  /** The loop of `parse_file_response`: every group a marker closes goes
      through the event-stream parser as soon as it is closed. */
  method ParseClosedGroups(lines: seq<string>, decode: Decoder) returns (r: Py<seq<CortexResponse>>, s: Splitter)
    ensures r.Raise? <==> FirstSseError(SplitFrom(Start, lines).closed, decode).Some?
    ensures r.Raise? ==> r.exc == FirstSseError(SplitFrom(Start, lines).closed, decode).value
    ensures r.Ok? ==> (s == SplitFrom(Start, lines) && |r.value| == |s.closed|
      && forall k :: 0 <= k < |s.closed| ==> SseParsed(r.value[k], s.closed[k], decode))
  {
    var responses: seq<CortexResponse> := [];
    s := Start;
    var i := 0;
    while i < |lines|
      invariant 0 <= i <= |lines|
      invariant SplitFrom(Start, lines) == SplitFrom(s, lines[i..])
      invariant FirstSseError(s.closed, decode) == None
      invariant |responses| == |s.closed|
      invariant forall k :: 0 <= k < |s.closed| ==> SseParsed(responses[k], s.closed[k], decode)
    {
      assert lines[i..][0] == lines[i] && lines[i..][1..] == lines[i + 1..];
      var line := Strip(lines[i]);
      if StartsWith(line, Marker) && s.current != [] {
        var closed := CloseGroup(s, responses, decode);
        if closed.Raise? {
          SplitKeepsClosed(SplitLine(s, lines[i]), lines[i + 1..], decode);
          return Raise(closed.exc), s;
        }
        responses := closed.value;
      }
      s := SplitLine(s, lines[i]);
      i := i + 1;
    }
    assert lines[i..] == [];
    return Ok(responses), s;
  }

  /** `parse_file_response`, over the file's lines: the final group goes
      through the trace parser instead. */
  method ParseFileResponse(lines: seq<string>, decode: Decoder) returns (r: Py<seq<CortexResponse>>)
    ensures r.Raise? <==> FileError(lines, decode).Some?
    ensures r.Raise? ==> r.exc == FileError(lines, decode).value
    ensures r.Ok? ==> var s := SplitFrom(Start, lines);
      |r.value| == |s.closed| + (if s.current != [] then 1 else 0)
      && (forall k :: 0 <= k < |s.closed| ==> SseParsed(r.value[k], s.closed[k], decode))
      && (s.current != [] ==> StateOf(r.value[|s.closed|]) == TraceRun(Empty, s.current, decode).st)
  {
    var responses, s := ParseClosedGroups(lines, decode);
    if responses.Raise? {
      return Raise(responses.exc);
    }
    if s.current == [] {
      return responses;
    }
    var last := ParseTraceResponse(s.current, decode);
    if last.Raise? {
      return Raise(last.exc);
    }
    return Ok(responses.value + [last.value]);
  }

  lemma {:induction false} FirstSseErrorAppend(groups: seq<seq<string>>, g: seq<string>, decode: Decoder)
    requires FirstSseError(groups, decode) == None
    ensures FirstSseError(groups + [g], decode)
      == if SseRun(Init, g, decode).Raise? then Some(SseRun(Init, g, decode).exc) else None
    decreases |groups|
  {
    if |groups| == 0 {
      assert groups + [g] == [g];
      assert [g][1..] == [];
    } else {
      assert (groups + [g])[0] == groups[0] && (groups + [g])[1..] == groups[1..] + [g];
      FirstSseErrorAppend(groups[1..], g, decode);
    }
  }

  /** Groups once closed stay closed, so an exception they raise is the
      first one whatever follows. */
  lemma {:induction false} SplitKeepsClosed(s: Splitter, lines: seq<string>, decode: Decoder)
    requires FirstSseError(s.closed, decode).Some?
    ensures FirstSseError(SplitFrom(s, lines).closed, decode) == FirstSseError(s.closed, decode)
    decreases |lines|
  {
    if |lines| > 0 {
      var s' := SplitLine(s, lines[0]);
      FirstSseErrorPrefix(s.closed, s'.closed, decode);
      SplitKeepsClosed(s', lines[1..], decode);
    }
  }

  lemma {:induction false} FirstSseErrorPrefix(a: seq<seq<string>>, b: seq<seq<string>>, decode: Decoder)
    requires FirstSseError(a, decode).Some?
    requires |a| <= |b| && b[..|a|] == a
    ensures FirstSseError(b, decode) == FirstSseError(a, decode)
    decreases |a|
  {
    assert a[0] == b[0];
    if SseRun(Init, a[0], decode).Ok? {
      assert b[1..][..|a[1..]|] == a[1..];
      FirstSseErrorPrefix(a[1..], b[1..], decode);
    }
  }

  // ---------------------------------------------------------------------
  // What the splitting loop keeps

  /** A line a group may hold: already stripped, not blank, not a marker. */
  predicate GroupLine(line: string) {
    Strip(line) == line && line != "" && !StartsWith(line, Marker)
  }

  predicate GroupLines(g: seq<string>) {
    forall j :: 0 <= j < |g| ==> GroupLine(g[j])
  }

  /** Closed groups are never empty, every kept line is a group line, and
      nothing is collected before the first marker. */
  predicate WellSplit(s: Splitter) {
    (forall k :: 0 <= k < |s.closed| ==> s.closed[k] != [] && GroupLines(s.closed[k]))
    && GroupLines(s.current)
    && (!s.inResponse ==> s.current == [])
  }

  lemma SplitLineWellSplit(s: Splitter, raw: string)
    requires WellSplit(s)
    ensures WellSplit(SplitLine(s, raw))
  {
    var line := Strip(raw);
    if StartsWith(line, Marker) {
      CloseWellSplit(s);
      assert SplitLine(s, raw) == Splitter(if s.current != [] then s.closed + [s.current] else s.closed, [], true);
    } else if s.inResponse && line != "" {
      StripIdempotent(raw);
      JoinWellSplit(s, line);
      assert SplitLine(s, raw) == s.(current := s.current + [line]);
    } else {
      assert SplitLine(s, raw) == s;
    }
  }

  lemma CloseWellSplit(s: Splitter)
    requires WellSplit(s)
    ensures WellSplit(Splitter(if s.current != [] then s.closed + [s.current] else s.closed, [], true))
  {
    if s.current != [] {
      var closed := s.closed + [s.current];
      assert forall k :: 0 <= k < |s.closed| ==> closed[k] == s.closed[k];
      assert closed[|s.closed|] == s.current;
    }
  }

  lemma JoinWellSplit(s: Splitter, line: string)
    requires WellSplit(s) && s.inResponse && GroupLine(line)
    ensures WellSplit(s.(current := s.current + [line]))
  {
    var current := s.current + [line];
    assert forall j :: 0 <= j < |s.current| ==> current[j] == s.current[j];
  }

  lemma {:induction false} SplitFromWellSplit(s: Splitter, lines: seq<string>)
    requires WellSplit(s)
    ensures WellSplit(SplitFrom(s, lines))
    decreases |lines|
  {
    if |lines| > 0 {
      SplitLineWellSplit(s, lines[0]);
      SplitFromWellSplit(SplitLine(s, lines[0]), lines[1..]);
    }
  }

  /** Every group `parse_file_response` hands to a parser is non-empty and
      holds stripped, non-blank lines that are not markers. */
  lemma FileGroupsWellSplit(lines: seq<string>)
    ensures WellSplit(SplitFrom(Start, lines))
  {
    SplitFromWellSplit(Start, lines);
  }

  /** Reference reading of the splitter: the stripped, non-blank, non-marker
      lines that follow some marker, in file order. */
  function AfterMarker(lines: seq<string>, seen: bool): seq<string>
    decreases |lines|
  {
    if |lines| == 0 then []
    else
      var line := Strip(lines[0]);
      if StartsWith(line, Marker) then AfterMarker(lines[1..], true)
      else if seen && line != "" then [line] + AfterMarker(lines[1..], seen)
      else AfterMarker(lines[1..], seen)
  }

  function Flatten(groups: seq<seq<string>>): seq<string>
    decreases |groups|
  {
    if |groups| == 0 then [] else groups[0] + Flatten(groups[1..])
  }

  lemma {:induction false} FlattenSnoc(groups: seq<seq<string>>, g: seq<string>)
    ensures Flatten(groups + [g]) == Flatten(groups) + g
    decreases |groups|
  {
    if |groups| == 0 {
      assert groups + [g] == [g];
      assert [g][1..] == [];
    } else {
      assert (groups + [g])[0] == groups[0] && (groups + [g])[1..] == groups[1..] + [g];
      FlattenSnoc(groups[1..], g);
    }
  }

  /** What one raw line adds to the kept lines. */
  function KeptLine(raw: string, seen: bool): seq<string> {
    var line := Strip(raw);
    if !StartsWith(line, Marker) && seen && line != "" then [line] else []
  }

  lemma SplitLineKeepsLines(s: Splitter, raw: string)
    ensures var t := SplitLine(s, raw);
      Flatten(t.closed) + t.current == Flatten(s.closed) + s.current + KeptLine(raw, s.inResponse)
      && t.inResponse == (s.inResponse || StartsWith(Strip(raw), Marker))
  {
    var line := Strip(raw);
    if StartsWith(line, Marker) {
      if s.current != [] {
        FlattenSnoc(s.closed, s.current);
      }
      assert Flatten(s.closed) + s.current + [] == Flatten(s.closed) + s.current;
    } else if !(s.inResponse && line != "") {
      assert Flatten(s.closed) + s.current + [] == Flatten(s.closed) + s.current;
    }
  }

  /** Splitting neither drops nor reorders a kept line: the groups read in
      order, followed by the open group, are the lines after the first
      marker. */
  lemma {:induction false} SplitFromKeepsLines(s: Splitter, lines: seq<string>)
    ensures var t := SplitFrom(s, lines);
      Flatten(t.closed) + t.current == Flatten(s.closed) + s.current + AfterMarker(lines, s.inResponse)
    decreases |lines|
  {
    if |lines| == 0 {
      assert Flatten(s.closed) + s.current + [] == Flatten(s.closed) + s.current;
    } else {
      var s' := SplitLine(s, lines[0]);
      var t := SplitFrom(s', lines[1..]);
      assert SplitFrom(s, lines) == t;
      var kept := KeptLine(lines[0], s.inResponse);
      var rest := AfterMarker(lines[1..], s'.inResponse);
      SplitLineKeepsLines(s, lines[0]);
      AfterMarkerStep(lines, s.inResponse);
      SplitFromKeepsLines(s', lines[1..]);
      ConcatChain(Flatten(t.closed) + t.current, Flatten(s'.closed) + s'.current,
        Flatten(s.closed) + s.current, kept, rest);
    }
  }

  lemma ConcatChain(x: seq<string>, y: seq<string>, a: seq<string>, kept: seq<string>, rest: seq<string>)
    requires x == y + rest && y == a + kept
    ensures x == a + (kept + rest)
  {
  }

  lemma AfterMarkerStep(lines: seq<string>, seen: bool)
    requires |lines| > 0
    ensures AfterMarker(lines, seen)
      == KeptLine(lines[0], seen) + AfterMarker(lines[1..], seen || StartsWith(Strip(lines[0]), Marker))
  {
  }

  lemma FileGroupsKeepLines(lines: seq<string>)
    ensures var s := SplitFrom(Start, lines);
      Flatten(s.closed) + s.current == AfterMarker(lines, false)
  {
    SplitFromKeepsLines(Start, lines);
    assert Flatten(Start.closed) + Start.current == [];
  }
}
