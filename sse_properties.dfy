/** What `parse_sse_response` promises, stated over the fold `SseRun` and the
    flush `Flush` that `ParseSseResponse` is proved against. */
module SseProperties {
  import opened PyJson
  import opened Model
  import opened Sse

  // ---------------------------------------------------------------------
  // The fold as a whole

  /** The fold over two pieces is the fold over the second, started from
      where the first left off (when the first holds no terminator). */
  lemma {:induction false} SseRunAppend(st: SseState, a: seq<string>, b: seq<string>, decode: Decoder)
    requires NoDone(a)
    ensures SseRun(st, a + b, decode)
      == (match SseRun(st, a, decode)
          case Ok(s) => SseRun(s, b, decode)
          case Raise(e) => Raise(e))
    decreases |a|
  {
    if |a| == 0 {
      assert a + b == b;
    } else {
      assert (a + b)[0] == a[0];
      assert (a + b)[1..] == a[1..] + b;
      assert NoDone(a[1..]) by {
        forall k | 0 <= k < |a[1..]| ensures !IsDoneLine(a[1..][k]) {
          assert a[1..][k] == a[k + 1];
        }
      }
      match SseStep(st, a[0], decode)
      case Ok(s) => SseRunAppend(s, a[1..], b, decode);
      case Raise(_) =>
    }
  }

  /** A step that succeeds hands its state on to the rest of the lines. */
  lemma SseRunStep(st: SseState, lines: seq<string>, decode: Decoder, st': SseState)
    requires |lines| > 0 && !IsDoneLine(lines[0]) && SseStep(st, lines[0], decode) == Ok(st')
    ensures SseRun(st, lines, decode) == SseRun(st', lines[1..], decode)
  {
  }

  /** `data: [DONE]` ends the stream: nothing after it is read. */
  lemma DoneEndsStream(st: SseState, a: seq<string>, done: string, b: seq<string>, decode: Decoder)
    requires NoDone(a) && IsDoneLine(done)
    ensures SseRun(st, a + [done] + b, decode) == SseRun(st, a, decode)
  {
    assert a + [done] + b == a + ([done] + b);
    SseRunAppend(st, a, [done] + b, decode);
  }

  /** A line that is neither an event line nor a data line, or a data line
      whose payload is not JSON. */
  predicate Inert(line: string, decode: Decoder) {
    !IsEventLine(line)
    && (!IsDataLine(line) || (Payload(line) != "[DONE]" && decode(Payload(line)).None?))
  }

  /** Such a line is skipped without raising. */
  lemma InertLineSkipped(st: SseState, line: string, decode: Decoder)
    requires Inert(line, decode)
    ensures SseStep(st, line, decode) == Ok(st)
  {
  }

  /** However many such lines there are, the fold neither raises nor
      changes anything. */
  lemma {:induction false} InertLinesSkipped(st: SseState, lines: seq<string>, decode: Decoder)
    requires forall k :: 0 <= k < |lines| ==> Inert(lines[k], decode)
    ensures SseRun(st, lines, decode) == Ok(st)
    decreases |lines|
  {
    if |lines| > 0 {
      InertLineSkipped(st, lines[0], decode);
      assert forall k :: 0 <= k < |lines[1..]| ==> lines[1..][k] == lines[k + 1];
      InertLinesSkipped(st, lines[1..], decode);
    }
  }

  // ---------------------------------------------------------------------
  // Text deltas

  lemma LookupSingle(k: string, x: Json, key: string)
    ensures Lookup([(k, x)], key) == if k == key then Some(x) else None
  {
    assert [(k, x)][1..] == [];
  }

  /** The text a data line carries: the `text` of a dict payload when it is
      a string, and nothing otherwise. */
  function DeltaText(line: string, decode: Decoder): string {
    if !IsDataLine(line) then ""
    else match decode(Payload(line))
      case Some(JObj(fields)) =>
        (match Lookup(fields, "text")
         case Some(JStr(t)) => t
         case _ => "")
      case _ => ""
  }

  /** A data line the text-delta branch accepts: a dict payload whose
      `text`, when it has one, is a string.  Any other members are allowed. */
  predicate TextDeltaLine(line: string, decode: Decoder) {
    IsDataLine(line) && Payload(line) != "[DONE]"
    && decode(Payload(line)).Some? && decode(Payload(line)).value.JObj?
    && (HasKey(decode(Payload(line)).value, "text") ==> Lookup(decode(Payload(line)).value.fields, "text").value.JStr?)
    && ProcessSseLine(line, decode).Ok?
  }

  /** Under `response.text.delta`, a payload's text is appended to the text
      buffer and nothing else changes, whatever other members it carries
      and even when it is also a message delta. */
  lemma TextDeltaAppends(st: SseState, line: string, decode: Decoder)
    requires st.event == Some(TextDeltaEvent) && TextDeltaLine(line, decode)
    ensures SseStep(st, line, decode) == Ok(st.(text := st.text + DeltaText(line, decode)))
  {
    assert !IsEventLine(line) by {
      if IsEventLine(line) { EventLineIsNotData(line); }
    }
    assert !FoldsDeltas(st.event) by {
      assert DirectEvents[0] == TextDeltaEvent;
    }
    if !HasKey(decode(Payload(line)).value, "text") {
      assert st.text + "" == st.text;
    }
  }

  /** An event line naming `response.text.delta`. */
  predicate TextDeltaEventLine(line: string) {
    IsEventLine(line) && Strip(line[7..]) == TextDeltaEvent
  }

  /** The lines a text stream is made of: its event line, repeated at will,
      text-delta payloads, and lines the fold skips. */
  predicate TextStreamLine(line: string, decode: Decoder) {
    TextDeltaEventLine(line) || Inert(line, decode) || TextDeltaLine(line, decode)
  }

  /** The texts of the lines, concatenated in arrival order. */
  function StreamText(lines: seq<string>, decode: Decoder): string {
    if |lines| == 0 then "" else DeltaText(lines[0], decode) + StreamText(lines[1..], decode)
  }

  /** Under `response.text.delta`, each line of a text stream appends its
      text, which is empty for event lines and skipped lines. */
  lemma TextStreamStep(st: SseState, line: string, decode: Decoder)
    requires st.event == Some(TextDeltaEvent) && TextStreamLine(line, decode)
    ensures !IsDoneLine(line)
    ensures SseStep(st, line, decode) == Ok(st.(text := st.text + DeltaText(line, decode)))
  {
    if TextDeltaEventLine(line) {
      EventLineIsNotData(line);
      assert st.text + "" == st.text;
    } else if Inert(line, decode) {
      InertLineSkipped(st, line, decode);
      assert st.text + "" == st.text;
    } else {
      TextDeltaAppends(st, line, decode);
    }
  }

  /** Lines that all belong to a text stream. */
  predicate TextStream(lines: seq<string>, decode: Decoder) {
    forall k :: 0 <= k < |lines| ==> TextStreamLine(lines[k], decode)
  }

  /** The first line of a text stream moves its text into the buffer and
      hands the new state to the rest of the stream. */
  lemma TextStreamHead(st: SseState, lines: seq<string>, decode: Decoder)
    requires st.event == Some(TextDeltaEvent) && |lines| > 0 && TextStream(lines, decode)
    ensures TextStream(lines[1..], decode)
    ensures SseRun(st, lines, decode)
      == SseRun(st.(text := st.text + DeltaText(lines[0], decode)), lines[1..], decode)
  {
    var rest := lines[1..];
    forall k | 0 <= k < |rest| ensures TextStreamLine(rest[k], decode) {
      assert rest[k] == lines[k + 1];
    }
    TextStreamStep(st, lines[0], decode);
    SseRunStep(st, lines, decode, st.(text := st.text + DeltaText(lines[0], decode)));
  }

  /** A text stream concatenates its deltas' texts, in arrival order. */
  lemma {:induction false} TextDeltasConcatenate(st: SseState, lines: seq<string>, decode: Decoder)
    requires st.event == Some(TextDeltaEvent) && TextStream(lines, decode)
    ensures SseRun(st, lines, decode) == Ok(st.(text := st.text + StreamText(lines, decode)))
    decreases |lines|
  {
    if |lines| == 0 {
      assert st.text + "" == st.text;
    } else {
      var st' := st.(text := st.text + DeltaText(lines[0], decode));
      TextStreamHead(st, lines, decode);
      TextDeltasConcatenate(st', lines[1..], decode);
      StreamTextCons(st, lines, decode);
    }
  }

  /** Appending the first line's text, then the rest's, is appending the
      text of them all. */
  lemma StreamTextCons(st: SseState, lines: seq<string>, decode: Decoder)
    requires |lines| > 0
    ensures var st' := st.(text := st.text + DeltaText(lines[0], decode));
      st'.(text := st'.text + StreamText(lines[1..], decode)) == st.(text := st.text + StreamText(lines, decode))
  {
    var t, x := DeltaText(lines[0], decode), StreamText(lines[1..], decode);
    assert st.text + t + x == st.text + (t + x);
  }

  /** A stream that opens with a `response.text.delta` event line and goes on
      with text-stream lines leaves exactly its concatenated texts in the
      text buffer. */
  lemma TextStreamRun(ev: string, lines: seq<string>, decode: Decoder)
    requires TextDeltaEventLine(ev)
    requires TextStream(lines, decode)
    ensures SseRun(Init, [ev] + lines, decode)
      == Ok(Init.(event := Some(TextDeltaEvent), text := StreamText(lines, decode)))
  {
    var all := [ev] + lines;
    var st := Init.(event := Some(TextDeltaEvent));
    assert SseRun(Init, all, decode) == SseRun(st, lines, decode) by {
      EventLineIsNotData(ev);
      assert all[0] == ev && all[1..] == lines;
      SseRunStep(Init, all, decode, st);
    }
    TextDeltasConcatenate(st, lines, decode);
    assert st.text + StreamText(lines, decode) == StreamText(lines, decode);
  }

  /** Such a stream's final text is the concatenation of its deltas. */
  lemma TextStreamFinalText(ev: string, lines: seq<string>, decode: Decoder)
    requires TextDeltaEventLine(ev)
    requires TextStream(lines, decode)
    ensures SseRun(Init, [ev] + lines, decode).Ok?
    ensures FinalText(Flush(SseRun(Init, [ev] + lines, decode).value)) == Ok(StreamText(lines, decode))
  {
    TextStreamRun(ev, lines, decode);
    FlushFinalText(Init.(event := Some(TextDeltaEvent), text := StreamText(lines, decode)));
  }

  // ---------------------------------------------------------------------
  // Thinking

  /** Under a thinking event, a payload whose `text` is a string adds at
      most the stripped text between the first `<thinking>` marker and the
      next `</thinking>` marker. */
  lemma ThinkingPayloadAddsSpan(st: SseState, line: string, v: Json, t: string, decode: Decoder)
    requires st.event == Some(ThinkingEvent) || st.event == Some(ThinkingDeltaEvent)
    requires IsDataLine(line) && decode(Payload(line)) == Some(v)
    requires v.JObj? && Lookup(v.fields, "text") == Some(JStr(t))
    requires ProcessSseLine(line, decode).Ok?
    ensures SseStep(st, line, decode) == Ok(st.(thinking := st.thinking + SpanAdded(t)))
  {
    assert !IsEventLine(line) by {
      if IsEventLine(line) { EventLineIsNotData(line); }
    }
  }

  /** Every buffered thinking text is non-empty and already stripped. */
  predicate ThinkingInv(st: SseState) {
    forall k :: 0 <= k < |st.thinking| ==> st.thinking[k] != "" && Strip(st.thinking[k]) == st.thinking[k]
  }

  /** What a thinking payload adds is non-empty and already stripped. */
  lemma SpanAddedIsClean(st: SseState, t: string)
    requires ThinkingInv(st)
    ensures ThinkingInv(st.(thinking := st.thinking + SpanAdded(t)))
  {
    if SpanAdded(t) != [] {
      StripIdempotent(ThinkingSpan(t).value);
    }
  }

  /** The event branch adds to the thinking buffer only what a thinking
      payload's span gives. */
  lemma EventFoldKeepsThinkingInv(st: SseState, d: Option<Json>)
    requires ThinkingInv(st) && EventFold(st, d).Ok?
    ensures ThinkingInv(EventFold(st, d).value)
  {
    if d.Some? && (st.event == Some(ThinkingDeltaEvent) || st.event == Some(ThinkingEvent)) {
      var v := d.value;
      if PyIn("text", v).value {
        var t := At(v, "text").value;
        SpanAddedIsClean(st, t.s);
        assert EventFold(st, d).value == st.(thinking := st.thinking + SpanAdded(t.s));
      } else {
        assert EventFold(st, d).value == st;
      }
    } else {
      EventFoldKeepsThinking(st, d);
    }
  }

  /** Only a thinking event touches the thinking buffer. */
  lemma EventFoldKeepsThinking(st: SseState, d: Option<Json>)
    requires EventFold(st, d).Ok?
    requires !(d.Some? && (st.event == Some(ThinkingDeltaEvent) || st.event == Some(ThinkingEvent)))
    ensures EventFold(st, d).value.thinking == st.thinking
  {
  }

  lemma SseStepKeepsThinkingInv(st: SseState, line: string, decode: Decoder)
    requires ThinkingInv(st) && SseStep(st, line, decode).Ok?
    ensures ThinkingInv(SseStep(st, line, decode).value)
  {
    if !IsEventLine(line) {
      var st1 := if IsDataLine(line) then EventFold(st, decode(Payload(line))) else Ok(st);
      var parsed := ProcessSseLine(line, decode);
      assert st1.Ok? && parsed.Ok?;
      if IsDataLine(line) {
        EventFoldKeepsThinkingInv(st, decode(Payload(line)));
      }
      assert SseStep(st, line, decode).value.thinking == st1.value.thinking;
    }
  }

  lemma {:induction false} SseRunKeepsThinkingInv(st: SseState, lines: seq<string>, decode: Decoder)
    requires ThinkingInv(st) && SseRun(st, lines, decode).Ok?
    ensures ThinkingInv(SseRun(st, lines, decode).value)
    decreases |lines|
  {
    if |lines| > 0 && !IsDoneLine(lines[0]) {
      SseStepKeepsThinkingInv(st, lines[0], decode);
      SseRunKeepsThinkingInv(SseStep(st, lines[0], decode).value, lines[1..], decode);
    }
  }

  lemma ThinkingMessagesSnoc(ts: seq<string>, t: string, keep: bool)
    requires keep == (Strip(t) != "")
    ensures ThinkingMessages(ts + [t]) == ThinkingMessages(ts) + (if keep then [ThinkingMessage(t)] else [])
  {
    assert (ts + [t])[..|ts|] == ts;
  }

  /** Texts that are not blank each give one thinking message, in order. */
  lemma {:induction false} ThinkingMessagesKeepAll(ts: seq<string>)
    requires forall k :: 0 <= k < |ts| ==> Strip(ts[k]) != ""
    ensures |ThinkingMessages(ts)| == |ts|
    ensures forall k :: 0 <= k < |ts| ==> ThinkingMessages(ts)[k] == ThinkingMessage(ts[k])
    decreases |ts|
  {
    if |ts| > 0 {
      var init, t := ts[..|ts| - 1], ts[|ts| - 1];
      assert ts == init + [t];
      assert forall k :: 0 <= k < |init| ==> init[k] == ts[k];
      ThinkingMessagesKeepAll(init);
      ThinkingMessagesSnoc(init, t, true);
    }
  }

  /** The messages of a parsed stream: one thinking message per buffered
      text, in order, then the aggregate message when any text or tool
      content was gathered. */
  lemma FlushShape(st: SseState)
    requires ThinkingInv(st)
    ensures |Flush(st)| == |st.thinking| + (if Pending(st) then 1 else 0)
    ensures forall k :: 0 <= k < |st.thinking| ==> Flush(st)[k] == ThinkingMessage(st.thinking[k])
    ensures Pending(st) ==> Flush(st)[|st.thinking|] == ParsedMessage(Assistant, JArr(AggregateContent(st)))
  {
    ThinkingMessagesKeepAll(st.thinking);
  }

  /** `ParseSseResponse`'s messages always have that shape. */
  lemma SseResponseShape(lines: seq<string>, decode: Decoder)
    requires SseRun(Init, lines, decode).Ok?
    ensures var st := SseRun(Init, lines, decode).value;
      |Flush(st)| == |st.thinking| + (if Pending(st) then 1 else 0)
      && (forall k :: 0 <= k < |st.thinking| ==> Flush(st)[k] == ThinkingMessage(st.thinking[k]))
  {
    SseRunKeepsThinkingInv(Init, lines, decode);
    FlushShape(SseRun(Init, lines, decode).value);
  }

  // ---------------------------------------------------------------------
  // Status, tool results and message deltas

  /** Under `response.status`, a payload only ever adds its `message` to the
      status messages. */
  lemma StatusPayloadOnlyAddsStatus(st: SseState, line: string, v: Json, decode: Decoder)
    requires st.event == Some(StatusEvent)
    requires IsDataLine(line) && decode(Payload(line)) == Some(v) && v.JObj?
    requires ProcessSseLine(line, decode).Ok?
    ensures SseStep(st, line, decode)
      == Ok(st.(status := st.status + (if HasKey(v, "message") then [Lookup(v.fields, "message").value] else [])))
  {
    assert !IsEventLine(line) by {
      if IsEventLine(line) { EventLineIsNotData(line); }
    }
    StatusFold(st, v);
    assert !FoldsDeltas(st.event) by {
      assert DirectEvents[4] == StatusEvent;
    }
  }

  lemma StatusFold(st: SseState, v: Json)
    requires st.event == Some(StatusEvent) && v.JObj?
    ensures EventFold(st, Some(v))
      == Ok(st.(status := st.status + (if HasKey(v, "message") then [Lookup(v.fields, "message").value] else [])))
  {
    assert StatusEvent[9] != ThinkingDeltaEvent[9] && StatusEvent[9] != ThinkingEvent[9];
    assert st.status + [] == st.status;
  }

  /** Under `response.tool_result`, a payload becomes a tool result only
      when it carries both `content` and `tool_use_id`. */
  lemma ToolResultNeedsBothKeys(st: SseState, v: Json)
    requires st.event == Some(ToolResultEvent) && v.JObj?
    ensures EventFold(st, Some(v))
      == Ok(if HasKey(v, "content") && HasKey(v, "tool_use_id")
            then st.(toolResults := st.toolResults
                     + [JObj([("tool_use_id", Lookup(v.fields, "tool_use_id").value),
                              ("content", Lookup(v.fields, "content").value)])])
            else st)
  {
  }

  /** Outside the direct events, a message delta is folded into the
      buffers. */
  lemma MessageDeltaAbsorbed(st: SseState, line: string, parts: DeltaParts, decode: Decoder)
    requires FoldsDeltas(st.event) && st.event != Some(ToolResultEvent)
    requires ProcessSseLine(line, decode) == Ok(Message(parts))
    ensures SseStep(st, line, decode) == Ok(Absorb(st, parts))
  {
    assert !IsEventLine(line) by {
      if IsEventLine(line) { EventLineIsNotData(line); }
    }
    assert st.event != Some(ThinkingDeltaEvent) && st.event != Some(ThinkingEvent)
      && st.event != Some(StatusEvent) && st.event != Some(TextDeltaEvent) by {
      if st.event.Some? {
        assert DirectEvents[0] == TextDeltaEvent && DirectEvents[2] == ThinkingDeltaEvent;
        assert DirectEvents[3] == ThinkingEvent && DirectEvents[4] == StatusEvent;
      }
    }
  }

  /** Under a direct event, message deltas are ignored: only the event's own
      branch changes the buffers. */
  lemma DirectEventsIgnoreDeltas(st: SseState, line: string, decode: Decoder)
    requires !FoldsDeltas(st.event) && !IsEventLine(line)
    requires ProcessSseLine(line, decode).Ok?
    ensures SseStep(st, line, decode) == (if IsDataLine(line) then EventFold(st, decode(Payload(line))) else Ok(st))
  {
    if IsDataLine(line) && EventFold(st, decode(Payload(line))).Ok? {
      assert EventFold(st, decode(Payload(line))).value.event == st.event;
    }
  }

  // ---------------------------------------------------------------------
  // _process_sse_line and _parse_delta_content

  /** `type == 'done'` exactly for the terminator. */
  lemma DoneOnlyForTerminator(line: string, decode: Decoder)
    ensures ProcessSseLine(line, decode) == Ok(Done) <==> IsDoneLine(line)
  {
  }

  /** A decodable object is a final message exactly when it has `content`
      and `role`, and the role is `assistant`. */
  lemma FinalMessageWhenAssistant(line: string, data: Json, decode: Decoder)
    requires IsDataLine(line) && Payload(line) != "[DONE]" && !StartsWith(Payload(line), "[")
    requires decode(Payload(line)) == Some(data) && data.JObj?
    ensures (ProcessSseLine(line, decode).Ok? && ProcessSseLine(line, decode).value.FinalMessage?)
      <==> HasKey(data, "content") && HasKey(data, "role") && Lookup(data.fields, "role").value == Assistant
  {
  }

  /** A decoded object with neither `content` nor `object` is not a message
      delta. */
  lemma PlainObjectIsNotMessage(line: string, data: Json, decode: Decoder)
    requires IsDataLine(line) && decode(Payload(line)) == Some(data)
    requires data.JObj? && !HasKey(data, "content") && !HasKey(data, "object")
    ensures ProcessSseLine(line, decode).Ok? && !ProcessSseLine(line, decode).value.Message?
  {
  }

  /** Folding two runs of entries is folding the second from where the
      first left off. */
  lemma {:induction false} DeltaFoldAppend(acc: DeltaParts, a: seq<Json>, b: seq<Json>)
    ensures DeltaFold(acc, a + b)
      == (match DeltaFold(acc, a)
          case Ok(m) => DeltaFold(m, b)
          case Raise(e) => Raise(e))
    decreases |a|
  {
    if |a| == 0 {
      assert a + b == b;
    } else {
      assert (a + b)[0] == a[0] && (a + b)[1..] == a[1..] + b;
      match AddEntry(acc, a[0])
      case Ok(m) => DeltaFoldAppend(m, a[1..], b);
      case Raise(_) =>
    }
  }

  /** An entry the delta fold accepts: a dict whose `text`, when it is typed
      `text` and has one, is a string. */
  predicate WellFormedEntry(e: Json) {
    e.JObj?
    && (Lookup(e.fields, "type") == Some(JStr("text")) && HasKey(e, "text") ==> Lookup(e.fields, "text").value.JStr?)
  }

  predicate TypedAs(e: Json, tag: string) {
    e.JObj? && Lookup(e.fields, "type") == Some(JStr(tag))
  }

  /** The value an entry typed `tag` contributes (`{}` when it has none). */
  function TagValue(e: Json, tag: string): Json
    requires e.JObj?
  {
    match Lookup(e.fields, tag)
    case None => JObj([])
    case Some(x) => x
  }

  function TextOf(e: Json): string {
    if TypedAs(e, "text") && HasKey(e, "text") && Lookup(e.fields, "text").value.JStr?
    then Lookup(e.fields, "text").value.s else ""
  }

  /** Reference definitions: the texts, and the values of the entries typed
      `tag`, in order. */
  function TextsOf(es: seq<Json>): string {
    if |es| == 0 then "" else TextsOf(es[..|es| - 1]) + TextOf(es[|es| - 1])
  }

  function ValuesTagged(es: seq<Json>, tag: string): seq<Json> {
    if |es| == 0 then []
    else ValuesTagged(es[..|es| - 1], tag)
         + (if TypedAs(es[|es| - 1], tag) then [TagValue(es[|es| - 1], tag)] else [])
  }

  /** One entry: accepted exactly when well formed, and then it adds its
      text, or its value to the list its type names. */
  lemma AddEntrySplitsByType(acc: DeltaParts, e: Json)
    ensures AddEntry(acc, e).Ok? <==> WellFormedEntry(e)
    ensures AddEntry(acc, e).Ok? ==> (AddEntry(acc, e).value
      == DeltaParts(acc.text + TextOf(e),
                    acc.toolUse + (if TypedAs(e, "tool_use") then [TagValue(e, "tool_use")] else []),
                    acc.toolResults + (if TypedAs(e, "tool_results") then [TagValue(e, "tool_results")] else [])))
  {
  }

  /** Reference result of the delta fold: the texts concatenated, and the
      tool uses and tool results collected, each in entry order. */
  function SplitByType(acc: DeltaParts, es: seq<Json>): DeltaParts {
    DeltaParts(acc.text + TextsOf(es),
               acc.toolUse + ValuesTagged(es, "tool_use"),
               acc.toolResults + ValuesTagged(es, "tool_results"))
  }

  /** The delta fold succeeds exactly when every entry is well formed, and
      it then splits the entries by type, keeping their order. */
  lemma {:induction false} DeltaFoldSplitsByType(acc: DeltaParts, es: seq<Json>)
    ensures DeltaFold(acc, es).Ok? <==> forall k :: 0 <= k < |es| ==> WellFormedEntry(es[k])
    ensures DeltaFold(acc, es).Ok? ==> DeltaFold(acc, es).value == SplitByType(acc, es)
    decreases |es|
  {
    if |es| > 0 {
      var init := es[..|es| - 1];
      var last := es[|es| - 1];
      DeltaFoldSplitsByType(acc, init);
      DeltaFoldSnoc(acc, es);
      assert (forall k :: 0 <= k < |es| ==> WellFormedEntry(es[k]))
        <==> (forall k :: 0 <= k < |init| ==> WellFormedEntry(init[k])) && WellFormedEntry(last) by {
        assert forall k :: 0 <= k < |init| ==> init[k] == es[k];
      }
      if DeltaFold(acc, init).Ok? {
        SplitByTypeSnoc(acc, es);
      }
    }
  }

  /** One more entry: rejected when it is not well formed, and otherwise
      taking the reference result one entry further. */
  lemma SplitByTypeSnoc(acc: DeltaParts, es: seq<Json>)
    requires |es| > 0
    ensures var m := SplitByType(acc, es[..|es| - 1]);
      AddEntry(m, es[|es| - 1]).Ok? <==> WellFormedEntry(es[|es| - 1])
    ensures var m := SplitByType(acc, es[..|es| - 1]);
      AddEntry(m, es[|es| - 1]).Ok? ==> AddEntry(m, es[|es| - 1]).value == SplitByType(acc, es)
  {
    var init, last := es[..|es| - 1], es[|es| - 1];
    var m := SplitByType(acc, init);
    AddEntrySplitsByType(m, last);
    var tu := if TypedAs(last, "tool_use") then [TagValue(last, "tool_use")] else [];
    var tr := if TypedAs(last, "tool_results") then [TagValue(last, "tool_results")] else [];
    assert acc.text + TextsOf(init) + TextOf(last) == acc.text + TextsOf(es);
    assert acc.toolUse + ValuesTagged(init, "tool_use") + tu == acc.toolUse + ValuesTagged(es, "tool_use");
    assert acc.toolResults + ValuesTagged(init, "tool_results") + tr
      == acc.toolResults + ValuesTagged(es, "tool_results");
  }

  /** The fold over all entries is the fold over all but the last, then the
      last entry. */
  lemma DeltaFoldSnoc(acc: DeltaParts, es: seq<Json>)
    requires |es| > 0
    ensures DeltaFold(acc, es)
      == (match DeltaFold(acc, es[..|es| - 1])
          case Ok(m) => AddEntry(m, es[|es| - 1])
          case Raise(e) => Raise(e))
  {
    var init := es[..|es| - 1];
    var last := es[|es| - 1];
    assert es == init + [last];
    DeltaFoldAppend(acc, init, [last]);
    assert [last][1..] == [];
  }

  // ---------------------------------------------------------------------
  // The final text of a parsed stream

  lemma {:induction false} TextPartsAppend(a: seq<Json>, b: seq<Json>)
    requires TextParts(a).Ok? && TextParts(b).Ok?
    ensures TextParts(a + b) == Ok(TextParts(a).value + TextParts(b).value)
    decreases |a|
  {
    if |a| == 0 {
      assert a + b == b;
      assert TextParts(a).value == [];
      assert [] + TextParts(b).value == TextParts(b).value;
    } else {
      assert (a + b)[0] == a[0] && (a + b)[1..] == a[1..] + b;
      TextPartsAppend(a[1..], b);
      var kind := Get(a[0], "type", JNull).value;
      var here := if kind == JStr("text") then [Get(a[0], "text", JStr("")).value] else [];
      assert TextParts(a) == Ok(here + TextParts(a[1..]).value);
      assert TextParts(a + b) == Ok(here + (TextParts(a[1..]).value + TextParts(b).value));
      assert here + (TextParts(a[1..]).value + TextParts(b).value)
        == (here + TextParts(a[1..]).value) + TextParts(b).value;
    }
  }

  /** Tool items hold no text. */
  lemma {:induction false} TaggedItemsHaveNoText(tag: string, xs: seq<Json>)
    requires tag != "text" && tag != "type"
    ensures TextParts(TaggedItems(tag, xs)) == Ok([])
    decreases |xs|
  {
    if |xs| > 0 {
      TaggedItemsHaveNoText(tag, xs[..|xs| - 1]);
      SingleTextParts(TaggedItem(tag, xs[|xs| - 1]), tag);
      TextPartsAppend(TaggedItems(tag, xs[..|xs| - 1]), [TaggedItem(tag, xs[|xs| - 1])]);
    }
  }

  /** A single item contributes its text exactly when it is typed `text`. */
  lemma SingleTextParts(e: Json, kind: string)
    requires e.JObj? && Lookup(e.fields, "type") == Some(JStr(kind))
    ensures kind != "text" ==> TextParts([e]) == Ok([])
    ensures kind == "text" && HasKey(e, "text") ==> TextParts([e]) == Ok([Lookup(e.fields, "text").value])
  {
    assert [e][0] == e && [e][1..] == [];
    assert Get(e, "type", JNull) == Ok(JStr(kind));
    assert TextParts([e][1..]) == Ok([]);
    if kind == "text" && HasKey(e, "text") {
      var t := Lookup(e.fields, "text").value;
      assert TextParts([e]) == Ok([t] + []);
      assert [t] + [] == [t];
    } else if kind != "text" {
      assert JStr(kind) != JStr("text");
      assert TextParts([e]) == Ok([] + []);
    }
  }

  /** Thinking messages hold no text. */
  lemma ThinkingMessageHasNoText(t: string)
    ensures TextContent(ThinkingMessage(t)) == Ok("")
  {
    assert "thinking"[1] != "text"[1];
    SingleTextParts(ThinkingItem(t), "thinking");
  }

  lemma {:induction false} ThinkingMessagesHaveNoText(ts: seq<string>)
    ensures FinalText(ThinkingMessages(ts)) == Ok("")
    decreases |ts|
  {
    if |ts| > 0 {
      var last := ts[|ts| - 1];
      if Strip(last) != "" {
        ThinkingMessageHasNoText(last);
      } else {
        ThinkingMessagesHaveNoText(ts[..|ts| - 1]);
        var before := ThinkingMessages(ts[..|ts| - 1]);
        assert ThinkingMessages(ts) == before + [];
        assert before + [] == before;
      }
    }
  }

  /** The aggregate message's text is the text gathered from the stream. */
  lemma AggregateText(st: SseState)
    ensures TextContent(ParsedMessage(Assistant, JArr(AggregateContent(st)))) == Ok(st.text)
  {
    var head := if st.text != "" then [TextItem(st.text)] else [];
    var uses := TaggedItems("tool_use", st.toolUse);
    var results := TaggedItems("tool_results", st.toolResults);
    assert "tool_use"[1] != "text"[1] && "tool_results"[1] != "text"[1];
    TaggedItemsHaveNoText("tool_use", st.toolUse);
    TaggedItemsHaveNoText("tool_results", st.toolResults);
    if st.text != "" {
      SingleTextParts(TextItem(st.text), "text");
    }
    var parts := if st.text != "" then [JStr(st.text)] else [];
    assert TextParts(head) == Ok(parts);
    TextPartsAppend(head, uses);
    assert parts + [] == parts;
    TextPartsAppend(head + uses, results);
    assert AggregateContent(st) == head + uses + results;
    assert TextParts(AggregateContent(st)) == Ok(parts);
    if st.text != "" {
      assert parts[1..] == [];
      assert st.text + "" == st.text;
    }
    assert JoinStrings(parts) == Ok(st.text);
  }

  /** The final text of a parsed stream is the text gathered from the
      stream: thinking messages contribute none. */
  lemma FlushFinalText(st: SseState)
    ensures FinalText(Flush(st)) == Ok(st.text)
  {
    if Pending(st) {
      AggregateText(st);
      var ms := Flush(st);
      assert ms[|ms| - 1] == ParsedMessage(Assistant, JArr(AggregateContent(st)));
    } else {
      ThinkingMessagesHaveNoText(st.thinking);
      assert Flush(st) == ThinkingMessages(st.thinking) + [];
      assert ThinkingMessages(st.thinking) + [] == ThinkingMessages(st.thinking);
    }
  }
}
