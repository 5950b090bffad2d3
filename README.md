# Cortex agent response parser, modelled in Dafny

This project models `CortexResponseParser`, the parser that turns the
responses of a Snowflake Cortex agent into a `CortexResponse`: a list of
assistant messages whose content items are text, thinking, tool-use and
tool-result dicts, plus suggestions, status messages and a request id. The
parser has four entry points:

- `parse_sse_response` folds a server-sent-event stream into buffers keyed by
  the current event and then flushes them into messages;
- `_parse_trace_response` and `_extract_from_trace` read OpenTelemetry-shaped
  trace arrays and build the response in place, with de-duplication;
- `parse_json_response` reads one JSON document;
- `parse_file_response` splits a sample file at `Sample response` markers.
  Each closed group goes to the event-stream parser and the final group to
  the trace parser.

The read-only views of the data model (`text_content`, `tool_results`,
`sql_query`, `verification_info`, `is_verified_query`, `chart_spec`,
`final_text`, `sql_queries`, `search_results`, `citations`, `chart_specs`) and
`extract_summary` are modelled too.

Modules:

- `PyJson` (`py_json.dfy`): decoded JSON values and the Python operations the
  parser applies to them (`get`, `[]`, `in`, iteration, `len`, `strip`, `or`,
  `str`). An operation that Python would abort with an exception returns
  `Raise(exc)` instead of a value.
- `Model` (`model.dfy`): `ToolUse`, `ToolResult`, `ParsedMessage` and
  `Suggestion` as values, `CortexResponse` as a class whose fields the parsers
  update, and every property as a function.
- `Sse` and `SseProperties`: the event-stream fold (`SseRun`, `SseStep`,
  `Flush`), the methods proved against it, and what the fold promises.
- `Trace` and `TraceProperties`: the trace path. It updates the response in
  place; its functions return the state reached together with the exception
  that stopped the work.
- `Documents`: `parse_json_response` and `parse_file_response`.
- `ViewProperties` and `Summaries`: the views' promises, and `extract_summary`.

Python exceptions are part of the model. Every operation returns
`Ok(value)` or `Raise(exc)`, with `exc` one of `TypeError`,
`AttributeError`, `KeyError` and `JSONDecodeError`. Payloads of any shape
are accepted, no operation has a precondition the source does not have, and
the contracts say when the source raises. The trace path catches `TypeError`
and `JSONDecodeError` per line and keeps the changes made before them, and
the model does the same.

`json.loads` is a parameter `decode: string -> Option<Json>`, where `None`
stands for `JSONDecodeError`. The regular expression
`<thinking>(.*?)</thinking>` is modelled directly as the text between the
first opening marker and the next closing marker.

## Model

| member | source | states |
|---|---|---|
| PyJson.PyOr | tools/Slack-qs-patch/cortex_response_parser_modified.py:74-79 | `a or b` is truthy exactly when one of the operands is |
| PyJson.Get | tools/Slack-qs-patch/cortex_response_parser_modified.py:113-114 | `j.get(key, default)` raises AttributeError exactly on a non-dict, gives the bound value when the key is present and the default otherwise |
| PyJson.At | tools/Slack-qs-patch/cortex_response_parser_modified.py:37-38 | `j[key]` succeeds exactly when the dict holds the key, with the value of its first binding |
| PyJson.PyIn | tools/Slack-qs-patch/cortex_response_parser_modified.py:36-37 | `key in j` is a key test on a dict; it raises exactly on values that are neither dict, list nor string |
| PyJson.Iter | tools/Slack-qs-patch/cortex_response_parser_modified.py:35 | a `for` loop visits a list's elements in order, a dict's keys in order or a string's characters one by one, and raises TypeError on anything else |
| PyJson.StripJ | tools/Slack-qs-patch/cortex_response_parser_modified.py:409 | `.strip()` succeeds exactly on strings, giving the stripped string, and raises AttributeError otherwise |
| PyJson.StripIsSlice | tools/Slack-qs-patch/cortex_response_parser_modified.py:409 | the stripped string is a slice of the original with no whitespace at either end, and everything cut away on either side is whitespace |
| PyJson.StripIdempotent | tools/Slack-qs-patch/cortex_response_parser_modified.py:250 | stripping twice is stripping once |
| PyJson.IndexOfIsFirst | tools/Slack-qs-patch/cortex_response_parser_modified.py:248 | the substring search finds the first occurrence at or after the start and misses none |
| PyJson.PyStr | tools/Slack-qs-patch/cortex_response_parser_modified.py:200 | an f-string inserts a string value unchanged |
| Model.CortexResponse.constructor | tools/Slack-qs-patch/cortex_response_parser_modified.py:158-164 | a new response has no messages, suggestions or status messages, and no request id |
| Model.JoinStrings | tools/Slack-qs-patch/cortex_response_parser_modified.py:115 | `''.join` succeeds exactly when every part is a string |
| Model.Restrict | tools/Slack-qs-patch/cortex_response_parser_modified.py:56-67 | the copied keys are exactly the listed keys the dict holds |
| Model.MergeKeysIsUpdate | tools/Slack-qs-patch/cortex_response_parser_modified.py:55-67 | on a dict, `verification_info`'s merge copies exactly the five listed keys it holds, each overwriting an earlier value |
| Model.FirstTruthy | tools/Slack-qs-patch/cortex_response_parser_modified.py:74-79 | the `or` chain is truthy exactly when one of the keys holds a truthy value |
| Model.IsVerifiedQuery | tools/Slack-qs-patch/cortex_response_parser_modified.py:70-79 | `is_verified_query` raises exactly when `verification_info` does, and is truthy exactly when one of the four trigger keys holds a truthy value |
| Model.FirstKeyIn | tools/Slack-qs-patch/cortex_response_parser_modified.py:88-98 | on a dict, the chart is the value of the first present key in priority order, and none only when no key is present |
| Model.TextContent | tools/Slack-qs-patch/cortex_response_parser_modified.py:108-115 | `text_content`: the join of the `text` values of the items typed `text`; its properties are `SseProperties.TextPartsAppend`, `SingleTextParts` and `AggregateText` |
| Model.ToolUses | tools/Slack-qs-patch/cortex_response_parser_modified.py:117-130 | `tool_uses`; characterised against the tagged values by `ViewProperties.ToolUsesInIsTagged` |
| Model.ToolResults | tools/Slack-qs-patch/cortex_response_parser_modified.py:132-149 | `tool_results`; its properties are `TraceProperties.ToolResultsInAppend` and `ToolResultsItemResult` |
| Model.SqlQuery | tools/Slack-qs-patch/cortex_response_parser_modified.py:32-39 | `sql_query`; characterised by `ViewProperties.SqlInFirstHit` |
| Model.SearchResults | tools/Slack-qs-patch/cortex_response_parser_modified.py:41-49 | `ToolResult.search_results`; its property is `ViewProperties.SearchInAppend` |
| Model.VerificationInfo | tools/Slack-qs-patch/cortex_response_parser_modified.py:51-68 | `verification_info`; its properties are `Model.MergeKeysIsUpdate` and `Summaries.VerificationInKeys` |
| Model.ChartSpec | tools/Slack-qs-patch/cortex_response_parser_modified.py:81-99 | `chart_spec`; characterised by `Model.FirstKeyIn` and `ViewProperties.ChartInFirstHit` |
| Model.FinalText | tools/Slack-qs-patch/cortex_response_parser_modified.py:166-172 | `final_text`; characterised by `ViewProperties.FinalTextIsLastAssistant` |
| Model.SqlQueries | tools/Slack-qs-patch/cortex_response_parser_modified.py:174-183 | `sql_queries`; characterised by `ViewProperties.SqlsOfTruthy` and `TraceProperties.SqlQueriesAppend` |
| Model.AllSearchResults | tools/Slack-qs-patch/cortex_response_parser_modified.py:185-192 | `CortexResponse.search_results`; its property is `ViewProperties.AllSearchResultsAppend` |
| Model.Citations | tools/Slack-qs-patch/cortex_response_parser_modified.py:194-204 | `citations`; one record is characterised by `ViewProperties.CitationFormat` |
| Model.ChartSpecs | tools/Slack-qs-patch/cortex_response_parser_modified.py:206-215 | `chart_specs`; characterised by `ViewProperties.ChartsOfTruthy` and `ChartSpecsAppend` |
| ViewProperties.FinalTextIsLastAssistant | tools/Slack-qs-patch/cortex_response_parser_modified.py:166-172 | `final_text` is the text of the last assistant message, even when that is empty, and `""` when there is no assistant message |
| ViewProperties.ChartInFirstHit | tools/Slack-qs-patch/cortex_response_parser_modified.py:82-99 | the first dict item with a chart decides `chart_spec`, and every dict item before it has none; the result is `None` when no dict item has one |
| ViewProperties.CitationFormat | tools/Slack-qs-patch/cortex_response_parser_modified.py:194-204 | a citation is `"{doc_title}: {text}"` with ` [Source: {doc_id}]` only when `doc_id` is present, and a record without a title or a text gives none |
| ViewProperties.SqlsOfTruthy | tools/Slack-qs-patch/cortex_response_parser_modified.py:174-183 | `sql_queries` of some tool results succeeds exactly when every `sql_query` does, and is then exactly their truthy queries, in order |
| ViewProperties.ChartsOfTruthy | tools/Slack-qs-patch/cortex_response_parser_modified.py:206-215 | `chart_specs` of some tool results succeeds exactly when every `chart_spec` does, and is then exactly their truthy charts, in order |
| ViewProperties.TruthiesMembers | tools/Slack-qs-patch/cortex_response_parser_modified.py:178-182 | the truthy filter keeps exactly the truthy values |
| ViewProperties.EveryTruthyKept | tools/Slack-qs-patch/cortex_response_parser_modified.py:174-183 | every truthy query and every truthy chart of a tool result is among the collected ones |
| ViewProperties.ChartsOfAppend | tools/Slack-qs-patch/cortex_response_parser_modified.py:210-214 | the charts of joined tool-result lists are the joined charts |
| ViewProperties.ChartSpecsAppend | tools/Slack-qs-patch/cortex_response_parser_modified.py:206-215 | the charts of joined message lists are the joined charts |
| ViewProperties.SqlInFirstHit | tools/Slack-qs-patch/cortex_response_parser_modified.py:32-39 | the first dict item whose `json` holds `sql` decides `sql_query`, and no dict item before it holds one; the result is `None` when none does |
| ViewProperties.ToolUsesInIsTagged | tools/Slack-qs-patch/cortex_response_parser_modified.py:117-130 | the tool uses are read exactly when every dict item typed `tool_use` can be read, and are then one per such item, in order, built from the item's `tool_use` dict with `id`, `name` and `type` defaulting to `''` and `arguments` to `{}` |
| ViewProperties.ToolUsesAreTagged | tools/Slack-qs-patch/cortex_response_parser_modified.py:117-130 | a message's tool uses are those of its items typed `tool_use`, in order |
| ViewProperties.SearchInAppend | tools/Slack-qs-patch/cortex_response_parser_modified.py:41-49 | the search results of joined item lists are the joined results |
| ViewProperties.SearchesOfAppend | tools/Slack-qs-patch/cortex_response_parser_modified.py:185-192 | the search results of joined tool-result lists are the joined results |
| ViewProperties.AllSearchResultsAppend | tools/Slack-qs-patch/cortex_response_parser_modified.py:185-192 | the search results of joined message lists are the joined results |
| Sse.EventLineIsNotData | tools/Slack-qs-patch/cortex_response_parser_modified.py:232-236 | an `event: ` line is never read as a data line |
| Sse.ProcessSseLine | tools/Slack-qs-patch/cortex_response_parser_modified.py:477-508 | `_process_sse_line`; characterised by `SseProperties.DoneOnlyForTerminator`, `FinalMessageWhenAssistant` and `PlainObjectIsNotMessage` |
| Sse.ParseDeltaContent | tools/Slack-qs-patch/cortex_response_parser_modified.py:510-527 | `_parse_delta_content`; characterised against the reference split by `SseProperties.DeltaFoldSplitsByType` |
| Sse.EventFold | tools/Slack-qs-patch/cortex_response_parser_modified.py:242-276 | the `try` block's branches on the current event; characterised by `SseProperties.ThinkingPayloadAddsSpan`, `StatusFold`, `ToolResultNeedsBothKeys` and `EventFoldKeepsThinking` |
| Sse.SseStep | tools/Slack-qs-patch/cortex_response_parser_modified.py:232-291 | one pass of the loop; characterised by `SseProperties.TextDeltaAppends`, `InertLineSkipped`, `MessageDeltaAbsorbed` and `DirectEventsIgnoreDeltas` |
| Sse.SseRun | tools/Slack-qs-patch/cortex_response_parser_modified.py:231-291 | the whole loop; characterised by `SseProperties.SseRunAppend`, `DoneEndsStream`, `TextStreamRun` and `SseRunKeepsThinkingInv` |
| Sse.Flush | tools/Slack-qs-patch/cortex_response_parser_modified.py:293-324 | the flush after the loop; characterised by `SseProperties.FlushShape` and `FlushFinalText` |
| Sse.ThinkingSpanIsLazyMatch | tools/Slack-qs-patch/cortex_response_parser_modified.py:248 | the span is the text between the first `<thinking>` and the next `</thinking>`, and there is none exactly when no opening marker is followed by a closing one |
| Sse.SpanAdded | tools/Slack-qs-patch/cortex_response_parser_modified.py:248-252 | a thinking payload adds at most one text: the stripped span, added exactly when a span exists and is not blank |
| Sse.FoldPayload | tools/Slack-qs-patch/cortex_response_parser_modified.py:242-276 | the `try` block's branches on the current event compute the event fold |
| Sse.ThinkingFlushed | tools/Slack-qs-patch/cortex_response_parser_modified.py:293-298 | one thinking message per non-blank buffered thinking text, in order |
| Sse.AppendTagged | tools/Slack-qs-patch/cortex_response_parser_modified.py:309-319 | one `{'type': tag, tag: x}` item per buffered value, appended in order |
| Sse.FlushedMessages | tools/Slack-qs-patch/cortex_response_parser_modified.py:293-324 | the flush appends the thinking messages, then the aggregate message |
| Sse.SseLine | tools/Slack-qs-patch/cortex_response_parser_modified.py:232-291 | one pass of the loop over a line that is not the terminator computes one fold step |
| Sse.ParseSseResponse | tools/Slack-qs-patch/cortex_response_parser_modified.py:224-326 | `parse_sse_response` raises exactly when the fold does; otherwise it returns a fresh response whose messages are the flush of the fold's buffers and whose status messages are the fold's |
| SseProperties.SseRunAppend | tools/Slack-qs-patch/cortex_response_parser_modified.py:231-291 | folding two pieces of a stream is folding the second from where the first left off |
| SseProperties.DoneEndsStream | tools/Slack-qs-patch/cortex_response_parser_modified.py:239-240 | nothing after `data: [DONE]` has any effect |
| SseProperties.InertLineSkipped | tools/Slack-qs-patch/cortex_response_parser_modified.py:275-276 | a line that is neither event nor data, or a data line that does not decode, is skipped without error |
| SseProperties.InertLinesSkipped | tools/Slack-qs-patch/cortex_response_parser_modified.py:275-276 | any number of such lines leave the state unchanged |
| SseProperties.TextDeltaAppends | tools/Slack-qs-patch/cortex_response_parser_modified.py:259-262 | under `response.text.delta`, any dict payload whose `text` is a string (or absent) appends that text (or nothing) to the text buffer and changes nothing else |
| SseProperties.TextStreamStep | tools/Slack-qs-patch/cortex_response_parser_modified.py:259-262 | each line of a text stream keeps the loop going and appends its delta text, if any |
| SseProperties.PlainObjectIsNotMessage | tools/Slack-qs-patch/cortex_response_parser_modified.py:490-506 | a decoded dict with neither `content` nor `object` is not a message delta |
| SseProperties.TextStreamHead | tools/Slack-qs-patch/cortex_response_parser_modified.py:231-262 | the first line of a text stream moves its text into the buffer and hands that state to the rest of the stream |
| SseProperties.TextDeltasConcatenate | tools/Slack-qs-patch/cortex_response_parser_modified.py:259-262 | text deltas interleaved with skipped lines and repeated `event: response.text.delta` lines concatenate their texts in arrival order |
| SseProperties.TextStreamRun | tools/Slack-qs-patch/cortex_response_parser_modified.py:231-262 | an event line selecting `response.text.delta`, then any mix of such lines, leaves exactly the concatenated text in the buffer |
| SseProperties.TextStreamFinalText | tools/Slack-qs-patch/cortex_response_parser_modified.py:300-307 | such a stream parses without error and its final text is the concatenation of its deltas |
| SseProperties.ThinkingPayloadAddsSpan | tools/Slack-qs-patch/cortex_response_parser_modified.py:245-252 | under a thinking event, a payload with a string `text` adds exactly the span it carries |
| SseProperties.SpanAddedIsClean | tools/Slack-qs-patch/cortex_response_parser_modified.py:250-252 | what a thinking payload adds is non-empty and already stripped |
| SseProperties.EventFoldKeepsThinkingInv | tools/Slack-qs-patch/cortex_response_parser_modified.py:245-273 | the event branch keeps every buffered thinking text non-empty and stripped |
| SseProperties.EventFoldKeepsThinking | tools/Slack-qs-patch/cortex_response_parser_modified.py:245-273 | only a thinking event touches the thinking buffer |
| SseProperties.SseStepKeepsThinkingInv | tools/Slack-qs-patch/cortex_response_parser_modified.py:231-291 | a step keeps every buffered thinking text non-empty and stripped |
| SseProperties.SseRunKeepsThinkingInv | tools/Slack-qs-patch/cortex_response_parser_modified.py:231-291 | the whole fold keeps that invariant |
| SseProperties.ThinkingMessagesKeepAll | tools/Slack-qs-patch/cortex_response_parser_modified.py:293-298 | non-blank texts each give one thinking message, in order |
| SseProperties.FlushShape | tools/Slack-qs-patch/cortex_response_parser_modified.py:293-324 | the thinking messages come first, in extraction order, followed by the aggregate message exactly when a buffer is non-empty |
| SseProperties.SseResponseShape | tools/Slack-qs-patch/cortex_response_parser_modified.py:224-326 | every parsed stream's messages have that shape |
| SseProperties.StatusPayloadOnlyAddsStatus | tools/Slack-qs-patch/cortex_response_parser_modified.py:254-257 | under `response.status`, a payload only adds its `message` to the status messages |
| SseProperties.StatusFold | tools/Slack-qs-patch/cortex_response_parser_modified.py:254-257 | the status branch of the event fold |
| SseProperties.ToolResultNeedsBothKeys | tools/Slack-qs-patch/cortex_response_parser_modified.py:267-273 | under `response.tool_result`, a payload adds a tool result exactly when it carries both `content` and `tool_use_id` |
| SseProperties.MessageDeltaAbsorbed | tools/Slack-qs-patch/cortex_response_parser_modified.py:280-285 | outside the direct events, a message delta's parts are folded into the buffers |
| SseProperties.DirectEventsIgnoreDeltas | tools/Slack-qs-patch/cortex_response_parser_modified.py:280 | under the five text, thinking and status events, message deltas are ignored |
| SseProperties.DoneOnlyForTerminator | tools/Slack-qs-patch/cortex_response_parser_modified.py:479-485 | `_process_sse_line` answers `done` exactly for the terminator |
| SseProperties.FinalMessageWhenAssistant | tools/Slack-qs-patch/cortex_response_parser_modified.py:492-497 | a decoded dict is a final message exactly when it has `content` and `role` and the role is `assistant` |
| SseProperties.DeltaFoldAppend | tools/Slack-qs-patch/cortex_response_parser_modified.py:518-525 | folding two runs of entries is folding the second from where the first left off |
| SseProperties.AddEntrySplitsByType | tools/Slack-qs-patch/cortex_response_parser_modified.py:519-525 | one entry is accepted exactly when it is well formed, and adds its text or its value to the list its type names |
| SseProperties.DeltaFoldSplitsByType | tools/Slack-qs-patch/cortex_response_parser_modified.py:510-527 | `_parse_delta_content` succeeds exactly when every entry is well formed, and then concatenates the texts and collects the tool uses and tool results, each in entry order |
| SseProperties.SplitByTypeSnoc | tools/Slack-qs-patch/cortex_response_parser_modified.py:518-525 | the reference split, one entry further |
| SseProperties.DeltaFoldSnoc | tools/Slack-qs-patch/cortex_response_parser_modified.py:518-525 | the fold over all entries is the fold over all but the last, then the last |
| SseProperties.TextPartsAppend | tools/Slack-qs-patch/cortex_response_parser_modified.py:111-115 | the text parts of joined item lists are the joined text parts |
| SseProperties.TaggedItemsHaveNoText | tools/Slack-qs-patch/cortex_response_parser_modified.py:309-319 | tool items hold no text |
| SseProperties.SingleTextParts | tools/Slack-qs-patch/cortex_response_parser_modified.py:112-114 | a single item contributes its text exactly when it is typed `text` |
| SseProperties.ThinkingMessageHasNoText | tools/Slack-qs-patch/cortex_response_parser_modified.py:295-298 | a thinking message has empty text |
| SseProperties.ThinkingMessagesHaveNoText | tools/Slack-qs-patch/cortex_response_parser_modified.py:293-298 | the thinking messages alone have an empty final text |
| SseProperties.AggregateText | tools/Slack-qs-patch/cortex_response_parser_modified.py:300-324 | the aggregate message's text is the text gathered from the stream |
| SseProperties.FlushFinalText | tools/Slack-qs-patch/cortex_response_parser_modified.py:293-324 | the final text of a parsed stream is the text gathered from it |
| Trace.AppendSearchResults | tools/Slack-qs-patch/cortex_response_parser_modified.py:443-471 | the search loop updates the response as the search function says, and touches neither suggestions nor status messages |
| Trace.ApplyAttr | tools/Slack-qs-patch/cortex_response_parser_modified.py:404-475 | one attribute of a trace; characterised by `TraceProperties.ResponseAttrDedup`, `SqlAttrRecordsQuery`, `SearchFromAppends` and `ApplyAttrWritesRequestId` |
| Trace.ExtractTrace | tools/Slack-qs-patch/cortex_response_parser_modified.py:400-475 | `_extract_from_trace`; its property is `TraceProperties.ExtractTraceKeepsRequestId`, and `Trace.ExtractFromTrace` is proved against it |
| Trace.TraceLine | tools/Slack-qs-patch/cortex_response_parser_modified.py:384-396 | one line of `_parse_trace_response`; characterised by `TraceProperties.TraceLineCatches` and `NonDictTraceEscapes` |
| Trace.TraceRun | tools/Slack-qs-patch/cortex_response_parser_modified.py:380-398 | the line loop of `_parse_trace_response`; its property is `TraceProperties.TraceRunKeepsRequestId`, and `Trace.ParseTraceResponse` is proved against it |
| Trace.ApplyAttribute | tools/Slack-qs-patch/cortex_response_parser_modified.py:404-475 | one attribute updates the response as the attribute function says |
| Trace.ExtractFromTrace | tools/Slack-qs-patch/cortex_response_parser_modified.py:400-475 | `_extract_from_trace` updates the response as the extraction function says, keeping what it did before an exception |
| Trace.ExtractElems | tools/Slack-qs-patch/cortex_response_parser_modified.py:392-394 | the loop over one line's trace array decodes and extracts each element in turn |
| Trace.ParseTraceResponse | tools/Slack-qs-patch/cortex_response_parser_modified.py:380-398 | `_parse_trace_response` raises exactly when the line loop lets an exception out; otherwise a fresh response holds the run's messages and request id |
| TraceProperties.TruncatedText | tools/Slack-qs-patch/cortex_response_parser_modified.py:448 | a search text of at most 1000 characters is kept; a longer one becomes its first 1000 characters followed by `...` |
| TraceProperties.SearchRecordCitation | tools/Slack-qs-patch/cortex_response_parser_modified.py:447-451 | a search record cites `Support Cases`, its text and `search_result_{i+1}` |
| TraceProperties.AnyTextEqualsIff | tools/Slack-qs-patch/cortex_response_parser_modified.py:410 | `any(...)` is false exactly when every text can be read and none equals the answer, and true only when one does |
| TraceProperties.TextMessageText | tools/Slack-qs-patch/cortex_response_parser_modified.py:411-414 | a message made of one text item has that text |
| TraceProperties.AnyTextEqualsAppend | tools/Slack-qs-patch/cortex_response_parser_modified.py:410 | with no match so far, a new message is a match exactly when it has the text |
| TraceProperties.ResponseAttrDedup | tools/Slack-qs-patch/cortex_response_parser_modified.py:408-414 | a non-blank answer that no message has yet is appended as one new assistant message holding one text item with its stripped text; otherwise nothing changes |
| TraceProperties.ResponseAttrIdempotent | tools/Slack-qs-patch/cortex_response_parser_modified.py:408-414 | the same answer twice changes the response once |
| TraceProperties.ToolResultsInAppend | tools/Slack-qs-patch/cortex_response_parser_modified.py:133-149 | the tool results of joined item lists are the joined tool results, the first exception winning |
| TraceProperties.SqlsOfAppend | tools/Slack-qs-patch/cortex_response_parser_modified.py:178-182 | the queries of joined tool-result lists are the joined queries |
| TraceProperties.SqlQueriesAppend | tools/Slack-qs-patch/cortex_response_parser_modified.py:174-183 | the queries of joined message lists are the joined queries |
| TraceProperties.ToolResultsItemResult | tools/Slack-qs-patch/cortex_response_parser_modified.py:137-142 | a `tool_results` item holding a dict reads back as one tool result |
| TraceProperties.AnalystResultSql | tools/Slack-qs-patch/cortex_response_parser_modified.py:422-428 | the `cortex_analyst` item built for a query reads back as exactly that query |
| TraceProperties.AppendItemSqlQueries | tools/Slack-qs-patch/cortex_response_parser_modified.py:421-439 | appending an item adds its queries after the ones already there |
| TraceProperties.LastMessageSqls | tools/Slack-qs-patch/cortex_response_parser_modified.py:421-428 | appending to the last message adds the item's queries at the end |
| TraceProperties.NewMessageSqls | tools/Slack-qs-patch/cortex_response_parser_modified.py:429-439 | a new message holding the item has the item's queries |
| TraceProperties.AppendedMessageSqls | tools/Slack-qs-patch/cortex_response_parser_modified.py:421-428 | a message with one more item has that item's queries at the end |
| TraceProperties.SqlAttrRecordsQuery | tools/Slack-qs-patch/cortex_response_parser_modified.py:416-440 | a non-blank query is afterwards among the response's queries; when it was not there yet, its `cortex_analyst` item goes to the last message (or to one new message) and nothing else changes |
| TraceProperties.SqlAttrIdempotent | tools/Slack-qs-patch/cortex_response_parser_modified.py:416-440 | the same query twice changes the response once |
| TraceProperties.AppendAllStep | tools/Slack-qs-patch/cortex_response_parser_modified.py:453-471 | appending one item, then the rest, is appending them all |
| TraceProperties.SearchFromAppends | tools/Slack-qs-patch/cortex_response_parser_modified.py:441-471 | the search loop appends one `cortex_search` item per non-empty text, in order, numbered by position in the whole array, all to the last message (or to one new message) |
| TraceProperties.SearchFromKeepsRequestId | tools/Slack-qs-patch/cortex_response_parser_modified.py:441-471 | the search loop never touches the request id |
| TraceProperties.ApplyAttrWritesRequestId | tools/Slack-qs-patch/cortex_response_parser_modified.py:473-475 | only a request-id attribute changes the request id, and only while it is falsy |
| TraceProperties.ApplyAttrsKeepsRequestId | tools/Slack-qs-patch/cortex_response_parser_modified.py:404-475 | once the request id is truthy, no attribute changes it |
| TraceProperties.ExtractTraceKeepsRequestId | tools/Slack-qs-patch/cortex_response_parser_modified.py:400-475 | the same for one trace object |
| TraceProperties.TraceElemsKeepsRequestId | tools/Slack-qs-patch/cortex_response_parser_modified.py:392-394 | the same for one trace array |
| TraceProperties.TraceLineKeepsRequestId | tools/Slack-qs-patch/cortex_response_parser_modified.py:384-396 | the same for one line |
| TraceProperties.TraceRunKeepsRequestId | tools/Slack-qs-patch/cortex_response_parser_modified.py:380-398 | the first truthy request id a trace run sees is the one it keeps |
| TraceProperties.TraceLineCatches | tools/Slack-qs-patch/cortex_response_parser_modified.py:384-396 | `TypeError` and `JSONDecodeError` never leave a line, and a line that is not data, holds no array or does not decode changes nothing |
| TraceProperties.NonDictTraceEscapes | tools/Slack-qs-patch/cortex_response_parser_modified.py:393-402 | a trace element that decodes to a non-dict raises AttributeError, which the line does not catch |
| Documents.Suggestions | tools/Slack-qs-patch/cortex_response_parser_modified.py:345-347 | one suggestion per value, in order |
| Documents.ReadDocument | tools/Slack-qs-patch/cortex_response_parser_modified.py:328-349 | what `parse_json_response` reads from a document; characterised by `Documents.DocumentMessages` and `DocumentSuggestions` |
| Documents.SplitFrom | tools/Slack-qs-patch/cortex_response_parser_modified.py:359-372 | the splitting loop of `parse_file_response`; characterised by `Documents.SplitFromWellSplit`, `SplitFromKeepsLines` and `FileGroupsKeepLines` |
| Documents.ParseJsonResponse | tools/Slack-qs-patch/cortex_response_parser_modified.py:328-349 | `parse_json_response` raises exactly when decoding or reading the document does; otherwise a fresh response holds the document's request id, message and suggestions |
| Documents.DocumentMessages | tools/Slack-qs-patch/cortex_response_parser_modified.py:338-343 | a document yields at most one message, present exactly when it has `message`, with role `assistant` and content `[]` unless given |
| Documents.DocumentSuggestions | tools/Slack-qs-patch/cortex_response_parser_modified.py:345-347 | the suggestions keep the order of the `suggestions` list, one per entry |
| Documents.CloseGroup | tools/Slack-qs-patch/cortex_response_parser_modified.py:363-369 | a marker sends the open group through the event-stream parser: either its exception is the first one or its response joins the list |
| Documents.ParseClosedGroups | tools/Slack-qs-patch/cortex_response_parser_modified.py:359-372 | the splitting loop raises the first exception of the closed groups, in order, or returns one event-stream response per closed group |
| Documents.ParseFileResponse | tools/Slack-qs-patch/cortex_response_parser_modified.py:351-378 | one event-stream response per group closed by a marker, then one trace response for a non-empty final group; the first exception wins |
| Documents.FirstSseErrorAppend | tools/Slack-qs-patch/cortex_response_parser_modified.py:363-367 | with no exception so far, one more group raises exactly what its parse raises |
| Documents.SplitKeepsClosed | tools/Slack-qs-patch/cortex_response_parser_modified.py:360-372 | groups once closed stay closed, so their first exception stays the first whatever follows |
| Documents.FirstSseErrorPrefix | tools/Slack-qs-patch/cortex_response_parser_modified.py:363-367 | the first exception of a prefix of the groups is the first exception of all of them |
| Documents.SplitLineWellSplit | tools/Slack-qs-patch/cortex_response_parser_modified.py:361-372 | one raw line keeps the groups non-empty and made of stripped, non-blank, non-marker lines |
| Documents.CloseWellSplit | tools/Slack-qs-patch/cortex_response_parser_modified.py:363-368 | a marker keeps that invariant |
| Documents.JoinWellSplit | tools/Slack-qs-patch/cortex_response_parser_modified.py:371-372 | a kept line keeps that invariant |
| Documents.SplitFromWellSplit | tools/Slack-qs-patch/cortex_response_parser_modified.py:360-372 | the whole loop keeps that invariant |
| Documents.FileGroupsWellSplit | tools/Slack-qs-patch/cortex_response_parser_modified.py:359-376 | every group handed to a parser is non-empty and holds stripped, non-blank lines that are not markers |
| Documents.FlattenSnoc | tools/Slack-qs-patch/cortex_response_parser_modified.py:364-367 | the lines of the groups plus one more group |
| Documents.SplitLineKeepsLines | tools/Slack-qs-patch/cortex_response_parser_modified.py:361-372 | one raw line adds to the groups exactly the line it keeps |
| Documents.SplitFromKeepsLines | tools/Slack-qs-patch/cortex_response_parser_modified.py:360-372 | the groups read in order are the kept lines, in order |
| Documents.FileGroupsKeepLines | tools/Slack-qs-patch/cortex_response_parser_modified.py:359-376 | splitting neither drops nor reorders a line: the groups are exactly the stripped, non-blank, non-marker lines after the first marker |
| Summaries.SuggestionTexts | tools/Slack-qs-patch/cortex_response_parser_modified.py:553 | the summary's suggestions are the suggestions' texts, in order |
| Summaries.ExtractSummary | tools/Slack-qs-patch/cortex_response_parser_modified.py:529-560 | `extract_summary`; characterised by `Summaries.SummaryVerifiedIff`, `SummaryInfoKeys`, `SummaryPlanning` and `SuggestionTexts` |
| Summaries.SomeVerifiedCons | tools/Slack-qs-patch/cortex_response_parser_modified.py:542-547 | a verified query among some tool results is one in the first or in the rest |
| Summaries.VerifyFoldFlag | tools/Slack-qs-patch/cortex_response_parser_modified.py:542-547 | a message's tool-result loop sets the flag exactly when one of its tool results used a verified query |
| Summaries.AnyVerifiedCons | tools/Slack-qs-patch/cortex_response_parser_modified.py:535-547 | a verified query among some messages is one in the first or in the rest |
| Summaries.ScanVerified | tools/Slack-qs-patch/cortex_response_parser_modified.py:535-547 | the message loop sets the flag exactly when some message has a tool result that used a verified query |
| Summaries.SummaryVerifiedIff | tools/Slack-qs-patch/cortex_response_parser_modified.py:529-560 | `verified_query_used` holds exactly when some tool result has a truthy `verified_query_used`, `query_verified`, `validated` or `verification` |
| Summaries.QueryValidationNeverTriggers | tools/Slack-qs-patch/cortex_response_parser_modified.py:66-79 | a `query_validation` entry never changes whether a tool result is a verified query |
| Summaries.QueryValidationAloneIsNotVerified | tools/Slack-qs-patch/cortex_response_parser_modified.py:66-79 | a tool result carrying only a truthy `query_validation` keeps it in its verification dict and is not verified |
| Summaries.MergeKeysKeys | tools/Slack-qs-patch/cortex_response_parser_modified.py:58-67 | merging adds no key but the listed ones |
| Summaries.VerificationInKeys | tools/Slack-qs-patch/cortex_response_parser_modified.py:55-67 | a tool result's verification dict holds only the five keys |
| Summaries.VerifyFoldKeys | tools/Slack-qs-patch/cortex_response_parser_modified.py:542-545 | the merged dict holds only the five keys besides the ones it started with |
| Summaries.VerifyFoldOverwrites | tools/Slack-qs-patch/cortex_response_parser_modified.py:542-545 | merging into a dict is merging from empty and laying the result over it, so a later tool result's value wins |
| Summaries.VerifyFoldOkFree | tools/Slack-qs-patch/cortex_response_parser_modified.py:542-547 | whether the tool-result loop raises depends neither on the dict nor on the flag carried along |
| Summaries.ScanInfoKeys | tools/Slack-qs-patch/cortex_response_parser_modified.py:535-547 | the message loop adds no key but the five |
| Summaries.SummaryInfoKeys | tools/Slack-qs-patch/cortex_response_parser_modified.py:529-560 | the summary's `verification_info` holds only the five copied keys |
| Summaries.ScanPlanning | tools/Slack-qs-patch/cortex_response_parser_modified.py:535-540 | the message loop's planning updates are the thinking texts of the messages, in order |
| Summaries.AllCleanAppend | tools/Slack-qs-patch/cortex_response_parser_modified.py:540 | joined lists of clean texts are clean |
| Summaries.ItemPlanningClean | tools/Slack-qs-patch/cortex_response_parser_modified.py:537-540 | an item's planning update is non-blank and already stripped |
| Summaries.PlanningInClean | tools/Slack-qs-patch/cortex_response_parser_modified.py:536-540 | a message's planning updates are non-blank and stripped |
| Summaries.PlanningOfClean | tools/Slack-qs-patch/cortex_response_parser_modified.py:535-540 | all planning updates are non-blank and stripped |
| Summaries.SummaryPlanning | tools/Slack-qs-patch/cortex_response_parser_modified.py:529-560 | `planning_updates` are the non-blank stripped `thinking` texts, in message and item order |
| Summaries.PlanningOfAppend | tools/Slack-qs-patch/cortex_response_parser_modified.py:535-540 | the planning updates of joined message lists are the joined updates |
| Summaries.TaggedItemNoPlanning | tools/Slack-qs-patch/cortex_response_parser_modified.py:537 | an item not typed `thinking` adds no update |
| Summaries.PlanningInAppend | tools/Slack-qs-patch/cortex_response_parser_modified.py:536-540 | the planning updates of joined item lists are the joined updates |
| Summaries.TaggedItemsNoPlanning | tools/Slack-qs-patch/cortex_response_parser_modified.py:537 | tool items add no update |
| Summaries.AggregateNoPlanning | tools/Slack-qs-patch/cortex_response_parser_modified.py:300-324 | the aggregate message of a stream adds no update |
| Summaries.ThinkingMessagePlanning | tools/Slack-qs-patch/cortex_response_parser_modified.py:295-298 | a thinking message of the flush adds its text, unchanged |
| Summaries.ThinkingMessagesPlanning | tools/Slack-qs-patch/cortex_response_parser_modified.py:293-298 | the thinking messages add their texts, in order |
| Summaries.StreamPlanning | tools/Slack-qs-patch/cortex_response_parser_modified.py:293-324 | the planning updates of a parsed stream are exactly the thinking spans it extracted, in order |

## Left out

- File and console I/O: `open`/`readlines` in `parse_file_response` (the model splits a given line sequence), `debug_print`, `main` and the printing around them.
- The internals of `json.loads` (a caller-supplied `decode`) and of the `re` engine (the thinking-marker search is written out).
- Floating-point JSON numbers are not modelled; JSON values are null, booleans, integers, strings, lists and dicts.
- A dict with a repeated key is read by its first binding, as if the decoder kept one member per key.
- `repr` escaping: `str` of a non-string value quotes nested strings with single quotes and does not escape quotes or control characters in them.
- `verification_info` is a `map`: the insertion order of Python's dict is not kept.
- `CortexResponse` is a class, but `ParsedMessage` is a value: `messages[-1].content.append` is modelled by replacing the last message, so aliasing of a message between responses is not captured.
- `parse_sse_response`'s loop variables (`current_event`, the three `accumulated_content` buffers, `accumulated_thinking` and `response.status_messages`) are one state value, and the status messages are stored on the response once the loop ends. Nothing reads the response during the loop.
- Trace.ApplyAttribute: tests the search key before the other keys. The four attribute keys are distinct, so the order of the tests changes nothing.
- `extract_summary` is modelled over the response's messages and suggestions (`Summaries.SummaryOf` reads them from the class); its dict is a `Summary` record.
- The other files of the repository (the Slack patch, the chart renderer, the MCP bridge, the agent-config diff and the API examples) are not part of this model.
