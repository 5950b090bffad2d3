/** What the trace path promises: the cut of long search texts, the shape of
    the search records as citations read them, de-duplication of answers and
    SQL queries, and a request id that is written once. */
module TraceProperties {
  import opened PyJson
  import opened Model
  import opened Sse
  import opened SseProperties
  import opened Trace

  // ---------------------------------------------------------------------
  // Search records

  /** A search text is kept whole up to 1000 characters; a longer one is cut
      to its first 1000 characters followed by `...`, so at most 1003. */
  lemma TruncatedText(s: string)
    ensures Truncated(JStr(s)).Ok? && Truncated(JStr(s)).value.JStr?
    ensures var r := Truncated(JStr(s)).value.s;
      |r| <= 1003
      && (|s| <= 1000 ==> r == s)
      && (|s| > 1000 ==> |r| == 1003 && r[..1000] == s[..1000] && r[1000..] == "...")
  {
  }

  lemma LookupTriple(a: (string, Json), b: (string, Json), c: (string, Json), key: string)
    ensures Lookup([a, b, c], key)
      == if a.0 == key then Some(a.1) else if b.0 == key then Some(b.1) else if c.0 == key then Some(c.1) else None
  {
    assert [a, b, c][1..] == [b, c];
    LookupPair(b, c, key);
  }

  lemma LookupPair(a: (string, Json), b: (string, Json), key: string)
    ensures Lookup([a, b], key) == if a.0 == key then Some(a.1) else if b.0 == key then Some(b.1) else None
  {
    assert [a, b][1..] == [b];
    LookupSingle(b.0, b.1, key);
  }

  /** The citation a search record yields: the fixed title, the text, and
      the record's id. */
  lemma SearchRecordCitation(t: string, i: nat)
    ensures Citation(SearchRecord(JStr(t), i))
      == Ok(["Support Cases: " + t + " [Source: search_result_" + NatToString(i + 1) + "]"])
  {
    var r := SearchRecord(JStr(t), i);
    var f := r.fields;
    LookupTriple(f[0], f[1], f[2], "doc_title");
    LookupTriple(f[0], f[1], f[2], "text");
    LookupTriple(f[0], f[1], f[2], "doc_id");
    assert "doc_title"[0] != "text"[0] && "doc_id"[0] != "text"[0];
    assert "doc_id"[4] != "doc_title"[4];
    var id := "search_result_" + NatToString(i + 1);
    assert At(r, "doc_title") == Ok(JStr("Support Cases"));
    assert At(r, "text") == Ok(JStr(t));
    assert At(r, "doc_id") == Ok(JStr(id));
    assert "Support Cases" + ": " + t + " [Source: " + id + "]"
      == "Support Cases: " + t + " [Source: search_result_" + NatToString(i + 1) + "]";
  }

  // ---------------------------------------------------------------------
  // The agent's answer

  /** `any(...)` answers false exactly when every message's text can be read
      and none equals `text`, and true only when one does. */
  lemma {:induction false} AnyTextEqualsIff(ms: seq<ParsedMessage>, text: string)
    ensures AnyTextEquals(ms, text) == Ok(false)
      <==> forall i :: 0 <= i < |ms| ==> TextContent(ms[i]).Ok? && TextContent(ms[i]).value != text
    ensures AnyTextEquals(ms, text) == Ok(true) ==> exists i :: 0 <= i < |ms| && TextContent(ms[i]) == Ok(text)
    decreases |ms|
  {
    if |ms| > 0 {
      AnyTextEqualsIff(ms[1..], text);
      assert forall i :: 1 <= i < |ms| ==> ms[i] == ms[1..][i - 1];
      if AnyTextEquals(ms, text) == Ok(true) && TextContent(ms[0]) != Ok(text) {
        var i :| 0 <= i < |ms[1..]| && TextContent(ms[1..][i]) == Ok(text);
        assert TextContent(ms[i + 1]) == Ok(text);
      }
    }
  }

  /** A message made of one text item has that text. */
  lemma TextMessageText(t: string)
    ensures TextContent(ParsedMessage(Assistant, JArr([TextItem(t)]))) == Ok(t)
  {
    var f := TextItem(t).fields;
    LookupPair(f[0], f[1], "type");
    LookupPair(f[0], f[1], "text");
    SingleTextParts(TextItem(t), "text");
    assert TextParts([TextItem(t)]) == Ok([JStr(t)]);
    assert [JStr(t)][1..] == [];
    assert JoinStrings([JStr(t)]) == Ok(t + "");
    assert t + "" == t;
  }

  lemma {:induction false} AnyTextEqualsAppend(ms: seq<ParsedMessage>, m: ParsedMessage, text: string)
    requires AnyTextEquals(ms, text) == Ok(false)
    ensures AnyTextEquals(ms + [m], text) == AnyTextEquals([m], text)
    decreases |ms|
  {
    if |ms| == 0 {
      assert ms + [m] == [m];
    } else {
      assert (ms + [m])[0] == ms[0] && (ms + [m])[1..] == ms[1..] + [m];
      AnyTextEqualsAppend(ms[1..], m, text);
    }
  }

  /** An answer is added as a new message holding exactly its stripped text,
      and only when it is non-blank and no message already has that text;
      otherwise nothing changes. */
  lemma ResponseAttrDedup(st: TraceState, value: Json)
    requires ResponseAttr(st, value).exc.None?
    ensures var o := ResponseAttr(st, value).st;
      o.requestId == st.requestId
      && (o.messages == st.messages
          || (StringValue(value).Ok? && StringValue(value).value != ""
              && o.messages == st.messages + [ParsedMessage(Assistant, JArr([TextItem(StringValue(value).value)]))]
              && TextContent(o.messages[|st.messages|]) == Ok(StringValue(value).value)
              && forall i :: 0 <= i < |st.messages| ==>
                   TextContent(st.messages[i]).Ok? && TextContent(st.messages[i]).value != StringValue(value).value))
    ensures (StringValue(value).Ok? && StringValue(value).value != ""
             && AnyTextEquals(st.messages, StringValue(value).value) == Ok(false)) ==>
        ResponseAttr(st, value).st
          == st.(messages := st.messages + [ParsedMessage(Assistant, JArr([TextItem(StringValue(value).value)]))])
  {
    var text := StringValue(value).value;
    AnyTextEqualsIff(st.messages, text);
    TextMessageText(text);
  }

  /** Feeding the same answer twice changes the response only once. */
  lemma ResponseAttrIdempotent(st: TraceState, value: Json)
    requires ResponseAttr(st, value).exc.None?
    ensures var o := ResponseAttr(st, value).st;
      ResponseAttr(o, value) == Outcome(o, None)
  {
    var o := ResponseAttr(st, value).st;
    if o != st {
      var text := StringValue(value).value;
      var m := ParsedMessage(Assistant, JArr([TextItem(text)]));
      AnyTextEqualsAppend(st.messages, m, text);
      TextMessageText(text);
      assert [m][0] == m;
    }
  }
  // ---------------------------------------------------------------------
  // SQL queries

  /** Two results joined as `a + b` would be: the first exception wins. */
  function Cat<T>(a: Py<seq<T>>, b: Py<seq<T>>): Py<seq<T>> {
    if a.Raise? then Raise(a.exc) else if b.Raise? then Raise(b.exc) else Ok(a.value + b.value)
  }

  lemma {:induction false} ToolResultsInAppend(a: seq<Json>, b: seq<Json>)
    ensures ToolResultsIn(a + b) == Cat(ToolResultsIn(a), ToolResultsIn(b))
    ensures ToolResultsIn(a + b).Ok? <==> ToolResultsIn(a).Ok? && ToolResultsIn(b).Ok?
    ensures ToolResultsIn(a + b).Ok? ==>
      ToolResultsIn(a + b).value == ToolResultsIn(a).value + ToolResultsIn(b).value
    decreases |a|
  {
    if |a| == 0 {
      assert a + b == b;
      assert ToolResultsIn(a) == Ok([]);
      if ToolResultsIn(b).Ok? {
        assert [] + ToolResultsIn(b).value == ToolResultsIn(b).value;
      }
    } else {
      assert (a + b)[0] == a[0] && (a + b)[1..] == a[1..] + b;
      ToolResultsInAppend(a[1..], b);
      var here := ItemToolResults(a[0]);
      if here.Ok? && ToolResultsIn(a[1..]).Ok? && ToolResultsIn(b).Ok? {
        var h, t, u := here.value, ToolResultsIn(a[1..]).value, ToolResultsIn(b).value;
        assert h + (t + u) == (h + t) + u;
      }
    }
  }

  lemma {:induction false} SqlsOfAppend(a: seq<ToolResult>, b: seq<ToolResult>)
    ensures SqlsOf(a + b).Ok? <==> SqlsOf(a).Ok? && SqlsOf(b).Ok?
    ensures SqlsOf(a + b).Ok? ==> SqlsOf(a + b).value == SqlsOf(a).value + SqlsOf(b).value
    decreases |a|
  {
    if |a| == 0 {
      assert a + b == b;
    } else {
      assert (a + b)[0] == a[0] && (a + b)[1..] == a[1..] + b;
      SqlsOfAppend(a[1..], b);
      if SqlsOf(a + b).Ok? {
        var q := SqlQuery(a[0]).value;
        var here := if Truthy(q) then [q] else [];
        assert SqlsOf(a + b).value == here + (SqlsOf(a[1..]).value + SqlsOf(b).value);
        assert SqlsOf(a).value == here + SqlsOf(a[1..]).value;
      }
    }
  }

  lemma {:induction false} SqlQueriesAppend(a: seq<ParsedMessage>, b: seq<ParsedMessage>)
    ensures SqlQueries(a + b).Ok? <==> SqlQueries(a).Ok? && SqlQueries(b).Ok?
    ensures SqlQueries(a + b).Ok? ==> SqlQueries(a + b).value == SqlQueries(a).value + SqlQueries(b).value
    decreases |a|
  {
    if |a| == 0 {
      assert a + b == b;
    } else {
      assert (a + b)[0] == a[0] && (a + b)[1..] == a[1..] + b;
      SqlQueriesAppend(a[1..], b);
      if SqlQueries(a + b).Ok? {
        var here := SqlsOf(ToolResults(a[0]).value).value;
        assert SqlQueries(a + b).value == here + (SqlQueries(a[1..]).value + SqlQueries(b).value);
        assert SqlQueries(a).value == here + SqlQueries(a[1..]).value;
      }
    }
  }

  /** The SQL queries of one message. */
  lemma SqlQueriesSingle(m: ParsedMessage)
    ensures SqlQueries([m]).Ok? <==> ToolResults(m).Ok? && SqlsOf(ToolResults(m).value).Ok?
    ensures SqlQueries([m]).Ok? ==> SqlQueries([m]).value == SqlsOf(ToolResults(m).value).value
  {
    assert [m][0] == m && [m][1..] == [];
    if SqlQueries([m]).Ok? {
      var q := SqlsOf(ToolResults(m).value).value;
      assert q + [] == q;
    }
  }

  /** A `tool_results` item holding dict `r` reads back as one tool result. */
  lemma ToolResultsItemResult(r: Json)
    requires r.JObj?
    ensures ToolResultsIn([ToolResultsItem(r)])
      == Ok([ToolResult(Get(r, "tool_use_id", JStr("")).value, Get(r, "content", JArr([])).value)])
  {
    var item := ToolResultsItem(r);
    LookupPair(item.fields[0], item.fields[1], "type");
    LookupPair(item.fields[0], item.fields[1], "tool_results");
    assert [item][0] == item && [item][1..] == [];
    var tr := ToolResult(Get(r, "tool_use_id", JStr("")).value, Get(r, "content", JArr([])).value);
    assert ToolResultOf(item, "tool_results") == Ok([tr]);
    assert [tr] + [] == [tr];
  }

  /** The tool result an analyst item holds has the item's SQL. */
  lemma AnalystResultSql(sql: string)
    requires sql != ""
    ensures ToolResultsIn([ToolResultsItem(AnalystResult(sql))]).Ok?
    ensures SqlsOf(ToolResultsIn([ToolResultsItem(AnalystResult(sql))]).value) == Ok([JStr(sql)])
  {
    var r := AnalystResult(sql);
    LookupPair(r.fields[0], r.fields[1], "tool_use_id");
    LookupPair(r.fields[0], r.fields[1], "content");
    ToolResultsItemResult(r);
    var content := r.fields[1].1;
    var item := content.items[0];
    LookupSingle("json", item.fields[0].1, "json");
    var j := item.fields[0].1;
    LookupSingle("sql", JStr(sql), "sql");
    var tr := ToolResult(JStr("cortex_analyst"), content);
    assert ToolResultsIn([ToolResultsItem(r)]) == Ok([tr]);
    assert SqlIn(content.items) == Ok(JStr(sql));
    assert SqlQuery(tr) == Ok(JStr(sql));
    assert [tr][1..] == [];
    assert SqlsOf([tr]) == Ok([JStr(sql)] + []);
    assert [JStr(sql)] + [] == [JStr(sql)];
  }

  /** Appending an item to the response adds that item's SQL queries after
      the ones already there. */
  lemma AppendItemSqlQueries(ms: seq<ParsedMessage>, item: Json, trs: seq<ToolResult>, q: seq<Json>)
    requires ToolResultsIn([item]) == Ok(trs) && SqlsOf(trs) == Ok(q)
    requires SqlQueries(ms).Ok? && AppendItem(ms, item).Ok?
    ensures SqlQueries(AppendItem(ms, item).value) == Ok(SqlQueries(ms).value + q)
  {
    if |ms| == 0 {
      NewMessageSqls(item, trs, q);
      assert SqlQueries(ms) == Ok([]);
      assert [] + q == q;
    } else {
      var init, last := ms[..|ms| - 1], ms[|ms| - 1];
      assert ms == init + [last];
      LastMessageSqls(init, last, item, trs, q);
    }
  }

  lemma LastMessageSqls(init: seq<ParsedMessage>, last: ParsedMessage, item: Json, trs: seq<ToolResult>, q: seq<Json>)
    requires ToolResultsIn([item]) == Ok(trs) && SqlsOf(trs) == Ok(q)
    requires SqlQueries(init + [last]).Ok? && last.content.JArr?
    ensures SqlQueries(init + [last.(content := JArr(last.content.items + [item]))])
      == Ok(SqlQueries(init + [last]).value + q)
  {
    var last' := last.(content := JArr(last.content.items + [item]));
    SqlQueriesAppend(init, [last]);
    SqlQueriesAppend(init, [last']);
    AppendedMessageSqls(last, item, trs, q);
    var a, b := SqlQueries(init).value, SqlQueries([last]).value;
    assert a + (b + q) == (a + b) + q;
  }

  lemma NewMessageSqls(item: Json, trs: seq<ToolResult>, q: seq<Json>)
    requires ToolResultsIn([item]) == Ok(trs) && SqlsOf(trs) == Ok(q)
    ensures SqlQueries([ParsedMessage(Assistant, JArr([item]))]) == Ok(q)
  {
    SqlQueriesSingle(ParsedMessage(Assistant, JArr([item])));
  }

  lemma AppendedMessageSqls(m: ParsedMessage, item: Json, trs: seq<ToolResult>, q: seq<Json>)
    requires ToolResultsIn([item]) == Ok(trs) && SqlsOf(trs) == Ok(q)
    requires m.content.JArr? && SqlQueries([m]).Ok?
    ensures SqlQueries([m.(content := JArr(m.content.items + [item]))]) == Ok(SqlQueries([m]).value + q)
  {
    var m' := m.(content := JArr(m.content.items + [item]));
    SqlQueriesSingle(m);
    SqlQueriesSingle(m');
    ToolResultsInAppend(m.content.items, [item]);
    var before := ToolResults(m).value;
    assert ToolResults(m') == Ok(before + trs);
    SqlsOfAppend(before, trs);
  }

  /** A non-blank SQL query is afterwards among the response's SQL queries;
      it is appended exactly when it was not there yet. */
  lemma SqlAttrRecordsQuery(st: TraceState, value: Json)
    requires SqlAttr(st, value).exc.None?
    requires StringValue(value).Ok? && StringValue(value).value != ""
    ensures var o := SqlAttr(st, value).st;
      var sql := JStr(StringValue(value).value);
      o.requestId == st.requestId
      && SqlQueries(st.messages).Ok? && SqlQueries(o.messages).Ok?
      && sql in SqlQueries(o.messages).value
      && (sql in SqlQueries(st.messages).value ==> o == st)
      && (sql !in SqlQueries(st.messages).value ==> SqlQueries(o.messages).value == SqlQueries(st.messages).value + [sql])
    ensures var sql := StringValue(value).value;
      JStr(sql) !in SqlQueries(st.messages).value ==>
        (|st.messages| > 0 ==> st.messages[|st.messages| - 1].content.JArr?)
        && SqlAttr(st, value).st == st.(messages := AppendAll(st.messages, [ToolResultsItem(AnalystResult(sql))]))
  {
    var sql := StringValue(value).value;
    if JStr(sql) !in SqlQueries(st.messages).value {
      var item := ToolResultsItem(AnalystResult(sql));
      AnalystResultSql(sql);
      AppendItemSqlQueries(st.messages, item, ToolResultsIn([item]).value, [JStr(sql)]);
      var qs := SqlQueries(st.messages).value + [JStr(sql)];
      assert qs[|qs| - 1] == JStr(sql);
    }
  }

  /** Feeding the same SQL query twice changes the response only once. */
  lemma SqlAttrIdempotent(st: TraceState, value: Json)
    requires SqlAttr(st, value).exc.None?
    ensures var o := SqlAttr(st, value).st;
      SqlAttr(o, value) == Outcome(o, None)
  {
    if StringValue(value).Ok? && StringValue(value).value != "" {
      SqlAttrRecordsQuery(st, value);
    }
  }
  // ---------------------------------------------------------------------
  // The search loop

  /** A search entry the loop walks without error: a dict whose
      `stringValue`, if any, is a string. */
  predicate SearchEntry(r: Json) {
    r.JObj? && Get(r, "stringValue", JStr("")).value.JStr?
  }

  /** Reference definition: one item per entry with a non-empty text, in
      order, numbered by the entry's position in the whole array. */
  function SearchItems(results: seq<Json>, k: nat): seq<Json>
    requires k <= |results|
    requires forall j :: k <= j < |results| ==> SearchEntry(results[j])
    decreases |results| - k
  {
    if k == |results| then []
    else
      assert SearchEntry(results[k]);
      var t := Get(results[k], "stringValue", JStr("")).value.s;
      TruncatedText(t);
      (if t == "" then [] else [ToolResultsItem(SearchResult(SearchRecord(Truncated(JStr(t)).value, k)))])
      + SearchItems(results, k + 1)
  }

  /** Appending several items at once: all go to the last message, or to
      one new message when there is none. */
  function AppendAll(ms: seq<ParsedMessage>, items: seq<Json>): seq<ParsedMessage>
    requires |ms| > 0 ==> ms[|ms| - 1].content.JArr?
  {
    if |items| == 0 then ms
    else if |ms| == 0 then [ParsedMessage(Assistant, JArr(items))]
    else ms[..|ms| - 1] + [ms[|ms| - 1].(content := JArr(ms[|ms| - 1].content.items + items))]
  }

  lemma AppendAllStep(ms: seq<ParsedMessage>, item: Json, items: seq<Json>)
    requires |ms| > 0 ==> ms[|ms| - 1].content.JArr?
    ensures AppendItem(ms, item).Ok?
    ensures var ms' := AppendItem(ms, item).value;
      |ms'| > 0 && ms'[|ms'| - 1].content.JArr? && AppendAll(ms', items) == AppendAll(ms, [item] + items)
  {
    var ms' := AppendItem(ms, item).value;
    if |ms| == 0 {
      assert ms'[..|ms'| - 1] == [];
      if |items| == 0 {
        assert [item] + items == [item];
      } else {
        assert ms'[..|ms'| - 1] + [ParsedMessage(Assistant, JArr([item] + items))]
          == [ParsedMessage(Assistant, JArr([item] + items))];
      }
    } else {
      var last := ms[|ms| - 1];
      var last' := last.(content := JArr(last.content.items + [item]));
      assert ms' == ms[..|ms| - 1] + [last'];
      assert |ms'| == |ms| && ms'[|ms'| - 1] == last';
      assert ms'[..|ms'| - 1] == ms[..|ms| - 1];
      if |items| > 0 {
        assert last.content.items + [item] + items == last.content.items + ([item] + items);
      } else {
        assert [item] + items == [item];
      }
    }
  }

  /** The search loop appends exactly the reference items, all to the last
      message (or to one new message), and raises nothing. */
  lemma {:induction false} SearchFromAppends(st: TraceState, results: seq<Json>, k: nat)
    requires k <= |results|
    requires forall j :: k <= j < |results| ==> SearchEntry(results[j])
    requires |st.messages| > 0 ==> st.messages[|st.messages| - 1].content.JArr?
    ensures SearchFrom(st, results, k)
      == Outcome(st.(messages := AppendAll(st.messages, SearchItems(results, k))), None)
    decreases |results| - k
  {
    if k == |results| {
    } else {
      assert SearchEntry(results[k]);
      var t := Get(results[k], "stringValue", JStr("")).value.s;
      TruncatedText(t);
      var rest := SearchItems(results, k + 1);
      if t == "" {
        assert SearchFrom(st, results, k) == SearchFrom(st, results, k + 1);
        assert SearchItems(results, k) == rest by {
          assert SearchItems(results, k) == [] + rest;
        }
        SearchFromAppends(st, results, k + 1);
      } else {
        var item := ToolResultsItem(SearchResult(SearchRecord(Truncated(JStr(t)).value, k)));
        AppendAllStep(st.messages, item, rest);
        var ms' := AppendItem(st.messages, item).value;
        assert SearchFrom(st, results, k) == SearchFrom(st.(messages := ms'), results, k + 1);
        assert SearchItems(results, k) == [item] + rest;
        SearchFromAppends(st.(messages := ms'), results, k + 1);
      }
    }
  }

  // ---------------------------------------------------------------------
  // The request id

  /** Only a request-id attribute writes the request id, and only while it
      is falsy. */
  lemma {:induction false} SearchFromKeepsRequestId(st: TraceState, results: seq<Json>, k: nat)
    requires k <= |results|
    ensures SearchFrom(st, results, k).st.requestId == st.requestId
    decreases |results| - k
  {
    if k < |results| {
      var text := Get(results[k], "stringValue", JStr(""));
      if text.Ok? {
        if !Truthy(text.value) {
          SearchFromKeepsRequestId(st, results, k + 1);
        } else {
          var kept := Truncated(text.value);
          if kept.Ok? {
            var ms := AppendItem(st.messages, ToolResultsItem(SearchResult(SearchRecord(kept.value, k))));
            if ms.Ok? {
              SearchFromKeepsRequestId(st.(messages := ms.value), results, k + 1);
            }
          }
        }
      }
    }
  }

  lemma ApplyAttrWritesRequestId(st: TraceState, attr: Json)
    ensures ApplyAttr(st, attr).st.requestId != st.requestId ==>
      !Truthy(st.requestId) && Get(attr, "key", JStr("")) == Ok(JStr(RequestIdKey))
  {
    if Get(attr, "key", JStr("")) == Ok(JStr(SearchKey)) {
      var value := Get(attr, "value", JObj([]));
      if value.Ok? && SearchValues(value.value).Ok? {
        SearchFromKeepsRequestId(st, SearchValues(value.value).value, 0);
      }
    }
  }

  /** Once the request id is truthy, no attribute changes it. */
  predicate KeepsRequestId(st: TraceState, o: Outcome) {
    Truthy(st.requestId) ==> o.st.requestId == st.requestId
  }

  lemma {:induction false} ApplyAttrsKeepsRequestId(st: TraceState, attrs: seq<Json>)
    ensures KeepsRequestId(st, ApplyAttrs(st, attrs))
    decreases |attrs|
  {
    if |attrs| > 0 {
      ApplyAttrWritesRequestId(st, attrs[0]);
      var o := ApplyAttr(st, attrs[0]);
      if o.exc.None? {
        ApplyAttrsKeepsRequestId(o.st, attrs[1..]);
      }
    }
  }

  lemma ExtractTraceKeepsRequestId(st: TraceState, data: Json)
    ensures KeepsRequestId(st, ExtractTrace(st, data))
  {
    var attrs := Get(data, "attributes", JArr([]));
    if attrs.Ok? && Iter(attrs.value).Ok? {
      ApplyAttrsKeepsRequestId(st, Iter(attrs.value).value);
    }
  }

  lemma {:induction false} TraceElemsKeepsRequestId(st: TraceState, elems: seq<Json>, decode: Decoder)
    ensures KeepsRequestId(st, TraceElems(st, elems, decode))
    decreases |elems|
  {
    if |elems| > 0 && elems[0].JStr? && decode(elems[0].s).Some? {
      var data := decode(elems[0].s).value;
      ExtractTraceKeepsRequestId(st, data);
      var o := ExtractTrace(st, data);
      if o.exc.None? {
        TraceElemsKeepsRequestId(o.st, elems[1..], decode);
      }
    }
  }

  lemma TraceLineKeepsRequestId(st: TraceState, line: string, decode: Decoder)
    ensures KeepsRequestId(st, TraceLine(st, line, decode))
  {
    if IsDataLine(line) {
      var payload := Payload(line);
      if StartsWith(payload, "[") && decode(payload).Some? && Iter(decode(payload).value).Ok? {
        TraceElemsKeepsRequestId(st, Iter(decode(payload).value).value, decode);
      }
    }
  }

  /** The first truthy request id a trace run sees is the one it keeps. */
  lemma {:induction false} TraceRunKeepsRequestId(st: TraceState, lines: seq<string>, decode: Decoder)
    ensures KeepsRequestId(st, TraceRun(st, lines, decode))
    decreases |lines|
  {
    if |lines| > 0 {
      TraceLineKeepsRequestId(st, lines[0], decode);
      var o := TraceLine(st, lines[0], decode);
      if o.exc.None? {
        TraceRunKeepsRequestId(o.st, lines[1..], decode);
      }
    }
  }
  // ---------------------------------------------------------------------
  // What the line loop catches

  /** `TypeError` and `JSONDecodeError` never leave a line; a line that is
      not data, does not hold an array, or does not decode changes nothing. */
  lemma TraceLineCatches(st: TraceState, line: string, decode: Decoder)
    ensures !Caught(TraceLine(st, line, decode).exc)
    ensures !IsDataLine(line) || !StartsWith(Payload(line), "[") || decode(Payload(line)).None? ==>
      TraceLine(st, line, decode) == Outcome(st, None)
  {
  }

  /** A trace element that decodes to something other than a dict raises an
      `AttributeError` that the line loop does not catch. */
  lemma NonDictTraceEscapes(st: TraceState, line: string, s: string, data: Json, decode: Decoder)
    requires IsDataLine(line) && StartsWith(Payload(line), "[")
    requires decode(Payload(line)) == Some(JArr([JStr(s)]))
    requires decode(s) == Some(data) && !data.JObj?
    ensures TraceLine(st, line, decode) == Outcome(st, Some(AttributeError))
  {
    assert [JStr(s)][0] == JStr(s);
  }
}
