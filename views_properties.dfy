/** What the response's read-only views promise: the last assistant message
    gives the final text, the first item holding a query or a chart decides a
    tool result's query or chart, the truthy SQL queries and charts are kept
    in order, tool uses are read from the items typed `tool_use`, search
    results concatenate, and the citation format. */
module ViewProperties {
  import opened PyJson
  import opened Model
  import opened SseProperties

  /** `final_text` is the text of the last assistant message, or `""` when
      there is none. */
  lemma {:induction false} FinalTextIsLastAssistant(ms: seq<ParsedMessage>)
    ensures (forall k :: 0 <= k < |ms| ==> ms[k].role != Assistant) ==> FinalText(ms) == Ok("")
    ensures forall k :: (0 <= k < |ms| && ms[k].role == Assistant
      && forall j :: k < j < |ms| ==> ms[j].role != Assistant) ==> FinalText(ms) == TextContent(ms[k])
    decreases |ms|
  {
    if |ms| > 0 {
      var n := |ms| - 1;
      var init := ms[..n];
      FinalTextIsLastAssistant(init);
      if ms[n].role != Assistant {
        assert FinalText(ms) == FinalText(init);
        forall k | 0 <= k < |ms| && ms[k].role == Assistant
          && (forall j :: k < j < |ms| ==> ms[j].role != Assistant)
          ensures FinalText(ms) == TextContent(ms[k])
        {
          assert k < n && init[k] == ms[k];
          assert forall j :: k < j < |init| ==> init[j] == ms[j];
        }
        if forall k :: 0 <= k < |ms| ==> ms[k].role != Assistant {
          assert forall k :: 0 <= k < |init| ==> init[k] == ms[k];
        }
      }
    }
  }

  /** The first dict item with a chart decides `chart_spec`; `JNull` when no
      dict item has one. */
  lemma {:induction false} ChartInFirstHit(items: seq<Json>)
    requires ChartIn(items).Ok?
    ensures (ChartIn(items).value == JNull
        && forall i :: 0 <= i < |items| && items[i].JObj? ==> ItemChart(items[i]) == Ok(None))
      || (exists i :: (0 <= i < |items| && items[i].JObj? && ItemChart(items[i]) == Ok(Some(ChartIn(items).value))
        && forall j :: 0 <= j < i && items[j].JObj? ==> ItemChart(items[j]) == Ok(None)))
    decreases |items|
  {
    if |items| > 0 {
      var rest := items[1..];
      if !items[0].JObj? || ItemChart(items[0]).value.None? {
        ChartInFirstHit(rest);
        assert ChartIn(items) == ChartIn(rest);
        if ChartIn(rest).value == JNull && forall i :: 0 <= i < |rest| && rest[i].JObj? ==> ItemChart(rest[i]) == Ok(None) {
          forall i | 0 <= i < |items| && items[i].JObj? ensures ItemChart(items[i]) == Ok(None) {
            if i > 0 { assert items[i] == rest[i - 1]; }
          }
        } else {
          var i :| 0 <= i < |rest| && rest[i].JObj? && ItemChart(rest[i]) == Ok(Some(ChartIn(rest).value))
            && forall j :: 0 <= j < i && rest[j].JObj? ==> ItemChart(rest[j]) == Ok(None);
          assert items[i + 1] == rest[i];
          forall j | 0 <= j < i + 1 && items[j].JObj? ensures ItemChart(items[j]) == Ok(None) {
            if j > 0 { assert items[j] == rest[j - 1]; }
          }
        }
      }
    }
  }

  /** A citation is `"{doc_title}: {text}"`, with `" [Source: {doc_id}]"`
      when the record has an id; a record lacking a title or a text gives
      none. */
  lemma CitationFormat(r: Json)
    requires r.JObj?
    ensures !(HasKey(r, "doc_title") && HasKey(r, "text")) ==> Citation(r) == Ok([])
    ensures HasKey(r, "doc_title") && HasKey(r, "text") ==>
      var base := PyStr(Lookup(r.fields, "doc_title").value) + ": " + PyStr(Lookup(r.fields, "text").value);
      Citation(r) == Ok([if HasKey(r, "doc_id") then base + " [Source: " + PyStr(Lookup(r.fields, "doc_id").value) + "]" else base])
  {
  }

  // ---------------------------------------------------------------------
  // sql_queries and chart_specs

  /** Concatenation regroups freely. */
  lemma ConcatAssoc<T>(x: seq<T>, y: seq<T>, z: seq<T>)
    ensures x + (y + z) == x + y + z
  {
  }

  /** Reference filter: the truthy values of `xs`, in order. */
  function Truthies(xs: seq<Json>): seq<Json> {
    if |xs| == 0 then [] else (if Truthy(xs[0]) then [xs[0]] else []) + Truthies(xs[1..])
  }

  /** The filter keeps every truthy value and nothing else. */
  lemma {:induction false} TruthiesMembers(xs: seq<Json>)
    ensures forall x :: x in Truthies(xs) <==> x in xs && Truthy(x)
    decreases |xs|
  {
    if |xs| > 0 {
      TruthiesMembers(xs[1..]);
      assert forall x :: x in xs <==> x == xs[0] || x in xs[1..];
    }
  }

  /** The `sql_query` of each tool result, in order. */
  function EachSql(trs: seq<ToolResult>): seq<Json>
    requires forall i :: 0 <= i < |trs| ==> SqlQuery(trs[i]).Ok?
  {
    seq(|trs|, i requires 0 <= i < |trs| => SqlQuery(trs[i]).value)
  }

  /** The `chart_spec` of each tool result, in order. */
  function EachChart(trs: seq<ToolResult>): seq<Json>
    requires forall i :: 0 <= i < |trs| ==> ChartSpec(trs[i]).Ok?
  {
    seq(|trs|, i requires 0 <= i < |trs| => ChartSpec(trs[i]).value)
  }

  /** `sql_queries` of some tool results: computed exactly when every
      `sql_query` is, and then the truthy queries, in tool-result order. */
  lemma {:induction false} SqlsOfTruthy(trs: seq<ToolResult>)
    ensures SqlsOf(trs).Ok? <==> forall i :: 0 <= i < |trs| ==> SqlQuery(trs[i]).Ok?
    ensures SqlsOf(trs).Ok? ==> |SqlsOf(trs).value| <= |trs|
    ensures SqlsOf(trs).Ok? ==> forall k :: 0 <= k < |SqlsOf(trs).value| ==>
      Truthy(SqlsOf(trs).value[k]) && exists i :: 0 <= i < |trs| && SqlQuery(trs[i]) == Ok(SqlsOf(trs).value[k])
    ensures SqlsOf(trs).Ok? ==> SqlsOf(trs).value == Truthies(EachSql(trs))
    decreases |trs|
  {
    if |trs| > 0 {
      SqlsOfTruthy(trs[1..]);
      assert (forall i :: 0 <= i < |trs| ==> SqlQuery(trs[i]).Ok?)
        <==> SqlQuery(trs[0]).Ok? && forall i :: 0 <= i < |trs[1..]| ==> SqlQuery(trs[1..][i]).Ok? by {
        if SqlQuery(trs[0]).Ok? && forall i :: 0 <= i < |trs[1..]| ==> SqlQuery(trs[1..][i]).Ok? {
          forall i | 0 <= i < |trs| ensures SqlQuery(trs[i]).Ok? {
            if i > 0 { assert trs[i] == trs[1..][i - 1]; }
          }
        }
      }
      if SqlsOf(trs).Ok? {
        var q := SqlQuery(trs[0]).value;
        var here: seq<Json> := if Truthy(q) then [q] else [];
        var rest := SqlsOf(trs[1..]).value;
        assert SqlsOf(trs).value == here + rest;
        assert SqlsOf(trs).value == Truthies(EachSql(trs)) by {
          var each := EachSql(trs);
          assert each[0] == q && each[1..] == EachSql(trs[1..]);
        }
        forall k | 0 <= k < |here + rest|
          ensures Truthy((here + rest)[k]) && exists i :: 0 <= i < |trs| && SqlQuery(trs[i]) == Ok((here + rest)[k])
        {
          if k < |here| {
            assert SqlQuery(trs[0]) == Ok((here + rest)[k]);
          } else {
            assert (here + rest)[k] == rest[k - |here|];
            var i :| 0 <= i < |trs[1..]| && SqlQuery(trs[1..][i]) == Ok(rest[k - |here|]);
            assert trs[i + 1] == trs[1..][i];
          }
        }
      }
    }
  }

  /** `chart_specs` of some tool results: computed exactly when every
      `chart_spec` is, and then the truthy charts, in tool-result order. */
  lemma {:induction false} ChartsOfTruthy(trs: seq<ToolResult>)
    ensures ChartsOf(trs).Ok? <==> forall i :: 0 <= i < |trs| ==> ChartSpec(trs[i]).Ok?
    ensures ChartsOf(trs).Ok? ==> |ChartsOf(trs).value| <= |trs|
    ensures ChartsOf(trs).Ok? ==> forall k :: 0 <= k < |ChartsOf(trs).value| ==>
      Truthy(ChartsOf(trs).value[k]) && exists i :: 0 <= i < |trs| && ChartSpec(trs[i]) == Ok(ChartsOf(trs).value[k])
    ensures ChartsOf(trs).Ok? ==> ChartsOf(trs).value == Truthies(EachChart(trs))
    decreases |trs|
  {
    if |trs| > 0 {
      ChartsOfTruthy(trs[1..]);
      assert (forall i :: 0 <= i < |trs| ==> ChartSpec(trs[i]).Ok?)
        <==> ChartSpec(trs[0]).Ok? && forall i :: 0 <= i < |trs[1..]| ==> ChartSpec(trs[1..][i]).Ok? by {
        if ChartSpec(trs[0]).Ok? && forall i :: 0 <= i < |trs[1..]| ==> ChartSpec(trs[1..][i]).Ok? {
          forall i | 0 <= i < |trs| ensures ChartSpec(trs[i]).Ok? {
            if i > 0 { assert trs[i] == trs[1..][i - 1]; }
          }
        }
      }
      if ChartsOf(trs).Ok? {
        var c := ChartSpec(trs[0]).value;
        var here: seq<Json> := if Truthy(c) then [c] else [];
        var rest := ChartsOf(trs[1..]).value;
        assert ChartsOf(trs).value == here + rest;
        assert ChartsOf(trs).value == Truthies(EachChart(trs)) by {
          var each := EachChart(trs);
          assert each[0] == c && each[1..] == EachChart(trs[1..]);
        }
        forall k | 0 <= k < |here + rest|
          ensures Truthy((here + rest)[k]) && exists i :: 0 <= i < |trs| && ChartSpec(trs[i]) == Ok((here + rest)[k])
        {
          if k < |here| {
            assert ChartSpec(trs[0]) == Ok((here + rest)[k]);
          } else {
            assert (here + rest)[k] == rest[k - |here|];
            var i :| 0 <= i < |trs[1..]| && ChartSpec(trs[1..][i]) == Ok(rest[k - |here|]);
            assert trs[i + 1] == trs[1..][i];
          }
        }
      }
    }
  }

  /** Every truthy query and every truthy chart of the tool results is kept. */
  lemma EveryTruthyKept(trs: seq<ToolResult>)
    ensures SqlsOf(trs).Ok? ==> forall i :: 0 <= i < |trs| && SqlQuery(trs[i]).Ok? && Truthy(SqlQuery(trs[i]).value) ==>
      SqlQuery(trs[i]).value in SqlsOf(trs).value
    ensures ChartsOf(trs).Ok? ==> forall i :: 0 <= i < |trs| && ChartSpec(trs[i]).Ok? && Truthy(ChartSpec(trs[i]).value) ==>
      ChartSpec(trs[i]).value in ChartsOf(trs).value
  {
    SqlsOfTruthy(trs);
    ChartsOfTruthy(trs);
    if SqlsOf(trs).Ok? {
      TruthiesMembers(EachSql(trs));
      assert forall i :: 0 <= i < |trs| ==> EachSql(trs)[i] == SqlQuery(trs[i]).value;
    }
    if ChartsOf(trs).Ok? {
      TruthiesMembers(EachChart(trs));
      assert forall i :: 0 <= i < |trs| ==> EachChart(trs)[i] == ChartSpec(trs[i]).value;
    }
  }

  lemma {:induction false} ChartsOfAppend(a: seq<ToolResult>, b: seq<ToolResult>)
    ensures ChartsOf(a + b).Ok? <==> ChartsOf(a).Ok? && ChartsOf(b).Ok?
    ensures ChartsOf(a + b).Ok? ==> ChartsOf(a + b).value == ChartsOf(a).value + ChartsOf(b).value
    decreases |a|
  {
    if |a| == 0 {
      assert a + b == b;
    } else {
      assert (a + b)[0] == a[0] && (a + b)[1..] == a[1..] + b;
      ChartsOfAppend(a[1..], b);
      if ChartsOf(a + b).Ok? {
        var c := ChartSpec(a[0]).value;
        ConcatAssoc(if Truthy(c) then [c] else [], ChartsOf(a[1..]).value, ChartsOf(b).value);
      }
    }
  }

  /** The charts of joined message lists are the joined charts: messages
      keep their document order. */
  lemma {:induction false} ChartSpecsAppend(a: seq<ParsedMessage>, b: seq<ParsedMessage>)
    ensures ChartSpecs(a + b).Ok? <==> ChartSpecs(a).Ok? && ChartSpecs(b).Ok?
    ensures ChartSpecs(a + b).Ok? ==> ChartSpecs(a + b).value == ChartSpecs(a).value + ChartSpecs(b).value
    decreases |a|
  {
    if |a| == 0 {
      assert a + b == b;
    } else {
      assert (a + b)[0] == a[0] && (a + b)[1..] == a[1..] + b;
      ChartSpecsAppend(a[1..], b);
      if ChartSpecs(a + b).Ok? {
        var here := ChartsOf(ToolResults(a[0]).value).value;
        ConcatAssoc(here, ChartSpecs(a[1..]).value, ChartSpecs(b).value);
      }
    }
  }

  // ---------------------------------------------------------------------
  // ToolResult.sql_query

  /** An item whose `json` is a dict holding `sql`. */
  predicate HoldsSql(item: Json) {
    HasKey(item, "json") && HasKey(Lookup(item.fields, "json").value, "sql")
  }

  /** The first item whose `json` holds `sql` decides `sql_query`; `JNull`
      when no item holds one. */
  lemma {:induction false} SqlInFirstHit(items: seq<Json>)
    requires SqlIn(items).Ok?
    ensures (SqlIn(items).value == JNull && forall i :: 0 <= i < |items| ==> !HoldsSql(items[i]))
      || (exists i :: (0 <= i < |items| && HoldsSql(items[i])
           && SqlIn(items).value == Lookup(Lookup(items[i].fields, "json").value.fields, "sql").value
           && forall j :: 0 <= j < i ==> !HoldsSql(items[j])))
    decreases |items|
  {
    if |items| > 0 && !HoldsSql(items[0]) {
      var rest := items[1..];
      assert SqlIn(items) == SqlIn(rest);
      SqlInFirstHit(rest);
      if SqlIn(rest).value == JNull && forall i :: 0 <= i < |rest| ==> !HoldsSql(rest[i]) {
        forall i | 0 <= i < |items| ensures !HoldsSql(items[i]) {
          if i > 0 { assert items[i] == rest[i - 1]; }
        }
      } else {
        var i :| 0 <= i < |rest| && HoldsSql(rest[i])
          && SqlIn(rest).value == Lookup(Lookup(rest[i].fields, "json").value.fields, "sql").value
          && forall j :: 0 <= j < i ==> !HoldsSql(rest[j]);
        assert items[i + 1] == rest[i];
        forall j | 0 <= j < i + 1 ensures !HoldsSql(items[j]) {
          if j > 0 { assert items[j] == rest[j - 1]; }
        }
      }
    }
  }

  // ---------------------------------------------------------------------
  // ParsedMessage.tool_uses

  /** `d.get(k, default)` on a dict. */
  function FieldOr(d: Json, k: string, default: Json): Json {
    if HasKey(d, k) then Lookup(d.fields, k).value else default
  }

  /** The tool use a `tool_use` dict describes, with the defaults for the
      members it lacks. */
  function UseOf(d: Json): ToolUse {
    ToolUse(FieldOr(d, "id", JStr("")), FieldOr(d, "name", JStr("")),
            FieldOr(d, "type", JStr("")), FieldOr(d, "arguments", JObj([])))
  }

  function UsesOf(ds: seq<Json>): seq<ToolUse> {
    seq(|ds|, i requires 0 <= i < |ds| => UseOf(ds[i]))
  }

  lemma UsesOfAppend(a: seq<Json>, b: seq<Json>)
    ensures UsesOf(a + b) == UsesOf(a) + UsesOf(b)
  {
  }

  /** Content the `tool_uses` loop reads without raising: dict items whose
      `tool_use` value, when typed `tool_use`, is a dict. */
  predicate UsesReadable(items: seq<Json>) {
    forall k :: 0 <= k < |items| ==>
      items[k].JObj? && (TypedAs(items[k], "tool_use") ==> TagValue(items[k], "tool_use").JObj?)
  }

  lemma UsesReadableCons(items: seq<Json>)
    requires |items| > 0
    ensures UsesReadable(items) <==>
      (items[0].JObj? && (TypedAs(items[0], "tool_use") ==> TagValue(items[0], "tool_use").JObj?))
      && UsesReadable(items[1..])
  {
    var e, rest := items[0], items[1..];
    assert forall k :: 0 <= k < |rest| ==> rest[k] == items[k + 1];
    if e.JObj? && (TypedAs(e, "tool_use") ==> TagValue(e, "tool_use").JObj?) && UsesReadable(rest) {
      forall k | 0 <= k < |items|
        ensures items[k].JObj? && (TypedAs(items[k], "tool_use") ==> TagValue(items[k], "tool_use").JObj?)
      {
        if k > 0 { assert items[k] == rest[k - 1]; }
      }
    }
  }

  lemma {:induction false} ValuesTaggedCons(e: Json, es: seq<Json>, tag: string)
    ensures ValuesTagged([e] + es, tag)
      == (if TypedAs(e, tag) then [TagValue(e, tag)] else []) + ValuesTagged(es, tag)
    decreases |es|
  {
    var h := if TypedAs(e, tag) then [TagValue(e, tag)] else [];
    if |es| == 0 {
      assert [e] + es == [e] && [e][..0] == [];
    } else {
      var init, last := es[..|es| - 1], es[|es| - 1];
      ValuesTaggedCons(e, init, tag);
      assert ([e] + es)[..|es|] == [e] + init;
      assert ([e] + es)[|es|] == last;
      var l := if TypedAs(last, tag) then [TagValue(last, tag)] else [];
      assert h + ValuesTagged(init, tag) + l == h + (ValuesTagged(init, tag) + l);
    }
  }

  /** `tool_uses` raises exactly when some item is not a dict or some
      `tool_use` value is not one, and otherwise holds one tool use per item
      typed `tool_use`, in item order. */
  lemma {:induction false} ToolUsesInIsTagged(items: seq<Json>)
    ensures ToolUsesIn(items).Ok? <==> UsesReadable(items)
    ensures ToolUsesIn(items).Ok? ==> ToolUsesIn(items).value == UsesOf(ValuesTagged(items, "tool_use"))
    decreases |items|
  {
    if |items| > 0 {
      var e, rest := items[0], items[1..];
      assert items == [e] + rest;
      ToolUsesInIsTagged(rest);
      ValuesTaggedCons(e, rest, "tool_use");
      UsesReadableCons(items);
      if e.JObj? {
        var kind := Get(e, "type", JNull).value;
        assert kind == JStr("tool_use") <==> TypedAs(e, "tool_use");
        if TypedAs(e, "tool_use") {
          var d := TagValue(e, "tool_use");
          assert Get(e, "tool_use", JObj([])) == Ok(d);
          if d.JObj? {
            assert ToolUseOf(e) == Ok([UseOf(d)]);
          }
        }
        if ToolUsesIn(items).Ok? {
          var h := if TypedAs(e, "tool_use") then [TagValue(e, "tool_use")] else [];
          UsesOfAppend(h, ValuesTagged(rest, "tool_use"));
        }
      }
    }
  }

  /** `ParsedMessage.tool_uses`, stated on the message. */
  lemma ToolUsesAreTagged(m: ParsedMessage)
    requires m.content.JArr?
    ensures ToolUses(m).Ok? <==> UsesReadable(m.content.items)
    ensures ToolUses(m).Ok? ==> ToolUses(m).value == UsesOf(ValuesTagged(m.content.items, "tool_use"))
  {
    ToolUsesInIsTagged(m.content.items);
  }

  // ---------------------------------------------------------------------
  // search_results

  /** The search results of joined item lists are the joined results. */
  lemma {:induction false} SearchInAppend(a: seq<Json>, b: seq<Json>)
    ensures SearchIn(a + b).Ok? <==> SearchIn(a).Ok? && SearchIn(b).Ok?
    ensures SearchIn(a + b).Ok? ==> SearchIn(a + b).value == SearchIn(a).value + SearchIn(b).value
    decreases |a|
  {
    if |a| == 0 {
      assert a + b == b;
    } else {
      assert (a + b)[0] == a[0] && (a + b)[1..] == a[1..] + b;
      SearchInAppend(a[1..], b);
      if SearchIn(a + b).Ok? {
        ConcatAssoc(ItemSearch(a[0]).value, SearchIn(a[1..]).value, SearchIn(b).value);
      }
    }
  }

  /** The search results of joined tool-result lists are the joined results. */
  lemma {:induction false} SearchesOfAppend(a: seq<ToolResult>, b: seq<ToolResult>)
    ensures SearchesOf(a + b).Ok? <==> SearchesOf(a).Ok? && SearchesOf(b).Ok?
    ensures SearchesOf(a + b).Ok? ==> SearchesOf(a + b).value == SearchesOf(a).value + SearchesOf(b).value
    decreases |a|
  {
    if |a| == 0 {
      assert a + b == b;
    } else {
      assert (a + b)[0] == a[0] && (a + b)[1..] == a[1..] + b;
      SearchesOfAppend(a[1..], b);
      if SearchesOf(a + b).Ok? {
        ConcatAssoc(SearchResults(a[0]).value, SearchesOf(a[1..]).value, SearchesOf(b).value);
      }
    }
  }

  /** `CortexResponse.search_results` of joined message lists are the joined
      results: messages keep their document order. */
  lemma {:induction false} AllSearchResultsAppend(a: seq<ParsedMessage>, b: seq<ParsedMessage>)
    ensures AllSearchResults(a + b).Ok? <==> AllSearchResults(a).Ok? && AllSearchResults(b).Ok?
    ensures AllSearchResults(a + b).Ok? ==>
      AllSearchResults(a + b).value == AllSearchResults(a).value + AllSearchResults(b).value
    decreases |a|
  {
    if |a| == 0 {
      assert a + b == b;
    } else {
      assert (a + b)[0] == a[0] && (a + b)[1..] == a[1..] + b;
      AllSearchResultsAppend(a[1..], b);
      if AllSearchResults(a + b).Ok? {
        var here := SearchesOf(ToolResults(a[0]).value).value;
        ConcatAssoc(here, AllSearchResults(a[1..]).value, AllSearchResults(b).value);
      }
    }
  }
}
