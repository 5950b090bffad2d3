/** The conversation model shared by every parsing path (`ToolUse`,
    `ToolResult`, `ParsedMessage`, `Suggestion`, `CortexResponse`) and the
    read-only views the source exposes as properties.  A message's content is
    the list of dicts the source stores; each view walks it exactly as the
    property does and returns `Raise` where the property would raise. */
module Model {
  import opened PyJson

  datatype ToolUse = ToolUse(id: Json, name: Json, kind: Json, arguments: Json)

  datatype ToolResult = ToolResult(toolUseId: Json, content: Json)

  /** `content` is whatever the producer stored: every parser in this model
      stores a list of dicts, but a single JSON document may carry any value. */
  datatype ParsedMessage = ParsedMessage(role: Json, content: Json)

  datatype Suggestion = Suggestion(text: Json)

  /** One parsed response.  The parsers fill its fields in place. */
  class CortexResponse {
    var messages: seq<ParsedMessage>
    var suggestions: seq<Suggestion>
    var statusMessages: seq<Json>
    /** `JNull` stands for Python's `None`. */
    var requestId: Json

    constructor ()
      ensures messages == [] && suggestions == [] && statusMessages == [] && requestId == JNull
    {
      messages := [];
      suggestions := [];
      statusMessages := [];
      requestId := JNull;
    }
  }

  const Assistant := JStr("assistant")

  // ---------------------------------------------------------------------
  // Content items the parsers build

  function TextItem(t: string): Json {
    JObj([("type", JStr("text")), ("text", JStr(t))])
  }

  function ThinkingItem(t: string): Json {
    JObj([("type", JStr("thinking")), ("text", JStr(t))])
  }

  /** `{'type': tag, tag: x}`, the shape of the tool items. */
  function TaggedItem(tag: string, x: Json): Json {
    JObj([("type", JStr(tag)), (tag, x)])
  }

  function ToolUseItem(u: Json): Json {
    TaggedItem("tool_use", u)
  }

  function ToolResultsItem(r: Json): Json {
    TaggedItem("tool_results", r)
  }

  // ---------------------------------------------------------------------
  // ParsedMessage.text_content

  /** `ParsedMessage.text_content`. */
  function TextContent(m: ParsedMessage): Py<string> {
    var items :- Iter(m.content);
    var parts :- TextParts(items);
    JoinStrings(parts)
  }

  /** The `text` values of the items typed `text`, in order. */
  function TextParts(items: seq<Json>): Py<seq<Json>> {
    if |items| == 0 then Ok([])
    else
      var kind :- Get(items[0], "type", JNull);
      var here :- if kind == JStr("text") then (var t :- Get(items[0], "text", JStr("")); Ok([t])) else Ok([]);
      var rest :- TextParts(items[1..]);
      Ok(here + rest)
  }

  /** `''.join(parts)`: every part must be a string. */
  function JoinStrings(parts: seq<Json>): (r: Py<string>)
    ensures r.Ok? <==> forall i :: 0 <= i < |parts| ==> parts[i].JStr?
  {
    if |parts| == 0 then Ok("")
    else if !parts[0].JStr? then Raise(TypeError)
    else
      var rest :- JoinStrings(parts[1..]);
      Ok(parts[0].s + rest)
  }

  // ---------------------------------------------------------------------
  // ParsedMessage.tool_uses and ParsedMessage.tool_results

  /** `ParsedMessage.tool_uses`. */
  function ToolUses(m: ParsedMessage): Py<seq<ToolUse>> {
    var items :- Iter(m.content);
    ToolUsesIn(items)
  }

  function ToolUsesIn(items: seq<Json>): Py<seq<ToolUse>> {
    if |items| == 0 then Ok([])
    else
      var kind :- Get(items[0], "type", JNull);
      var here :- if kind == JStr("tool_use") then ToolUseOf(items[0]) else Ok([]);
      var rest :- ToolUsesIn(items[1..]);
      Ok(here + rest)
  }

  function ToolUseOf(item: Json): Py<seq<ToolUse>> {
    var data :- Get(item, "tool_use", JObj([]));
    var id :- Get(data, "id", JStr(""));
    var name :- Get(data, "name", JStr(""));
    var kind :- Get(data, "type", JStr(""));
    var arguments :- Get(data, "arguments", JObj([]));
    Ok([ToolUse(id, name, kind, arguments)])
  }

  /** `ParsedMessage.tool_results`: items typed `tool_results` and, in a
      second branch, items typed `tool_result`. */
  function ToolResults(m: ParsedMessage): Py<seq<ToolResult>> {
    var items :- Iter(m.content);
    ToolResultsIn(items)
  }

  function ToolResultsIn(items: seq<Json>): Py<seq<ToolResult>> {
    if |items| == 0 then Ok([])
    else
      var here :- ItemToolResults(items[0]);
      var rest :- ToolResultsIn(items[1..]);
      Ok(here + rest)
  }

  /** What one content item contributes to `tool_results`. */
  function ItemToolResults(item: Json): Py<seq<ToolResult>> {
    var kind :- Get(item, "type", JNull);
    if kind == JStr("tool_results") then ToolResultOf(item, "tool_results")
    else if kind == JStr("tool_result") then ToolResultOf(item, "tool_result")
    else Ok([])
  }

  function ToolResultOf(item: Json, tag: string): Py<seq<ToolResult>> {
    var data :- Get(item, tag, JObj([]));
    var id :- Get(data, "tool_use_id", JStr(""));
    var content :- Get(data, "content", JArr([]));
    Ok([ToolResult(id, content)])
  }

  // ---------------------------------------------------------------------
  // ToolResult properties

  /** `ToolResult.sql_query`: the `sql` of the first dict item whose `json`
      holds one; `JNull` when there is none. */
  function SqlQuery(tr: ToolResult): Py<Json> {
    var items :- Iter(tr.content);
    SqlIn(items)
  }

  function SqlIn(items: seq<Json>): Py<Json> {
    if |items| == 0 then Ok(JNull)
    else if HasKey(items[0], "json") then
      var j := Lookup(items[0].fields, "json").value;
      var has :- PyIn("sql", j);
      if has then At(j, "sql") else SqlIn(items[1..])
    else SqlIn(items[1..])
  }

  /** `ToolResult.search_results`: every `json.searchResults` collection,
      concatenated in item order. */
  function SearchResults(tr: ToolResult): Py<seq<Json>> {
    var items :- Iter(tr.content);
    SearchIn(items)
  }

  function SearchIn(items: seq<Json>): Py<seq<Json>> {
    if |items| == 0 then Ok([])
    else
      var here :- ItemSearch(items[0]);
      var rest :- SearchIn(items[1..]);
      Ok(here + rest)
  }

  /** What one content item contributes: the elements of its
      `json.searchResults`, if it has one. */
  function ItemSearch(item: Json): Py<seq<Json>> {
    if HasKey(item, "json") then
      var j := Lookup(item.fields, "json").value;
      var has :- PyIn("searchResults", j);
      if has then (var v :- At(j, "searchResults"); Iter(v)) else Ok([])
    else Ok([])
  }

  /** The keys `ToolResult.verification_info` copies, in the order it tests them. */
  const VerificationKeys: seq<string> :=
    ["verification", "validated", "query_verified", "verified_query_used", "query_validation"]

  /** The keys whose truthy value makes a tool result a verified query;
      `query_validation` is copied but is not one of them. */
  const TriggerKeys: seq<string> :=
    ["verified_query_used", "query_verified", "validated", "verification"]

  /** `ToolResult.verification_info`. */
  function VerificationInfo(tr: ToolResult): Py<map<string, Json>> {
    var items :- Iter(tr.content);
    VerificationIn(map[], items)
  }

  function VerificationIn(acc: map<string, Json>, items: seq<Json>): Py<map<string, Json>>
    decreases |items|
  {
    if |items| == 0 then Ok(acc)
    else
      var acc' :-
        if HasKey(items[0], "json") then MergeKeys(acc, Lookup(items[0].fields, "json").value, VerificationKeys)
        else Ok(acc);
      VerificationIn(acc', items[1..])
  }

  /** The restriction of dict `j` to `keys`. */
  function Restrict(j: Json, keys: seq<string>): (m: map<string, Json>)
    requires j.JObj?
    ensures forall k :: k in m <==> k in keys && HasKey(j, k)
  {
    map k | k in keys && HasKey(j, k) :: Lookup(j.fields, k).value
  }

  /** Copies each of `keys` that `j` holds into `acc`, overwriting. */
  function MergeKeys(acc: map<string, Json>, j: Json, keys: seq<string>): Py<map<string, Json>>
    decreases |keys|
  {
    if |keys| == 0 then Ok(acc)
    else
      var has :- PyIn(keys[0], j);
      var acc' :- if has then (var v :- At(j, keys[0]); Ok(acc[keys[0] := v])) else Ok(acc);
      MergeKeys(acc', j, keys[1..])
  }

  /** On a dict, merging copies exactly the listed keys it holds, each
      overwriting the value already in `acc`. */
  lemma {:induction false} MergeKeysIsUpdate(acc: map<string, Json>, j: Json, keys: seq<string>)
    requires j.JObj?
    ensures MergeKeys(acc, j, keys) == Ok(acc + Restrict(j, keys))
    decreases |keys|
  {
    if |keys| == 0 {
      assert acc + Restrict(j, keys) == acc;
    } else {
      var acc' := if HasKey(j, keys[0]) then acc[keys[0] := Lookup(j.fields, keys[0]).value] else acc;
      assert MergeKeys(acc, j, keys) == MergeKeys(acc', j, keys[1..]);
      MergeKeysIsUpdate(acc', j, keys[1..]);
      var lhs, rhs := acc' + Restrict(j, keys[1..]), acc + Restrict(j, keys);
      assert forall k :: k in keys <==> k == keys[0] || k in keys[1..];
      assert lhs.Keys == rhs.Keys;
      forall k | k in lhs
        ensures lhs[k] == rhs[k]
      {
        if HasKey(j, k) && k in keys {
          assert lhs[k] == Lookup(j.fields, k).value;
        }
      }
      assert lhs == rhs;
    }
  }

  function MapGet(m: map<string, Json>, key: string): Json {
    if key in m then m[key] else JBool(false)
  }

  /** The first truthy entry of `info` among `keys`, or the last one tested. */
  function FirstTruthy(info: map<string, Json>, keys: seq<string>): (r: Json)
    requires |keys| > 0
    ensures Truthy(r) <==> exists i :: 0 <= i < |keys| && Truthy(MapGet(info, keys[i]))
  {
    if |keys| == 1 then MapGet(info, keys[0])
    else
      var rest := FirstTruthy(info, keys[1..]);
      assert (exists i :: 1 <= i < |keys| && Truthy(MapGet(info, keys[i])))
        <==> (exists i :: 0 <= i < |keys| - 1 && Truthy(MapGet(info, keys[1..][i])));
      PyOr(MapGet(info, keys[0]), rest)
  }

  /** `ToolResult.is_verified_query`: the `or` of the four trigger keys; the
      value is truthy exactly when one of them holds a truthy value. */
  function IsVerifiedQuery(tr: ToolResult): (r: Py<Json>)
    ensures r.Ok? <==> VerificationInfo(tr).Ok?
    ensures r.Ok? ==> (Truthy(r.value) <==>
      exists i :: 0 <= i < |TriggerKeys| && Truthy(MapGet(VerificationInfo(tr).value, TriggerKeys[i])))
  {
    var info :- VerificationInfo(tr);
    Ok(FirstTruthy(info, TriggerKeys))
  }

  /** Chart keys searched in `json`, in priority order. */
  const ChartKeys: seq<string> := ["chart", "visualization", "vega_lite", "vegaLite", "vegalite"]
  /** Chart keys searched in `json.results`, in priority order. */
  const ResultsChartKeys: seq<string> := ["chart", "visualization", "vega_lite", "vegaLite"]
  /** Chart keys searched in the item itself, in priority order. */
  const ItemChartKeys: seq<string> := ["chart", "visualization"]

  /** The value of the first of `keys` that `key in j` finds.  On a dict this
      is the first present key in priority order, or `None`. */
  function FirstKeyIn(j: Json, keys: seq<string>): (r: Py<Option<Json>>)
    ensures j.JObj? ==> r.Ok?
    ensures j.JObj? && r.value.None? ==> forall i :: 0 <= i < |keys| ==> !HasKey(j, keys[i])
    ensures j.JObj? && r.value.Some? ==>
      (exists i :: 0 <= i < |keys| && HasKey(j, keys[i])
         && r.value.value == Lookup(j.fields, keys[i]).value
         && forall m :: 0 <= m < i ==> !HasKey(j, keys[m]))
  {
    if |keys| == 0 then Ok(None)
    else
      var has :- PyIn(keys[0], j);
      if has then
        var v :- At(j, keys[0]);
        Ok(Some(v))
      else
        var r := FirstKeyIn(j, keys[1..]);
        assert j.JObj? && r.Ok? && r.value.Some? ==> exists i :: 0 <= i < |keys| && HasKey(j, keys[i])
          && r.value.value == Lookup(j.fields, keys[i]).value
          && forall m :: 0 <= m < i ==> !HasKey(j, keys[m]) by {
          if j.JObj? && r.Ok? && r.value.Some? {
            var i :| 0 <= i < |keys[1..]| && HasKey(j, keys[1..][i])
              && r.value.value == Lookup(j.fields, keys[1..][i]).value
              && forall m :: 0 <= m < i ==> !HasKey(j, keys[1..][m]);
            assert forall m :: 0 <= m < i + 1 ==> !HasKey(j, keys[m]) by {
              forall m | 0 <= m < i + 1 ensures !HasKey(j, keys[m]) {
                if m > 0 { assert keys[m] == keys[1..][m - 1]; }
              }
            }
          }
        }
        r
  }

  /** The chart found under an item's `json`: the top-level keys first, then a
      `results` dict. */
  function JsonChart(j: Json): Py<Option<Json>> {
    var top :- FirstKeyIn(j, ChartKeys);
    if top.Some? then Ok(top)
    else
      var hasResults :- PyIn("results", j);
      if hasResults then
        var results :- At(j, "results");
        if results.JObj? then FirstKeyIn(results, ResultsChartKeys) else Ok(None)
      else Ok(None)
  }

  /** The chart a dict content item supplies, if any. */
  function ItemChart(item: Json): Py<Option<Json>>
    requires item.JObj?
  {
    var fromJson :- if HasKey(item, "json") then JsonChart(Lookup(item.fields, "json").value) else Ok(None);
    if fromJson.Some? then Ok(fromJson) else FirstKeyIn(item, ItemChartKeys)
  }

  /** `ToolResult.chart_spec`: the chart of the first dict item that supplies
      one; `JNull` when none does. */
  function ChartSpec(tr: ToolResult): Py<Json> {
    var items :- Iter(tr.content);
    ChartIn(items)
  }

  function ChartIn(items: seq<Json>): Py<Json> {
    if |items| == 0 then Ok(JNull)
    else if !items[0].JObj? then ChartIn(items[1..])
    else
      var hit :- ItemChart(items[0]);
      if hit.Some? then Ok(hit.value) else ChartIn(items[1..])
  }

  // ---------------------------------------------------------------------
  // CortexResponse properties, as functions of the message list

  /** `CortexResponse.final_text`: scans the messages from the last one back
      and returns the text of the first assistant message it meets. */
  function FinalText(ms: seq<ParsedMessage>): Py<string> {
    if |ms| == 0 then Ok("")
    else if ms[|ms| - 1].role == Assistant then TextContent(ms[|ms| - 1])
    else FinalText(ms[..|ms| - 1])
  }

  /** `CortexResponse.sql_queries`: the truthy `sql_query` of every tool
      result, in document order. */
  function SqlQueries(ms: seq<ParsedMessage>): Py<seq<Json>> {
    if |ms| == 0 then Ok([])
    else
      var trs :- ToolResults(ms[0]);
      var here :- SqlsOf(trs);
      var rest :- SqlQueries(ms[1..]);
      Ok(here + rest)
  }

  function SqlsOf(trs: seq<ToolResult>): Py<seq<Json>> {
    if |trs| == 0 then Ok([])
    else
      var q :- SqlQuery(trs[0]);
      var rest :- SqlsOf(trs[1..]);
      Ok((if Truthy(q) then [q] else []) + rest)
  }

  /** `CortexResponse.search_results`. */
  function AllSearchResults(ms: seq<ParsedMessage>): Py<seq<Json>> {
    if |ms| == 0 then Ok([])
    else
      var trs :- ToolResults(ms[0]);
      var here :- SearchesOf(trs);
      var rest :- AllSearchResults(ms[1..]);
      Ok(here + rest)
  }

  function SearchesOf(trs: seq<ToolResult>): Py<seq<Json>> {
    if |trs| == 0 then Ok([])
    else
      var here :- SearchResults(trs[0]);
      var rest :- SearchesOf(trs[1..]);
      Ok(here + rest)
  }

  /** The citation one search record yields: none unless it has both a
      `doc_title` and a `text`. */
  function Citation(r: Json): Py<seq<string>> {
    var hasTitle :- PyIn("doc_title", r);
    var both :- if hasTitle then PyIn("text", r) else Ok(false);
    if !both then Ok([])
    else
      var title :- At(r, "doc_title");
      var text :- At(r, "text");
      var base := PyStr(title) + ": " + PyStr(text);
      var hasId :- PyIn("doc_id", r);
      if hasId then (var id :- At(r, "doc_id"); Ok([base + " [Source: " + PyStr(id) + "]"]))
      else Ok([base])
  }

  function CitationsOf(rs: seq<Json>): Py<seq<string>> {
    if |rs| == 0 then Ok([])
    else
      var here :- Citation(rs[0]);
      var rest :- CitationsOf(rs[1..]);
      Ok(here + rest)
  }

  /** `CortexResponse.citations`. */
  function Citations(ms: seq<ParsedMessage>): Py<seq<string>> {
    var results :- AllSearchResults(ms);
    CitationsOf(results)
  }

  /** `CortexResponse.chart_specs`: the truthy `chart_spec` of every tool
      result, in document order. */
  function ChartSpecs(ms: seq<ParsedMessage>): Py<seq<Json>> {
    if |ms| == 0 then Ok([])
    else
      var trs :- ToolResults(ms[0]);
      var here :- ChartsOf(trs);
      var rest :- ChartSpecs(ms[1..]);
      Ok(here + rest)
  }

  function ChartsOf(trs: seq<ToolResult>): Py<seq<Json>> {
    if |trs| == 0 then Ok([])
    else
      var c :- ChartSpec(trs[0]);
      var rest :- ChartsOf(trs[1..]);
      Ok((if Truthy(c) then [c] else []) + rest)
  }
}
