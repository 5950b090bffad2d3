/** `CortexResponseParser.extract_summary`: one pass over the messages that
    collects the planning updates (the stripped texts of `thinking` items),
    merges the verification information of every tool result and notes
    whether any of them used a verified query; the other entries of the
    summary are the response's views. */
module Summaries {
  import opened PyJson
  import opened Model
  import opened Sse
  import opened SseProperties

  /** The dict `extract_summary` returns. */
  datatype Summary = Summary(
    text: string,
    sqlQueries: seq<Json>,
    citations: seq<string>,
    suggestions: seq<Json>,
    toolUses: nat,
    searchResultsCount: nat,
    verificationInfo: map<string, Json>,
    verifiedQueryUsed: bool,
    planningUpdates: seq<string>,
    chartSpecs: seq<Json>)

  /** The variables of the message loop. */
  datatype Scan = Scan(info: map<string, Json>, verified: bool, planning: seq<string>)

  const NoScan := Scan(map[], false, [])

  // ---------------------------------------------------------------------
  // The message loop

  /** What one content item adds to `planning_updates`: the stripped `text`
      of a `thinking` item, when that is not blank. */
  function ItemPlanning(item: Json): Py<seq<string>> {
    var kind :- Get(item, "type", JNull);
    if kind != JStr("thinking") then Ok([])
    else
      var t :- Get(item, "text", JStr(""));
      var s :- StripJ(t);
      Ok(if s != "" then [s] else [])
  }

  function PlanningIn(items: seq<Json>): Py<seq<string>> {
    if |items| == 0 then Ok([])
    else
      var here :- ItemPlanning(items[0]);
      var rest :- PlanningIn(items[1..]);
      Ok(here + rest)
  }

  /** The tool-result loop: a non-empty verification dict is merged into
      `info`, later values overwriting earlier ones, and a verified query
      sets the flag. */
  function VerifyFold(info: map<string, Json>, verified: bool, trs: seq<ToolResult>): Py<(map<string, Json>, bool)>
    decreases |trs|
  {
    if |trs| == 0 then Ok((info, verified))
    else
      var tv :- VerificationInfo(trs[0]);
      var q :- IsVerifiedQuery(trs[0]);
      VerifyFold(if tv != map[] then info + tv else info, verified || Truthy(q), trs[1..])
  }

  /** One message: its content items first, then its tool results. */
  function ScanMessage(acc: Scan, m: ParsedMessage): Py<Scan> {
    var items :- Iter(m.content);
    var plans :- PlanningIn(items);
    var trs :- ToolResults(m);
    var v :- VerifyFold(acc.info, acc.verified, trs);
    Ok(Scan(v.0, v.1, acc.planning + plans))
  }

  function ScanFrom(acc: Scan, ms: seq<ParsedMessage>): Py<Scan>
    decreases |ms|
  {
    if |ms| == 0 then Ok(acc)
    else
      var acc' :- ScanMessage(acc, ms[0]);
      ScanFrom(acc', ms[1..])
  }

  // ---------------------------------------------------------------------
  // The summary

  /** `len([tool for msg in messages for tool in msg.tool_uses])`. */
  function ToolUseCount(ms: seq<ParsedMessage>): Py<nat> {
    if |ms| == 0 then Ok(0)
    else
      var here :- ToolUses(ms[0]);
      var rest :- ToolUseCount(ms[1..]);
      Ok(|here| + rest)
  }

  function SuggestionTexts(ss: seq<Suggestion>): (r: seq<Json>)
    ensures |r| == |ss| && forall i :: 0 <= i < |ss| ==> r[i] == ss[i].text
  {
    seq(|ss|, i requires 0 <= i < |ss| => ss[i].text)
  }

  /** `extract_summary(response)` over the response's messages and
      suggestions: the loop first, then the dict's entries in order. */
  function ExtractSummary(ms: seq<ParsedMessage>, suggestions: seq<Suggestion>): Py<Summary> {
    var scan :- ScanFrom(NoScan, ms);
    var text :- FinalText(ms);
    var sqls :- SqlQueries(ms);
    var citations :- Citations(ms);
    var toolUses :- ToolUseCount(ms);
    var results :- AllSearchResults(ms);
    var charts :- ChartSpecs(ms);
    Ok(Summary(text, sqls, citations, SuggestionTexts(suggestions), toolUses, |results|,
               scan.info, scan.verified, scan.planning, charts))
  }

  /** `extract_summary(response)`. */
  function SummaryOf(response: CortexResponse): Py<Summary>
    reads response
  {
    ExtractSummary(response.messages, response.suggestions)
  }

  /** The loop's three variables are the summary's `verification_info`,
      `verified_query_used` and `planning_updates`. */
  lemma SummaryScan(ms: seq<ParsedMessage>, suggestions: seq<Suggestion>)
    requires ExtractSummary(ms, suggestions).Ok?
    ensures ScanFrom(NoScan, ms).Ok?
    ensures var sum, scan := ExtractSummary(ms, suggestions).value, ScanFrom(NoScan, ms).value;
      sum.verificationInfo == scan.info && sum.verifiedQueryUsed == scan.verified
      && sum.planningUpdates == scan.planning
  {
  }

  // ---------------------------------------------------------------------
  // verified_query_used

  /** A tool result whose verification dict holds a truthy value under one
      of the four trigger keys. */
  predicate VerifiedResult(tr: ToolResult) {
    VerificationInfo(tr).Ok?
    && exists t :: 0 <= t < |TriggerKeys| && Truthy(MapGet(VerificationInfo(tr).value, TriggerKeys[t]))
  }

  /** Some tool result of `trs` used a verified query. */
  predicate SomeVerified(trs: seq<ToolResult>) {
    exists i :: 0 <= i < |trs| && VerifiedResult(trs[i])
  }

  lemma SomeVerifiedCons(trs: seq<ToolResult>)
    requires |trs| > 0
    ensures SomeVerified(trs) <==> VerifiedResult(trs[0]) || SomeVerified(trs[1..])
  {
    if SomeVerified(trs) {
      var i :| 0 <= i < |trs| && VerifiedResult(trs[i]);
      if i > 0 { assert trs[1..][i - 1] == trs[i]; }
    }
    if SomeVerified(trs[1..]) {
      var i :| 0 <= i < |trs[1..]| && VerifiedResult(trs[1..][i]);
      assert trs[i + 1] == trs[1..][i];
    }
  }

  lemma {:induction false} VerifyFoldFlag(info: map<string, Json>, verified: bool, trs: seq<ToolResult>)
    requires VerifyFold(info, verified, trs).Ok?
    ensures VerifyFold(info, verified, trs).value.1 <==> verified || SomeVerified(trs)
    decreases |trs|
  {
    if |trs| > 0 {
      var tv := VerificationInfo(trs[0]).value;
      var q := IsVerifiedQuery(trs[0]).value;
      VerifyFoldFlag(if tv != map[] then info + tv else info, verified || Truthy(q), trs[1..]);
      assert Truthy(q) <==> VerifiedResult(trs[0]);
      SomeVerifiedCons(trs);
    }
  }

  /** A message whose tool results include one that used a verified query. */
  predicate MessageVerified(m: ParsedMessage) {
    ToolResults(m).Ok? && SomeVerified(ToolResults(m).value)
  }

  /** Some message holds a tool result that used a verified query. */
  predicate AnyVerified(ms: seq<ParsedMessage>) {
    exists k :: 0 <= k < |ms| && MessageVerified(ms[k])
  }

  lemma AnyVerifiedCons(ms: seq<ParsedMessage>)
    requires |ms| > 0
    ensures AnyVerified(ms) <==> MessageVerified(ms[0]) || AnyVerified(ms[1..])
  {
    if AnyVerified(ms) {
      var k :| 0 <= k < |ms| && MessageVerified(ms[k]);
      if k > 0 { assert ms[1..][k - 1] == ms[k]; }
    }
    if AnyVerified(ms[1..]) {
      var k :| 0 <= k < |ms[1..]| && MessageVerified(ms[1..][k]);
      assert ms[k + 1] == ms[1..][k];
    }
  }

  lemma {:induction false} ScanVerified(acc: Scan, ms: seq<ParsedMessage>)
    requires ScanFrom(acc, ms).Ok?
    ensures ScanFrom(acc, ms).value.verified <==> acc.verified || AnyVerified(ms)
    decreases |ms|
  {
    if |ms| > 0 {
      var acc' := ScanMessage(acc, ms[0]).value;
      VerifyFoldFlag(acc.info, acc.verified, ToolResults(ms[0]).value);
      ScanVerified(acc', ms[1..]);
      AnyVerifiedCons(ms);
    }
  }

  /** `verified_query_used` holds exactly when some tool result has a truthy
      `verified_query_used`, `query_verified`, `validated` or
      `verification`. */
  lemma SummaryVerifiedIff(ms: seq<ParsedMessage>, suggestions: seq<Suggestion>)
    requires ExtractSummary(ms, suggestions).Ok?
    ensures ExtractSummary(ms, suggestions).value.verifiedQueryUsed <==> AnyVerified(ms)
  {
    SummaryScan(ms, suggestions);
    ScanVerified(NoScan, ms);
  }

  /** `query_validation` is merged but never makes a query verified: the
      flag does not depend on its value. */
  lemma QueryValidationNeverTriggers(info: map<string, Json>, v: Json)
    ensures Truthy(FirstTruthy(info["query_validation" := v], TriggerKeys))
      == Truthy(FirstTruthy(info, TriggerKeys))
  {
    var info' := info["query_validation" := v];
    assert "query_validation"[6] != "verified_query_used"[6];
    assert "query_validation"[0] != "verification"[0];
    assert "query_validation"[0] != "validated"[0];
    assert "query_validation"[7] != "query_verified"[7];
    forall t | 0 <= t < |TriggerKeys|
      ensures MapGet(info', TriggerKeys[t]) == MapGet(info, TriggerKeys[t])
    {
      assert TriggerKeys[t] != "query_validation";
    }
  }

  /** A tool result whose only verification key is a truthy
      `query_validation` has that key in its dict and is not verified. */
  lemma QueryValidationAloneIsNotVerified(id: Json)
    ensures var tr := ToolResult(id, JArr([JObj([("json", JObj([("query_validation", JBool(true))]))])]));
      VerificationInfo(tr) == Ok(map["query_validation" := JBool(true)]) && !VerifiedResult(tr)
  {
    var j := JObj([("query_validation", JBool(true))]);
    var item := JObj([("json", j)]);
    var tr := ToolResult(id, JArr([item]));
    LookupSingle("json", j, "json");
    MergeKeysIsUpdate(map[], j, VerificationKeys);
    forall k ensures HasKey(j, k) <==> k == "query_validation" {
      LookupSingle("query_validation", JBool(true), k);
    }
    var info := map[] + Restrict(j, VerificationKeys);
    assert info == map["query_validation" := JBool(true)];
    assert [item][1..] == [];
    assert HasKey(item, "json") && Lookup(item.fields, "json").value == j;
    assert VerificationIn(map[], [item]) == VerificationIn(info, []);
    assert VerificationInfo(tr) == Ok(info);
    QueryValidationNeverTriggers(map[], JBool(true));
  }

  // ---------------------------------------------------------------------
  // verification_info

  /** Merging only ever adds the listed keys. */
  lemma {:induction false} MergeKeysKeys(acc: map<string, Json>, j: Json, keys: seq<string>)
    requires MergeKeys(acc, j, keys).Ok?
    ensures forall k :: k in MergeKeys(acc, j, keys).value ==> k in acc || k in keys
    decreases |keys|
  {
    if |keys| > 0 {
      var has := PyIn(keys[0], j).value;
      var acc' := if has then acc[keys[0] := At(j, keys[0]).value] else acc;
      assert MergeKeys(acc, j, keys) == MergeKeys(acc', j, keys[1..]);
      MergeKeysKeys(acc', j, keys[1..]);
    }
  }

  lemma {:induction false} VerificationInKeys(acc: map<string, Json>, items: seq<Json>)
    requires VerificationIn(acc, items).Ok?
    ensures forall k :: k in VerificationIn(acc, items).value ==> k in acc || k in VerificationKeys
    decreases |items|
  {
    if |items| > 0 {
      if HasKey(items[0], "json") {
        var j := Lookup(items[0].fields, "json").value;
        MergeKeysKeys(acc, j, VerificationKeys);
        VerificationInKeys(MergeKeys(acc, j, VerificationKeys).value, items[1..]);
      } else {
        VerificationInKeys(acc, items[1..]);
      }
    }
  }

  lemma {:induction false} VerifyFoldKeys(info: map<string, Json>, verified: bool, trs: seq<ToolResult>)
    requires VerifyFold(info, verified, trs).Ok?
    ensures forall k :: k in VerifyFold(info, verified, trs).value.0 ==> k in info || k in VerificationKeys
    decreases |trs|
  {
    if |trs| > 0 {
      var tv := VerificationInfo(trs[0]).value;
      VerificationInKeys(map[], Iter(trs[0].content).value);
      VerifyFoldKeys(if tv != map[] then info + tv else info, verified || Truthy(IsVerifiedQuery(trs[0]).value), trs[1..]);
    }
  }

  lemma MapUnionAssoc(a: map<string, Json>, b: map<string, Json>, c: map<string, Json>)
    ensures (a + b) + c == a + (b + c)
  {
  }

  /** Merging into `info` is merging into an empty dict and then laying the
      result over `info`: a later tool result's value wins. */
  lemma {:induction false} VerifyFoldOverwrites(info: map<string, Json>, verified: bool, trs: seq<ToolResult>)
    requires VerifyFold(info, verified, trs).Ok?
    ensures VerifyFold(map[], false, trs).Ok?
    ensures VerifyFold(info, verified, trs).value.0 == info + VerifyFold(map[], false, trs).value.0
    decreases |trs|
  {
    if |trs| == 0 {
      assert info + map[] == info;
    } else {
      var tv := VerificationInfo(trs[0]).value;
      var q := Truthy(IsVerifiedQuery(trs[0]).value);
      var next := if tv != map[] then info + tv else info;
      var solo: map<string, Json> := if tv != map[] then map[] + tv else map[];
      assert VerifyFold(info, verified, trs) == VerifyFold(next, verified || q, trs[1..]);
      assert VerifyFold(map[], false, trs) == VerifyFold(solo, false || q, trs[1..]);
      VerifyFoldOkFree(next, verified || q, solo, q, trs[1..]);
      VerifyFoldOverwrites(next, verified || q, trs[1..]);
      VerifyFoldOverwrites(solo, q, trs[1..]);
      var rest := VerifyFold(map[], false, trs[1..]).value.0;
      assert next == info + solo by {
        if tv == map[] {
          assert info + map[] == info;
        } else {
          assert map[] + tv == tv;
        }
      }
      MapUnionAssoc(info, solo, rest);
    }
  }

  /** Whether the merge raises depends neither on the dict nor on the flag
      carried along. */
  lemma {:induction false} VerifyFoldOkFree(i1: map<string, Json>, a: bool, i2: map<string, Json>, b: bool, trs: seq<ToolResult>)
    ensures VerifyFold(i1, a, trs).Ok? <==> VerifyFold(i2, b, trs).Ok?
    decreases |trs|
  {
    if |trs| > 0 && VerificationInfo(trs[0]).Ok? && IsVerifiedQuery(trs[0]).Ok? {
      var tv := VerificationInfo(trs[0]).value;
      var q := Truthy(IsVerifiedQuery(trs[0]).value);
      VerifyFoldOkFree(if tv != map[] then i1 + tv else i1, a || q, if tv != map[] then i2 + tv else i2, b || q, trs[1..]);
    }
  }

  lemma {:induction false} ScanInfoKeys(acc: Scan, ms: seq<ParsedMessage>)
    requires ScanFrom(acc, ms).Ok?
    ensures forall k :: k in ScanFrom(acc, ms).value.info ==> k in acc.info || k in VerificationKeys
    decreases |ms|
  {
    if |ms| > 0 {
      VerifyFoldKeys(acc.info, acc.verified, ToolResults(ms[0]).value);
      ScanInfoKeys(ScanMessage(acc, ms[0]).value, ms[1..]);
    }
  }

  /** The summary's verification dict only holds the five copied keys. */
  lemma SummaryInfoKeys(ms: seq<ParsedMessage>, suggestions: seq<Suggestion>)
    requires ExtractSummary(ms, suggestions).Ok?
    ensures forall k :: k in ExtractSummary(ms, suggestions).value.verificationInfo ==> k in VerificationKeys
  {
    SummaryScan(ms, suggestions);
    ScanInfoKeys(NoScan, ms);
  }

  // ---------------------------------------------------------------------
  // planning_updates

  /** The planning updates of the messages, in order. */
  function PlanningOf(ms: seq<ParsedMessage>): Py<seq<string>> {
    if |ms| == 0 then Ok([])
    else
      var items :- Iter(ms[0].content);
      var here :- PlanningIn(items);
      var rest :- PlanningOf(ms[1..]);
      Ok(here + rest)
  }

  lemma {:induction false} ScanPlanning(acc: Scan, ms: seq<ParsedMessage>)
    requires ScanFrom(acc, ms).Ok?
    ensures PlanningOf(ms).Ok?
    ensures ScanFrom(acc, ms).value.planning == acc.planning + PlanningOf(ms).value
    decreases |ms|
  {
    if |ms| == 0 {
      assert acc.planning + [] == acc.planning;
    } else {
      var acc' := ScanMessage(acc, ms[0]).value;
      ScanPlanning(acc', ms[1..]);
      var here := PlanningIn(Iter(ms[0].content).value).value;
      assert acc'.planning == acc.planning + here;
      assert acc.planning + here + PlanningOf(ms[1..]).value == acc.planning + (here + PlanningOf(ms[1..]).value);
    }
  }

  /** A planning update is never blank and is already stripped. */
  predicate Clean(t: string) {
    t != "" && Strip(t) == t
  }

  predicate AllClean(ts: seq<string>) {
    forall i :: 0 <= i < |ts| ==> Clean(ts[i])
  }

  lemma AllCleanAppend(a: seq<string>, b: seq<string>)
    requires AllClean(a) && AllClean(b)
    ensures AllClean(a + b)
  {
    forall i | 0 <= i < |a + b| ensures Clean((a + b)[i]) {
      if i >= |a| { assert (a + b)[i] == b[i - |a|]; }
    }
  }

  lemma ItemPlanningClean(item: Json)
    requires ItemPlanning(item).Ok?
    ensures AllClean(ItemPlanning(item).value)
  {
    if ItemPlanning(item).value != [] {
      StripIdempotent(Get(item, "text", JStr("")).value.s);
    }
  }

  lemma {:induction false} PlanningInClean(items: seq<Json>)
    requires PlanningIn(items).Ok?
    ensures AllClean(PlanningIn(items).value)
    decreases |items|
  {
    if |items| > 0 {
      ItemPlanningClean(items[0]);
      PlanningInClean(items[1..]);
      AllCleanAppend(ItemPlanning(items[0]).value, PlanningIn(items[1..]).value);
    }
  }

  lemma {:induction false} PlanningOfClean(ms: seq<ParsedMessage>)
    requires PlanningOf(ms).Ok?
    ensures AllClean(PlanningOf(ms).value)
    decreases |ms|
  {
    if |ms| > 0 {
      PlanningInClean(Iter(ms[0].content).value);
      PlanningOfClean(ms[1..]);
      AllCleanAppend(PlanningIn(Iter(ms[0].content).value).value, PlanningOf(ms[1..]).value);
    }
  }

  /** The planning updates are the non-blank stripped `thinking` texts, in
      message and item order. */
  lemma SummaryPlanning(ms: seq<ParsedMessage>, suggestions: seq<Suggestion>)
    requires ExtractSummary(ms, suggestions).Ok?
    ensures PlanningOf(ms).Ok? && ExtractSummary(ms, suggestions).value.planningUpdates == PlanningOf(ms).value
    ensures AllClean(PlanningOf(ms).value)
  {
    SummaryScan(ms, suggestions);
    ScanPlanning(NoScan, ms);
    assert [] + PlanningOf(ms).value == PlanningOf(ms).value;
    PlanningOfClean(ms);
  }

  lemma {:induction false} PlanningOfAppend(a: seq<ParsedMessage>, b: seq<ParsedMessage>)
    requires PlanningOf(a).Ok? && PlanningOf(b).Ok?
    ensures PlanningOf(a + b) == Ok(PlanningOf(a).value + PlanningOf(b).value)
    decreases |a|
  {
    if |a| == 0 {
      assert a + b == b;
      assert [] + PlanningOf(b).value == PlanningOf(b).value;
    } else {
      assert (a + b)[0] == a[0] && (a + b)[1..] == a[1..] + b;
      PlanningOfAppend(a[1..], b);
      var here := PlanningIn(Iter(a[0].content).value).value;
      var x, y := PlanningOf(a[1..]).value, PlanningOf(b).value;
      assert PlanningOf(a) == Ok(here + x);
      assert PlanningOf(a + b) == Ok(here + (x + y));
      assert here + (x + y) == (here + x) + y;
    }
  }

  /** A single item contributes no update unless it is typed `thinking`. */
  lemma TaggedItemNoPlanning(tag: string, x: Json)
    requires tag != "thinking"
    ensures PlanningIn([TaggedItem(tag, x)]) == Ok([])
  {
    var item := TaggedItem(tag, x);
    assert Lookup(item.fields, "type") == Some(JStr(tag));
    assert ItemPlanning(item) == Ok([]);
    assert [item][1..] == [];
    var none: seq<string> := [];
    assert none + none == none;
  }

  lemma {:induction false} PlanningInAppend(a: seq<Json>, b: seq<Json>)
    requires PlanningIn(a).Ok? && PlanningIn(b).Ok?
    ensures PlanningIn(a + b) == Ok(PlanningIn(a).value + PlanningIn(b).value)
    decreases |a|
  {
    if |a| == 0 {
      assert a + b == b;
      assert [] + PlanningIn(b).value == PlanningIn(b).value;
    } else {
      assert (a + b)[0] == a[0] && (a + b)[1..] == a[1..] + b;
      PlanningInAppend(a[1..], b);
      var here := ItemPlanning(a[0]).value;
      var x, y := PlanningIn(a[1..]).value, PlanningIn(b).value;
      assert here + (x + y) == (here + x) + y;
    }
  }

  lemma {:induction false} TaggedItemsNoPlanning(tag: string, xs: seq<Json>)
    requires tag != "thinking"
    ensures PlanningIn(TaggedItems(tag, xs)) == Ok([])
    decreases |xs|
  {
    if |xs| > 0 {
      TaggedItemsNoPlanning(tag, xs[..|xs| - 1]);
      TaggedItemNoPlanning(tag, xs[|xs| - 1]);
      PlanningInAppend(TaggedItems(tag, xs[..|xs| - 1]), [TaggedItem(tag, xs[|xs| - 1])]);
    }
  }

  /** The aggregate message of a stream holds no `thinking` item. */
  lemma AggregateNoPlanning(st: SseState)
    ensures PlanningIn(AggregateContent(st)) == Ok([])
  {
    var head := if st.text != "" then [TextItem(st.text)] else [];
    if st.text != "" {
      assert PlanningIn(head) == Ok([]) by {
        assert head[1..] == [];
        assert Lookup(TextItem(st.text).fields, "type") == Some(JStr("text"));
        assert ItemPlanning(TextItem(st.text)) == Ok([]);
        var none: seq<string> := [];
        assert none + none == none;
      }
    }
    assert "tool_use"[5] != "thinking"[5];
    assert "tool_results"[1] != "thinking"[1];
    TaggedItemsNoPlanning("tool_use", st.toolUse);
    TaggedItemsNoPlanning("tool_results", st.toolResults);
    PlanningInAppend(head, TaggedItems("tool_use", st.toolUse));
    PlanningInAppend(head + TaggedItems("tool_use", st.toolUse), TaggedItems("tool_results", st.toolResults));
  }

  /** A thinking message of the flush contributes its text, unchanged. */
  lemma ThinkingMessagePlanning(t: string)
    requires Clean(t)
    ensures PlanningOf([ThinkingMessage(t)]) == Ok([t])
  {
    var item := ThinkingItem(t);
    assert [item][1..] == [];
    assert [ThinkingMessage(t)][1..] == [];
    assert Lookup(item.fields, "type") == Some(JStr("thinking"));
    assert "type"[1] != "text"[1];
    assert item.fields[1..] == [("text", JStr(t))];
    assert Lookup(item.fields, "text") == Some(JStr(t));
    assert ItemPlanning(item) == Ok([t]);
    assert [t] + [] == [t];
    assert PlanningIn([item]) == Ok([t]);
    assert Iter(ThinkingMessage(t).content) == Ok([item]);
  }

  lemma {:induction false} ThinkingMessagesPlanning(ts: seq<string>)
    requires AllClean(ts)
    ensures PlanningOf(ThinkingMessages(ts)) == Ok(ts)
    decreases |ts|
  {
    if |ts| > 0 {
      var init, t := ts[..|ts| - 1], ts[|ts| - 1];
      assert AllClean(init) by {
        assert forall k :: 0 <= k < |init| ==> init[k] == ts[k];
      }
      assert Clean(t);
      ThinkingMessagesPlanning(init);
      assert ThinkingMessages(ts) == ThinkingMessages(init) + [ThinkingMessage(t)] by {
        assert ts == init + [t];
        ThinkingMessagesSnoc(init, t, true);
      }
      ThinkingMessagePlanning(t);
      PlanningOfAppend(ThinkingMessages(init), [ThinkingMessage(t)]);
    }
  }

  /** The planning updates of a parsed event stream are exactly the thinking
      spans it extracted, in order. */
  lemma StreamPlanning(st: SseState)
    requires ThinkingInv(st)
    ensures PlanningOf(Flush(st)) == Ok(st.thinking)
  {
    ThinkingMessagesPlanning(st.thinking);
    if Pending(st) {
      var agg := ParsedMessage(Assistant, JArr(AggregateContent(st)));
      AggregateNoPlanning(st);
      assert [agg][1..] == [];
      assert PlanningOf([agg]) == Ok([] + []);
      PlanningOfAppend(ThinkingMessages(st.thinking), [agg]);
      assert st.thinking + [] == st.thinking;
    } else {
      assert ThinkingMessages(st.thinking) + [] == ThinkingMessages(st.thinking);
    }
  }
}
