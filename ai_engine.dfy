/** The rest of the backend's AI engine: plan detection (keywords first, the language model
    as fallback, with its output coerced into intents), sequential query execution, and the
    text responses with their non-AI fallbacks. */
module AiEngine {
  import opened Wrappers
  import opened Text
  import opened JsValue
  import opened AiKeyword

  // ---------------------------------------------------------------------------------------
  // detectMessage
  // ---------------------------------------------------------------------------------------

  /** The model's reply cut down to its outermost braces, when it has both kinds. */
  function JsonSlice(text: string): string
  {
    var start := IndexOf(text, '{');
    var end := LastIndexOf(text, '}');
    if start != -1 && end != -1 then Slice(text, start, end + 1) else text
  }

  /** Without both braces the reply is kept whole; with a '{' before the last '}' the slice is a
      brace-delimited part of it; a '}' before every '{' leaves nothing. */
  lemma JsonSliceShape(text: string)
    ensures IndexOf(text, '{') == -1 || LastIndexOf(text, '}') == -1 ==> JsonSlice(text) == text
    ensures IndexOf(text, '{') != -1 && LastIndexOf(text, '}') != -1 ==>
              if IndexOf(text, '{') < LastIndexOf(text, '}')
              then var r := JsonSlice(text); |r| >= 2 && r[0] == '{' && r[|r| - 1] == '}' && Contains(text, r)
              else JsonSlice(text) == ""
  {
    var start := IndexOf(text, '{');
    var end := LastIndexOf(text, '}');
    if start == -1 || end == -1 {
      assert JsonSlice(text) == text;
    } else if start < end {
      var r := text[start..end + 1];
      assert JsonSlice(text) == r;
      assert r[0] == text[start] && r[|r| - 1] == text[end];
      assert OccursAt(text, r, start);
    } else {
      assert JsonSlice(text) == "";
    }
  }

  /** One element of `json.intents` mapped to an intent; None when reading its fields throws
      (a null or undefined element). */
  function CoerceIntent(v: Value): (r: Option<Intent>)
    ensures r.None? <==> IsNullish(v)
    ensures r.Some? ==> r.value.target == Prop(v, "target") && IsObjectType(r.value.filters)
    ensures r.Some? ==> (r.value.filters == Prop(v, "filters") <==> IsObjectType(Prop(v, "filters")))
    ensures r.Some? && !IsObjectType(Prop(v, "filters")) ==> r.value.filters == EMPTY_OBJECT
    ensures r.Some? ==> r.value.limit == (if Prop(v, "limit").Num? then Prop(v, "limit").n else 20)
  {
    if IsNullish(v) then None
    else
      var f := Prop(v, "filters");
      var l := Prop(v, "limit");
      Some(Intent(Prop(v, "target"), if IsObjectType(f) then f else EMPTY_OBJECT, if l.Num? then l.n else 20))
  }

  /** `json.intents.map(...)`: all elements coerced, or None when one of them throws. */
  function CoerceAll(items: seq<Value>): (r: Option<seq<Intent>>)
    ensures r.None? <==> exists k :: 0 <= k < |items| && IsNullish(items[k])
    ensures r.Some? ==> |r.value| == |items| && forall k :: 0 <= k < |items| ==> Some(r.value[k]) == CoerceIntent(items[k])
  {
    if |items| == 0 then Some([])
    else
      var head := CoerceIntent(items[0]);
      var tail := CoerceAll(items[1..]);
      if head.None? then None
      else if tail.None? then
        assert exists k :: 0 <= k < |items| - 1 && IsNullish(items[1..][k]);
        None
      else
        var r := [head.value] + tail.value;
        assert forall k :: 1 <= k < |items| ==> items[k] == items[1..][k - 1];
        Some(r)
  }

  /** The plan read from the model's reply: any parse failure, a missing `intents` array or a
      null element gives the empty plan. */
  function PlanFromCompletion(content: string, parse: string -> Option<Value>): (p: Plan)
    ensures forall k :: 0 <= k < |p.intents| ==> IsObjectType(p.intents[k].filters)
    ensures var json := parse(JsonSlice(Trim(content)));
            (json.None? || IsNullish(json.value) || !Prop(json.value, "intents").Arr? ||
             CoerceAll(Prop(json.value, "intents").items).None?) ==> p == Plan([])
    ensures var json := parse(JsonSlice(Trim(content)));
            (json.Some? && !IsNullish(json.value) && Prop(json.value, "intents").Arr? &&
             CoerceAll(Prop(json.value, "intents").items).Some?) ==>
              p.intents == CoerceAll(Prop(json.value, "intents").items).value
  {
    var json := parse(JsonSlice(Trim(content)));
    if json.None? || IsNullish(json.value) then Plan([])
    else
      var items := Prop(json.value, "intents");
      if !items.Arr? then Plan([])
      else
        var c := CoerceAll(items.items);
        if c.None? then Plan([])
        else
          assert forall k :: 0 <= k < |c.value| ==> CoerceIntent(items.items[k]) == Some(c.value[k]);
          Plan(c.value)
  }

  /** What `detectMessage` settles to. `caps` are the classifier's regex captures, `llm` the
      model's reply (None when the call fails) and `parse` is `JSON.parse` (None when it throws).
      Only a message that is not a string makes it reject: `toLowerCase` throws. */
  function DetectPlan(msg: Value, caps: Captures, llm: Option<string>, parse: string -> Option<Value>): (r: Settled<Plan>)
    ensures r.Rejected? <==> !msg.Str?
    ensures r.Resolved? ==> forall k :: 0 <= k < |r.value.intents| ==> IsObjectType(r.value.intents[k].filters)
    ensures msg.Str? && KeywordIntent(msg.s, caps).Some? ==> r == Resolved(KeywordIntent(msg.s, caps).value)
    ensures msg.Str? && KeywordIntent(msg.s, caps).None? && llm.None? ==> r == Resolved(Plan([]))
    ensures msg.Str? && KeywordIntent(msg.s, caps).None? && llm.Some? ==>
              r == Resolved(PlanFromCompletion(llm.value, parse))
  {
    if !msg.Str? then Rejected
    else
      var kw := KeywordIntent(msg.s, caps);
      if kw.Some? then Resolved(kw.value)
      else if llm.None? then Resolved(Plan([]))
      else Resolved(PlanFromCompletion(llm.value, parse))
  }

  /** `detectMessage`, with `text` reassigned to the brace slice. */
  method DetectMessage(msg: Value, caps: Captures, llm: Option<string>, parse: string -> Option<Value>)
    returns (r: Settled<Plan>)
    ensures r == DetectPlan(msg, caps, llm, parse)
  {
    if !msg.Str? {
      return Rejected;
    }
    var keywordIntents := DetectIntentByKeyword(msg.s, caps);
    if keywordIntents.Some? {
      return Resolved(keywordIntents.value);
    }
    if llm.None? {
      return Resolved(Plan([]));
    }
    r := PlanFromReply(llm.value, parse);
    r := Resolved(r.value);
  }

  /** The reassignment of `text` to the span from its first '{' to its last '}'. */
  method CutToBraces(trimmed: string) returns (text: string)
    ensures text == JsonSlice(trimmed)
  {
    var start := IndexOf(trimmed, '{');
    var end := LastIndexOf(trimmed, '}');
    if start != -1 && end != -1 {
      text := Slice(trimmed, start, end + 1);
    } else {
      text := trimmed;
    }
  }

  /** The part of `detectMessage` after the model has answered `content`. */
  method PlanFromReply(content: string, parse: string -> Option<Value>) returns (r: Settled<Plan>)
    ensures r == Resolved(PlanFromCompletion(content, parse))
  {
    var text := CutToBraces(Trim(content));
    var json := parse(text);
    if json.None? || IsNullish(json.value) {
      return Resolved(Plan([]));
    }
    var items := Prop(json.value, "intents");
    if !items.Arr? {
      return Resolved(Plan([]));
    }
    var intents := CoerceAll(items.items);
    if intents.None? {
      return Resolved(Plan([]));
    }
    return Resolved(Plan(intents.value));
  }

  /** A keyword hit is returned without consulting the model: the result is the same whatever
      the model would have answered. */
  lemma KeywordHitSkipsModel(msg: string, caps: Captures, llm1: Option<string>, llm2: Option<string>,
                             parse1: string -> Option<Value>, parse2: string -> Option<Value>)
    requires KeywordIntent(msg, caps).Some?
    ensures DetectPlan(Str(msg), caps, llm1, parse1) == DetectPlan(Str(msg), caps, llm2, parse2)
                                                      == Resolved(KeywordIntent(msg, caps).value)
  {
  }

  /** A reply that parses to an object without an `intents` array yields the empty plan. */
  lemma NoIntentsArrayGivesEmptyPlan(msg: string, caps: Captures, content: string, parse: string -> Option<Value>)
    requires KeywordIntent(msg, caps).None?
    requires var json := parse(JsonSlice(Trim(content))); json.Some? && !Prop(json.value, "intents").Arr?
    ensures DetectPlan(Str(msg), caps, Some(content), parse) == Resolved(Plan([]))
  {
  }

  // ---------------------------------------------------------------------------------------
  // executeQueryGraph
  // ---------------------------------------------------------------------------------------

  datatype QueryResult = QueryResult(intent: Intent, result: Value)

  /** What `executeQueryGraph` settles to: each intent paired with its query's value, in
      order, when every query resolves. */
  function QueryGraph(intents: seq<Intent>, queryFn: Intent -> Settled<Value>): Settled<seq<QueryResult>>
  {
    if forall k :: 0 <= k < |intents| ==> queryFn(intents[k]).Resolved?
    then Resolved(seq(|intents|, k requires 0 <= k < |intents| => QueryResult(intents[k], queryFn(intents[k]).value)))
    else Rejected
  }

  /** Runs the intents one after another; the first query that throws makes the whole call
      throw. */
  method ExecuteQueryGraph(intents: seq<Intent>, queryFn: Intent -> Settled<Value>) returns (r: Settled<seq<QueryResult>>)
    ensures r.Resolved? <==> forall k :: 0 <= k < |intents| ==> queryFn(intents[k]).Resolved?
    ensures r.Resolved? ==> |r.value| == |intents|
    ensures r.Resolved? ==> forall k :: 0 <= k < |intents| ==> r.value[k] == QueryResult(intents[k], queryFn(intents[k]).value)
    ensures r == QueryGraph(intents, queryFn)
  {
    var results: seq<QueryResult> := [];
    for k := 0 to |intents|
      invariant |results| == k
      invariant forall j :: 0 <= j < k ==> queryFn(intents[j]).Resolved?
      invariant forall j :: 0 <= j < k ==> results[j] == QueryResult(intents[j], queryFn(intents[j]).value)
    {
      var result := queryFn(intents[k]);
      if result.Rejected? {
        return Rejected;
      }
      results := results + [QueryResult(intents[k], result.value)];
    }
    assert results == seq(|intents|, k requires 0 <= k < |intents| => QueryResult(intents[k], queryFn(intents[k]).value));
    return Resolved(results);
  }

  // ---------------------------------------------------------------------------------------
  // generateResponse / generateResponseWithHistory
  // ---------------------------------------------------------------------------------------

  /** `dbResults.flatMap(r => Array.isArray(r.result) ? r.result : [])`. */
  function Flatten(rs: seq<QueryResult>): (items: seq<Value>)
    ensures forall x :: x in items <==> exists k :: 0 <= k < |rs| && rs[k].result.Arr? && x in rs[k].result.items
  {
    if |rs| == 0 then []
    else
      var tail := Flatten(rs[1..]);
      assert forall k :: 1 <= k < |rs| ==> rs[k] == rs[1..][k - 1];
      assert forall x :: x in tail ==> exists k :: 0 <= k < |rs| && rs[k].result.Arr? && x in rs[k].result.items by {
        forall x | x in tail ensures exists k :: 0 <= k < |rs| && rs[k].result.Arr? && x in rs[k].result.items {
          var k :| 0 <= k < |rs[1..]| && rs[1..][k].result.Arr? && x in rs[1..][k].result.items;
          assert rs[k + 1] == rs[1..][k];
        }
      }
      (if rs[0].result.Arr? then rs[0].result.items else []) + tail
  }

  /** Flattening keeps the results' order and every repetition: the items of a concatenation
      are the items of each part, one after the other. */
  lemma {:induction false} FlattenAppend(a: seq<QueryResult>, b: seq<QueryResult>)
    ensures Flatten(a + b) == Flatten(a) + Flatten(b)
    decreases |a|
  {
    if |a| > 0 {
      assert (a + b)[1..] == a[1..] + b;
      FlattenAppend(a[1..], b);
    } else {
      assert a + b == b;
    }
  }

  /** One more result adds its array's items, in order, at the end (and nothing otherwise). */
  lemma FlattenSnoc(rs: seq<QueryResult>, x: QueryResult)
    ensures Flatten(rs + [x]) == Flatten(rs) + (if x.result.Arr? then x.result.items else [])
  {
    FlattenAppend(rs, [x]);
    assert [x][1..] == [];
  }

  const APOLOGY := "Sorry, " + "I couldn't find what you're looking for. Try asking about a specific restaurant, menu, or promotion!"
  const NO_RESULTS := "No results found for your request."

  /** `cleanMarkdown`: the markdown rewrite passes (given as `passes`) followed by `trim`;
      empty text is returned unchanged. */
  function CleanMarkdown(text: string, passes: string -> string): (r: string)
    ensures text == "" ==> r == ""
    ensures IsTrimmed(r)
  {
    if text == "" then text else Trim(passes(text))
  }

  /** `item?.name || item?.title || "(no name)"` as rendered in a template. */
  function DisplayName(item: Value): (r: string)
    ensures !Truthy(Prop(item, "name")) && !Truthy(Prop(item, "title")) ==> r == "(no name)"
    ensures Truthy(Prop(item, "name")) ==> r == ToJsString(Prop(item, "name"))
    ensures !Truthy(Prop(item, "name")) && Truthy(Prop(item, "title")) ==> r == ToJsString(Prop(item, "title"))
  {
    ToJsString(Or(Or(Prop(item, "name"), Prop(item, "title")), Str("(no name)")))
  }

  /** `Number(v).toFixed(2)` for integers, booleans and strings of decimal digits. Every other
      value renders as "NaN" here, although JavaScript converts signed, exponent and hexadecimal
      strings, empty arrays and one-element arrays to numbers; and JavaScript writes integers
      of 10^21 and more in exponent form, which this model does not. */
  function ToFixed2(v: Value): string
  {
    match v
    case Num(n) => IntToString(n) + ".00"
    case Bool(b) => if b then "1.00" else "0.00"
    case Str(s) =>
      var t := Trim(s);
      if t == "" then "0.00" else if AllDigits(t) then NatToString(DigitsValue(t)) + ".00" else "NaN"
    case _ => "NaN"
  }

  /** `$price` when a price is present, otherwise `N% off` when a discount is, otherwise "". */
  function PriceLabel(item: Value): (r: string)
    ensures r == "" <==> IsNullish(Prop(item, "price")) && IsNullish(Prop(item, "discountPercent"))
    ensures !IsNullish(Prop(item, "price")) ==> r == "$" + ToFixed2(Prop(item, "price"))
    ensures IsNullish(Prop(item, "price")) && !IsNullish(Prop(item, "discountPercent")) ==>
              r == ToJsString(Prop(item, "discountPercent")) + "% off"
    ensures Prop(item, "price").Num? ==> r == "$" + IntToString(Prop(item, "price").n) + ".00"
  {
    if !IsNullish(Prop(item, "price")) then "$" + ToFixed2(Prop(item, "price"))
    else if !IsNullish(Prop(item, "discountPercent")) then ToJsString(Prop(item, "discountPercent")) + "% off"
    else ""
  }

  /** `- name` or `- name: label`. */
  function ItemLine(item: Value): (r: string)
    ensures |r| >= 2 && r[..2] == "- " && OccursAt(r, DisplayName(item), 2)
    ensures r == "- " + DisplayName(item) + (if PriceLabel(item) != "" then ": " + PriceLabel(item) else "")
    ensures IsNullish(Prop(item, "price")) && IsNullish(Prop(item, "discountPercent")) ==> r == "- " + DisplayName(item)
  {
    var r := "- " + DisplayName(item) + (if PriceLabel(item) != "" then ": " + PriceLabel(item) else "");
    assert r[2..2 + |DisplayName(item)|] == DisplayName(item);
    r
  }

  /** The first `n` items (`slice(0, n)`). */
  function Take(items: seq<Value>, n: nat): (r: seq<Value>)
    ensures |r| == Min(n, |items|) && r == items[..|r|]
  {
    items[..Min(n, |items|)]
  }

  function FallbackLines(items: seq<Value>): (lines: seq<string>)
    ensures |lines| == |items| && forall k :: 0 <= k < |items| ==> lines[k] == ItemLine(items[k])
  {
    seq(|items|, k requires 0 <= k < |items| => ItemLine(items[k]))
  }

  /** `generateResponse`. `llm` is the model's reply (None when the call fails); it is only
      consulted when there are results. */
  function GenerateResponse(llm: Option<string>, passes: string -> string, dbResults: seq<QueryResult>): (r: string)
    ensures |Flatten(dbResults)| == 0 ==> r == APOLOGY
    ensures |Flatten(dbResults)| > 0 && llm.Some? && Trim(llm.value) != "" ==> r == CleanMarkdown(Trim(llm.value), passes)
    ensures |Flatten(dbResults)| > 0 && (llm.None? || Trim(llm.value) == "") ==>
              r == Join(FallbackLines(Take(Flatten(dbResults), 10)), "\n")
  {
    var all := Flatten(dbResults);
    if |all| == 0 then APOLOGY
    else if llm.Some? && Trim(llm.value) != "" then CleanMarkdown(Trim(llm.value), passes)
    else Join(FallbackLines(Take(all, 10)), "\n")
  }

  /** The fallback list names each of the first ten results, each on a line starting "- ". */
  lemma FallbackNamesFirstTen(dbResults: seq<QueryResult>, k: nat)
    requires k < Min(10, |Flatten(dbResults)|)
    ensures Contains(Join(FallbackLines(Take(Flatten(dbResults), 10)), "\n"), "- " + DisplayName(Flatten(dbResults)[k]))
  {
    var items := Take(Flatten(dbResults), 10);
    var lines := FallbackLines(items);
    JoinContainsPart(lines, "\n", k);
    var line := lines[k];
    var name := DisplayName(items[k]);
    assert OccursAt(line, "- " + name, 0) by {
      assert line[..2] == "- " && line[2..2 + |name|] == name;
      assert line[..2 + |name|] == line[..2] + line[2..2 + |name|];
    }
    ContainsTransitive(Join(lines, "\n"), line, "- " + name);
  }

  /** Blank text only comes out of `generateResponse` when there were results, the model's
      reply was used and the markdown passes emptied it. */
  lemma BlankResponseNeedsResults(llm: Option<string>, passes: string -> string, dbResults: seq<QueryResult>)
    ensures Trim(GenerateResponse(llm, passes, dbResults)) == "" ==>
              |Flatten(dbResults)| > 0 && llm.Some? && Trim(llm.value) != "" && Trim(passes(Trim(llm.value))) == ""
  {
    var all := Flatten(dbResults);
    if |all| == 0 {
      assert "Sorry, "[0] == 'S';
      NotBlankWhenFirstIsNot(APOLOGY);
    } else if llm.None? || Trim(llm.value) == "" {
      FallbackNotBlank(Take(all, 10));
    }
  }

  lemma FallbackNotBlank(items: seq<Value>)
    requires |items| > 0
    ensures Trim(Join(FallbackLines(items), "\n")) != ""
  {
    var lines := FallbackLines(items);
    var r := Join(lines, "\n");
    JoinStartsWithFirst(lines, "\n");
    assert r[0] == lines[0][0] == '-';
    NotBlankWhenFirstIsNot(r);
  }

  lemma NotBlankWhenFirstIsNot(s: string)
    requires |s| > 0 && !IsSpace(s[0])
    ensures Trim(s) != ""
  {
    TrimEmptyIffBlank(s);
  }

  /** The joined text starts with the first part. */
  lemma JoinStartsWithFirst(parts: seq<string>, sep: string)
    requires |parts| > 0
    ensures |Join(parts, sep)| >= |parts[0]| && Join(parts, sep)[..|parts[0]|] == parts[0]
  {
    if |parts| > 1 {
      assert Join(parts, sep) == parts[0] + (sep + Join(parts[1..], sep));
    }
  }

  /** A `todayHours` suffix: ` (Today: open - close)` when the field is truthy. */
  function TodayHours(item: Value): string
  {
    var th := Prop(item, "todayHours");
    if Truthy(th) then " (Today: " + ToJsString(Prop(th, "open")) + " - " + ToJsString(Prop(th, "close")) + ")" else ""
  }

  /** A fallback line with history: an item's own `message` when it has one, otherwise the
      name line followed by today's hours. */
  function HistoryLine(item: Value): (r: string)
    ensures Truthy(Prop(item, "message")) ==> r == ToJsString(Prop(item, "message"))
    ensures !Truthy(Prop(item, "message")) ==> r == ItemLine(item) + TodayHours(item)
  {
    if Truthy(Prop(item, "message")) then ToJsString(Prop(item, "message"))
    else ItemLine(item) + TodayHours(item)
  }

  function HistoryLines(items: seq<Value>): (lines: seq<string>)
    ensures |lines| == |items| && forall k :: 0 <= k < |items| ==> lines[k] == HistoryLine(items[k])
  {
    seq(|items|, k requires 0 <= k < |items| => HistoryLine(items[k]))
  }

  /** `history.map(msg => ({ role: msg.role, content: msg.content }))` runs before the model
      is asked and outside any `try`: it needs an array (an absent history defaults to `[]`)
      whose entries are neither `null` nor `undefined`. */
  predicate HistoryMappable(history: Value)
  {
    history.Undefined? ||
    (history.Arr? && forall k :: 0 <= k < |history.items| ==> !IsNullish(history.items[k]))
  }

  /** `generateResponseWithHistory`: a history that cannot be mapped rejects; otherwise the
      model is asked first, even without results, and the history only shapes its prompt. */
  function GenerateResponseWithHistory(llm: Option<string>, passes: string -> string, dbResults: seq<QueryResult>,
                                       history: Value): (r: Settled<string>)
    ensures r.Rejected? <==>
              !history.Undefined? && (!history.Arr? || exists k :: 0 <= k < |history.items| && IsNullish(history.items[k]))
    ensures r.Resolved? && llm.Some? && Trim(llm.value) != "" ==> r.value == CleanMarkdown(Trim(llm.value), passes)
    ensures r.Resolved? && (llm.None? || Trim(llm.value) == "") && |Flatten(dbResults)| == 0 ==> r.value == NO_RESULTS
    ensures r.Resolved? && (llm.None? || Trim(llm.value) == "") && |Flatten(dbResults)| > 0 ==>
              r.value == Join(HistoryLines(Take(Flatten(dbResults), 10)), "\n")
  {
    if !HistoryMappable(history) then Rejected
    else if llm.Some? && Trim(llm.value) != "" then Resolved(CleanMarkdown(Trim(llm.value), passes))
    else
      var all := Flatten(dbResults);
      if |all| == 0 then Resolved(NO_RESULTS)
      else Resolved(Join(HistoryLines(Take(all, 10)), "\n"))
  }

  /** The two renderers agree on the fallback of an item without `message` or `todayHours`. */
  lemma HistoryLineExtendsItemLine(item: Value)
    requires !Truthy(Prop(item, "message")) && !Truthy(Prop(item, "todayHours"))
    ensures HistoryLine(item) == ItemLine(item)
  {
  }
}
