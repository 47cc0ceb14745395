/** The chat service: one chat turn detects a plan, runs each intent against the store's
    services, and renders a reply, falling back to a plain list of names when the rendered
    reply is blank. */
module ChatbotService {
  import opened Wrappers
  import opened Text
  import opened JsValue
  import opened AiKeyword
  import opened AiEngine

  /** The store's services as the chat service calls them: each call resolves with a value
      or rejects. Every one of them is an `async` function, so an exception inside a service
      rejects its promise rather than throwing at the call. */
  datatype Services = Services(
    findRestaurants: (Value, int) -> Settled<Value>,
    getFullMenuForRestaurant: (Value, int) -> Settled<Value>,
    findMenus: (Value, int) -> Settled<Value>,
    findPromotions: (Value, int) -> Settled<Value>,
    getOpeningHours: Value -> Settled<Value>,
    findOpeningHours: (Value, int) -> Settled<Value>,
    findPriceTier: (Value, int) -> Settled<Value>)

  const QUERY_TARGETS: seq<string> := ["restaurant", "menu", "promotion", "opening_hours", "price_tier"]

  /** `queryIntent`. Reading `restaurantName` off null filters throws synchronously inside the
      `try`, which turns it into an empty result; a service's rejection is returned, not
      awaited, so it passes through the `try` and rejects the query. */
  function QueryIntent(svc: Services, intent: Intent): (r: Settled<Value>)
    ensures !(intent.target.Str? && intent.target.s in QUERY_TARGETS) ==> r == Resolved(Arr([]))
    ensures intent.target == Str("restaurant") ==> r == svc.findRestaurants(intent.filters, intent.limit)
    ensures intent.target == Str("promotion") ==> r == svc.findPromotions(intent.filters, intent.limit)
    ensures intent.target == Str("price_tier") ==> r == svc.findPriceTier(intent.filters, intent.limit)
    ensures intent.target in {Str("menu"), Str("opening_hours")} && IsNullish(intent.filters) ==> r == Resolved(Arr([]))
    ensures intent.target == Str("menu") && !IsNullish(intent.filters) ==>
              r == if Truthy(Prop(intent.filters, "restaurantName"))
                   then svc.getFullMenuForRestaurant(Prop(intent.filters, "restaurantName"), intent.limit)
                   else svc.findMenus(intent.filters, intent.limit)
    ensures intent.target == Str("opening_hours") && !IsNullish(intent.filters) ==>
              r == if Truthy(Prop(intent.filters, "restaurantName"))
                   then svc.getOpeningHours(Prop(intent.filters, "restaurantName"))
                   else svc.findOpeningHours(intent.filters, intent.limit)
  {
    var filters := intent.filters;
    var name := Prop(filters, "restaurantName");
    match intent.target
    case Str("restaurant") => svc.findRestaurants(filters, intent.limit)
    case Str("menu") =>
      if IsNullish(filters) then Resolved(Arr([]))
      else if Truthy(name) then svc.getFullMenuForRestaurant(name, intent.limit)
      else svc.findMenus(filters, intent.limit)
    case Str("promotion") => svc.findPromotions(filters, intent.limit)
    case Str("opening_hours") =>
      if IsNullish(filters) then Resolved(Arr([]))
      else if Truthy(name) then svc.getOpeningHours(name)
      else svc.findOpeningHours(filters, intent.limit)
    case Str("price_tier") => svc.findPriceTier(filters, intent.limit)
    case _ => Resolved(Arr([]))
  }

  /** `queryIntent` as the function handed to `executeQueryGraph`. */
  function QueryFn(svc: Services): Intent -> Settled<Value>
  {
    i => QueryIntent(svc, i)
  }

  datatype ChatReply = ChatReply(detectedIntents: Plan, response: string)

  const NO_DATA := "No data found for your request."

  /** `r.name || "(no name)"`; None when `r` is null or undefined and reading `name` throws. */
  function FallbackName(item: Value): (r: Option<string>)
    ensures r.None? <==> IsNullish(item)
    ensures r.Some? && !Truthy(Prop(item, "name")) ==> r.value == "(no name)"
    ensures r.Some? && Truthy(Prop(item, "name")) ==> r.value == ToJsString(Prop(item, "name"))
  {
    if IsNullish(item) then None else Some(ToJsString(Or(Prop(item, "name"), Str("(no name)"))))
  }

  /** The names of `items`, or None when one of them throws. */
  function FallbackNames(items: seq<Value>): (r: Option<seq<string>>)
    ensures r.None? <==> exists k :: 0 <= k < |items| && IsNullish(items[k])
    ensures r.Some? ==> |r.value| == |items| && forall k :: 0 <= k < |items| ==> Some(r.value[k]) == FallbackName(items[k])
  {
    if exists k :: 0 <= k < |items| && IsNullish(items[k]) then None
    else Some(seq(|items|, k requires 0 <= k < |items| => FallbackName(items[k]).value))
  }

  /** The last step of `handleChat`: a blank `aiText` is replaced by the names of the first ten
      results, or by the no-data text when there are none. */
  function Finish(parsed: Plan, dbResults: seq<QueryResult>, aiText: string): (r: Settled<ChatReply>)
    ensures Trim(aiText) != "" ==> r == Resolved(ChatReply(parsed, aiText))
    ensures Trim(aiText) == "" && |Flatten(dbResults)| == 0 ==> r == Resolved(ChatReply(parsed, NO_DATA))
    ensures r.Rejected? <==>
              Trim(aiText) == "" && exists k :: 0 <= k < Min(10, |Flatten(dbResults)|) && IsNullish(Flatten(dbResults)[k])
    ensures Trim(aiText) == "" && |Flatten(dbResults)| > 0 && r.Resolved? ==>
              r.value.response == Join(FallbackNames(Take(Flatten(dbResults), 10)).value, "\n")
    ensures r.Resolved? ==> r.value.detectedIntents == parsed
  {
    if Trim(aiText) != "" then Resolved(ChatReply(parsed, aiText))
    else
      var flat := Flatten(dbResults);
      if |flat| == 0 then Resolved(ChatReply(parsed, NO_DATA))
      else
        var first := Take(flat, 10);
        assert forall k :: 0 <= k < |first| ==> first[k] == flat[k];
        var names := FallbackNames(first);
        if names.None? then Rejected else Resolved(ChatReply(parsed, Join(names.value, "\n")))
  }

  /** `parsed`: the detected plan, or the empty plan when detection rejects. */
  function Parsed(userMsg: Value, caps: Captures, llmIntent: Option<string>, parse: string -> Option<Value>): (p: Plan)
    ensures !userMsg.Str? ==> p == Plan([])
    ensures userMsg.Str? ==> p == DetectPlan(userMsg, caps, llmIntent, parse).value
  {
    var detected := DetectPlan(userMsg, caps, llmIntent, parse);
    if detected.Resolved? then detected.value else Plan([])
  }

  /** `dbResults`: the query graph's results, or none when one of the queries rejects. */
  function DbResults(parsed: Plan, svc: Services): (rs: seq<QueryResult>)
    ensures (exists k :: 0 <= k < |parsed.intents| && QueryIntent(svc, parsed.intents[k]).Rejected?) ==> rs == []
    ensures (forall k :: 0 <= k < |parsed.intents| ==> QueryIntent(svc, parsed.intents[k]).Resolved?) ==>
              |rs| == |parsed.intents| &&
              forall k :: 0 <= k < |rs| ==> rs[k] == QueryResult(parsed.intents[k], QueryIntent(svc, parsed.intents[k]).value)
  {
    var graph := QueryGraph(parsed.intents, QueryFn(svc));
    if graph.Resolved? then graph.value else []
  }

  /** What `handleChat` settles to. `caps`, `llmIntent` and `parse` feed intent detection
      (see `AiEngine.DetectPlan`); `llmReply` is the model's answer when the response is
      generated and `passes` the markdown clean-up. */
  function ChatTurn(userMsg: Value, caps: Captures, llmIntent: Option<string>, parse: string -> Option<Value>,
                    svc: Services, llmReply: Option<string>, passes: string -> string): (r: Settled<ChatReply>)
    ensures r.Resolved? ==> r.value.detectedIntents == Parsed(userMsg, caps, llmIntent, parse)
    ensures var parsed := Parsed(userMsg, caps, llmIntent, parse);
            var dbResults := DbResults(parsed, svc);
            r == Finish(parsed, dbResults, GenerateResponse(llmReply, passes, dbResults))
  {
    var parsed := Parsed(userMsg, caps, llmIntent, parse);
    var dbResults := DbResults(parsed, svc);
    Finish(parsed, dbResults, GenerateResponse(llmReply, passes, dbResults))
  }

  /** A message that is not a string makes detection reject; the turn carries on with the
      empty plan and answers with the apology. */
  lemma NonStringMessageGetsApology(userMsg: Value, caps: Captures, llmIntent: Option<string>, parse: string -> Option<Value>,
                                    svc: Services, llmReply: Option<string>, passes: string -> string)
    requires !userMsg.Str?
    ensures ChatTurn(userMsg, caps, llmIntent, parse, svc, llmReply, passes) == Resolved(ChatReply(Plan([]), APOLOGY))
  {
    var parsed := Parsed(userMsg, caps, llmIntent, parse);
    assert DbResults(parsed, svc) == [];
    NoResultsGivesApology(parsed, [], llmReply, passes);
  }

  /** Without results the turn settles with the apology. */
  lemma NoResultsGivesApology(parsed: Plan, dbResults: seq<QueryResult>, llmReply: Option<string>, passes: string -> string)
    requires |Flatten(dbResults)| == 0
    ensures Finish(parsed, dbResults, GenerateResponse(llmReply, passes, dbResults)) == Resolved(ChatReply(parsed, APOLOGY))
  {
    ApologyIsNotBlank();
  }

  /** `handleChat`, with `parsed`, `dbResults` and `aiText` reassigned as each step settles. */
  method HandleChat(userMsg: Value, caps: Captures, llmIntent: Option<string>, parse: string -> Option<Value>,
                    svc: Services, llmReply: Option<string>, passes: string -> string)
    returns (r: Settled<ChatReply>)
    ensures r == ChatTurn(userMsg, caps, llmIntent, parse, svc, llmReply, passes)
  {
    var parsed: Plan;
    var detected := DetectMessage(userMsg, caps, llmIntent, parse);
    if detected.Resolved? {
      parsed := detected.value;
    } else {
      parsed := Plan([]);
    }
    var dbResults: seq<QueryResult> := [];
    var graph := ExecuteQueryGraph(parsed.intents, QueryFn(svc));
    if graph.Resolved? {
      dbResults := graph.value;
    } else {
      dbResults := [];
    }
    assert parsed == Parsed(userMsg, caps, llmIntent, parse);
    assert dbResults == DbResults(parsed, svc);
    var aiText := "";
    aiText := GenerateResponse(llmReply, passes, dbResults);
    if Trim(aiText) == "" {
      var flat := Flatten(dbResults);
      if |flat| == 0 {
        aiText := NO_DATA;
      } else {
        var names := FallbackNames(Take(flat, 10));
        assert forall k :: 0 <= k < Min(10, |flat|) ==> Take(flat, 10)[k] == flat[k];
        if names.None? {
          return Rejected;
        }
        aiText := Join(names.value, "\n");
      }
    }
    return Resolved(ChatReply(parsed, aiText));
  }

  lemma ApologyIsNotBlank()
    ensures Trim(APOLOGY) != ""
  {
    assert "Sorry, "[0] == 'S';
    NotBlankWhenFirstIsNot(APOLOGY);
  }

  /** The open-now and open-at intents the classifier produces have no case in `queryIntent`:
      they are answered with an empty result, so such a question gets the apology. */
  lemma OpenQuestionsGetNoRows(svc: Services, intent: Intent)
    requires intent.target in {Str("open_now"), Str("is_open_now"), Str("open_at")}
    ensures QueryIntent(svc, intent) == Resolved(Arr([]))
  {
  }

  /** When every intent of the plan is answered with an empty result, the response is the
      apology, whatever the model would say. */
  lemma NoRowsGivesApology(parsed: Plan, svc: Services, llmReply: Option<string>, passes: string -> string)
    requires forall k :: 0 <= k < |parsed.intents| ==> QueryIntent(svc, parsed.intents[k]) == Resolved(Arr([]))
    ensures var rs := DbResults(parsed, svc);
            Finish(parsed, rs, GenerateResponse(llmReply, passes, rs)) == Resolved(ChatReply(parsed, APOLOGY))
  {
    var rs := DbResults(parsed, svc);
    assert QueryGraph(parsed.intents, QueryFn(svc)).Resolved?;
    assert forall k :: 0 <= k < |rs| ==> rs[k].result == Arr([]);
    FlattenOfEmptyResults(rs);
    NoResultsGivesApology(parsed, rs, llmReply, passes);
  }

  /** A message the classifier answers with an open-now or open-at intent gets the apology. */
  lemma OpenNowGetsApology(msg: string, caps: Captures, llmIntent: Option<string>, parse: string -> Option<Value>,
                           svc: Services, llmReply: Option<string>, passes: string -> string)
    requires KeywordIntent(msg, caps).Some?
    requires KeywordIntent(msg, caps).value.intents[0].target in {Str("open_now"), Str("is_open_now"), Str("open_at")}
    ensures ChatTurn(Str(msg), caps, llmIntent, parse, svc, llmReply, passes) == Resolved(ChatReply(KeywordIntent(msg, caps).value, APOLOGY))
  {
    var parsed := Parsed(Str(msg), caps, llmIntent, parse);
    assert parsed == KeywordIntent(msg, caps).value;
    OpenQuestionsGetNoRows(svc, parsed.intents[0]);
    NoRowsGivesApology(parsed, svc, llmReply, passes);
  }

  /** One rejected query empties the whole result list, so the response is the apology, even
      when other intents did find rows. */
  lemma RejectedQueryGivesApology(userMsg: Value, caps: Captures, llmIntent: Option<string>, parse: string -> Option<Value>,
                                  svc: Services, llmReply: Option<string>, passes: string -> string, k: nat)
    requires var p := Parsed(userMsg, caps, llmIntent, parse);
             k < |p.intents| && QueryIntent(svc, p.intents[k]).Rejected?
    ensures ChatTurn(userMsg, caps, llmIntent, parse, svc, llmReply, passes) ==
              Resolved(ChatReply(Parsed(userMsg, caps, llmIntent, parse), APOLOGY))
  {
    var parsed := Parsed(userMsg, caps, llmIntent, parse);
    assert DbResults(parsed, svc) == [];
    NoResultsGivesApology(parsed, [], llmReply, passes);
  }

  /** The no-data text is never the fallback's choice: a blank generated text needs results
      (the apology is given when there are none), so that branch is unreachable. */
  lemma NoDataBranchUnreachable(llmReply: Option<string>, passes: string -> string, parsed: Plan, dbResults: seq<QueryResult>)
    ensures var aiText := GenerateResponse(llmReply, passes, dbResults);
            Trim(aiText) == "" ==> |Flatten(dbResults)| > 0
  {
    BlankResponseNeedsResults(llmReply, passes, dbResults);
  }

  /** A chat turn rejects only when the model's answer was cleaned down to blank text. */
  lemma RejectsOnlyOnBlankCleanup(userMsg: Value, caps: Captures, llmIntent: Option<string>, parse: string -> Option<Value>,
                                  svc: Services, llmReply: Option<string>, passes: string -> string)
    ensures ChatTurn(userMsg, caps, llmIntent, parse, svc, llmReply, passes).Rejected? ==>
              llmReply.Some? && Trim(passes(Trim(llmReply.value))) == ""
  {
    var parsed := Parsed(userMsg, caps, llmIntent, parse);
    BlankResponseNeedsResults(llmReply, passes, DbResults(parsed, svc));
  }

  /** A blank reply gets through: when the clean-up empties the model's answer and the first
      result is named with spaces only, the fallback list is itself blank. */
  lemma BlankNameGivesBlankReply(parsed: Plan, intent: Intent)
    ensures var dbResults := [QueryResult(intent, Arr([Obj(map["name" := Str(" ")])]))];
            Finish(parsed, dbResults, GenerateResponse(Some("x"), _ => "", dbResults)) == Resolved(ChatReply(parsed, " "))
  {
    var item := Obj(map["name" := Str(" ")]);
    var dbResults := [QueryResult(intent, Arr([item]))];
    FlattenOne(intent, item);
    assert !IsSpace('x');
    CleanedToBlank(dbResults, "x", _ => "");
    BlankNameFallback(parsed, dbResults, item);
  }

  lemma {:induction false} FlattenOfEmptyResults(rs: seq<QueryResult>)
    requires forall k :: 0 <= k < |rs| ==> rs[k].result == Arr([])
    ensures Flatten(rs) == []
  {
    if |rs| > 0 {
      FlattenOfEmptyResults(rs[1..]);
    }
  }

  lemma FlattenOne(intent: Intent, item: Value)
    ensures Flatten([QueryResult(intent, Arr([item]))]) == [item]
  {
    var rs := [QueryResult(intent, Arr([item]))];
    assert rs[1..] == [];
  }

  lemma CleanedToBlank(dbResults: seq<QueryResult>, reply: string, passes: string -> string)
    requires |Flatten(dbResults)| > 0 && reply != "" && IsTrimmed(reply) && passes(reply) == ""
    ensures GenerateResponse(Some(reply), passes, dbResults) == ""
  {
    TrimOfTrimmed(reply);
    assert Trim(reply) == reply;
    TrimOfTrimmed("");
    assert CleanMarkdown(reply, passes) == "";
  }

  lemma BlankNameFallback(parsed: Plan, dbResults: seq<QueryResult>, item: Value)
    requires item == Obj(map["name" := Str(" ")]) && Flatten(dbResults) == [item]
    ensures Finish(parsed, dbResults, "") == Resolved(ChatReply(parsed, " "))
  {
    var flat := Flatten(dbResults);
    assert Take(flat, 10) == [item] by {
      assert Min(10, |flat|) == 1;
    }
    BlankNameList(item);
    FinishWithNames(parsed, dbResults, [" "]);
    assert Join([" "], "\n") == " ";
  }

  lemma FinishWithNames(parsed: Plan, dbResults: seq<QueryResult>, names: seq<string>)
    requires |Flatten(dbResults)| > 0 && FallbackNames(Take(Flatten(dbResults), 10)) == Some(names)
    ensures Finish(parsed, dbResults, "") == Resolved(ChatReply(parsed, Join(names, "\n")))
  {
    TrimOfTrimmed("");
  }

  lemma BlankNameList(item: Value)
    requires item == Obj(map["name" := Str(" ")])
    ensures FallbackNames([item]) == Some([" "])
  {
    var names := FallbackNames([item]);
    assert !IsNullish([item][0]);
    assert names.Some? && |names.value| == 1;
    assert Prop(item, "name") == Str(" ");
    assert Some(names.value[0]) == FallbackName(item) == Some(" ");
    assert names.value == [" "];
  }
}
