# AI restaurant chatbot: a Dafny model of its message pipeline

This project models the deterministic core of a restaurant chatbot for Cambodia and proves properties of it. The model is written in Dafny 4.11.

The chatbot's JavaScript backend handles one chat turn in five steps:

1. **Intent detection.** A priority-ordered keyword classifier looks at the user's message. When no keyword group fires, a language model is asked for a JSON plan instead, and its reply is sliced and coerced.
2. **Dispatch.** Each intent of the plan goes to the service that handles its target.
3. **Query building.** The restaurant, menu, promotion and opening-hours services turn loose filter maps into store queries. They resolve restaurant names exact-match first, then partial.
4. **Response.** The language model writes the reply. When it fails, a plain-text list of the results is rendered instead.
5. **Blank guard.** A blank reply is replaced by the result names.

Beside the pipeline, the project models:

- the two canned-reply rule engines (one in JavaScript, one in Python);
- the chat window's formatter, which turns a bot message into paragraphs, breaks and lists with bold and italic runs;
- the seeder's clock arithmetic and random-draw helpers.

## How the model is built

**Modules.** There is one module per source file:

| Module | Source file |
|---|---|
| `AiKeyword`, `AiNames`, `AiEngine` | `ai_engine.js` |
| `RuleEngine` | `rule_engine.js` |
| `ChatbotService` | `chatbot_service.js` |
| `RestaurantService` | `restaurant_service.js` |
| `MenuService` | `menu_service.js` |
| `PromotionService` | `promotion_service.js` |
| `OpenHourService` | `open_hour_service.js` |
| `ChatFormat` | `ChatBoxUI.jsx` |
| `PyRuleEngine` | `rule_engine.py` |
| `Seeder` | `fullSeeder.js` |

Four shared modules support them:

- `Wrappers`: `Option`, and `Settled`, which says whether a promise resolves or rejects.
- `Text`: the JavaScript string built-ins.
- `JsValue`: dynamically typed values, with truthiness, property access and `String()`.
- `Store`: the collections as sequences of records, `findOne`, and `.limit`.

**Style.** The form follows each source function:

- Code that updates variables step by step is a `method` with loops and invariants. Each such method is proved equal to a specification function, and the properties are lemmas about that function. Examples are the classifier, the name-pattern scan, the query builders, `handleChat`, the `formatInline` loop, and the `Formatter` class with the closures' shared state.
- Code that only computes a value is a function.

**What becomes a parameter.** Everything the core cannot see becomes a parameter of the model:

- the language model's replies, as text or a failure;
- `JSON.parse`;
- the group-1 captures of the restaurant-name regexes;
- `cleanMarkdown`'s regex passes;
- the services' settled results, as `queryIntent` sees them;
- `Math.random` draws;
- the clock reading `now`.

## Model

| member | source | states |
|---|---|---|
| AiNames.NormalizeName | Backend/src/modules/ai_engine.js:29-35 | the normalised name is trimmed, never longer than the input, and "" stays "" (falsy input is returned as is) |
| AiNames.NormalizeNameExamples | Backend/src/modules/ai_engine.js:26-28 | the two documented examples hold: "KFC's" and "the KFC" both normalise to "KFC" |
| AiNames.DropPossessive | Backend/src/modules/ai_engine.js:32 | removing every possessive `'s` followed by a word boundary never lengthens the text |
| AiNames.DropPossessiveKeeps | Backend/src/modules/ai_engine.js:32 | only characters of the name are kept, and every character other than an apostrophe or an `s` keeps its number of occurrences |
| AiNames.DropPossessivePairs | Backend/src/modules/ai_engine.js:32 | removal goes by `'s` pairs: the text shrinks by exactly two characters per apostrophe removed |
| AiNames.NoApostropheKept | Backend/src/modules/ai_engine.js:32 | a text without an apostrophe is left unchanged by the possessive pass |
| AiNames.PossessiveOfKfc | Backend/src/modules/ai_engine.js:32 | the possessive pass turns "KFC's" into "KFC" |
| AiNames.ArticleLength | Backend/src/modules/ai_engine.js:33 | the prefix length is non-zero exactly when the name starts with "the", "a" or "an" (any case) and white space; it then ends after all of that white space, so `\s+` is matched greedily |
| AiNames.DropArticle | Backend/src/modules/ai_engine.js:33 | the name is kept exactly when it starts with no article and white space; otherwise what remains is the text after the article and all its following white space, which starts with a non-space |
| AiNames.ArticleOfTheKfc | Backend/src/modules/ai_engine.js:32-33 | "the KFC" has no possessive, and its article is removed to give "KFC" |
| AiNames.SuffixWordAt | Backend/src/modules/ai_engine.js:34 | a positive length is that of a suffix word occurring there (letter case ignored), and zero means no suffix word starts there |
| AiNames.DropSuffixWords | Backend/src/modules/ai_engine.js:34 | removing the suffix words with their surrounding white space never lengthens the text |
| AiNames.DropSuffixWordsKeepsPlain | Backend/src/modules/ai_engine.js:34 | a text in which no suffix word occurs at any position is kept unchanged |
| AiNames.DropSuffixWordsKeepsPrefix | Backend/src/modules/ai_engine.js:34 | a leading stretch without white space and without suffix words is kept, and only the rest is rewritten |
| AiNames.TrailingMenuDropped | Backend/src/modules/ai_engine.js:34 | for every name without white space or suffix words, `name + " menu"` becomes `name` |
| AiNames.KeepsFirstCharThen | Backend/src/modules/ai_engine.js:34 | a first character that is neither white space nor the start of a suffix word is kept, and the scan goes on after it |
| AiNames.KfcIsNormal | Backend/src/modules/ai_engine.js:33-35 | "KFC" has no article, no suffix word and no surrounding white space, so the last three passes keep it |
| AiKeyword.OpenNowName | Backend/src/modules/ai_engine.js:47-55 | a name extracted from an open-now question is not empty, is trimmed, and is not one of the stop words |
| AiKeyword.OpenAtAt | Backend/src/modules/ai_engine.js:62 | a match of the open-at pattern at a position starts with "open" and carries a one- or two-digit hour, optional two-digit minutes and an optional "am"/"pm" |
| AiKeyword.HourEnd | Backend/src/modules/ai_engine.js:62 | the hour `\d{1,2}` spans one or two digits and is greedy: it stops short of two digits only at the end of the text or before a non-digit |
| AiKeyword.MinutesAt | Backend/src/modules/ai_engine.js:62 | the minutes group is present exactly when a colon and two digits follow the hour, and is then those two digits |
| AiKeyword.FindOpenAt | Backend/src/modules/ai_engine.js:62 | no match is found exactly when the pattern matches at no position, and a match found is well formed |
| AiKeyword.FindOpenAtLeftmost | Backend/src/modules/ai_engine.js:62 | the match found is the one at the leftmost position where the pattern matches |
| AiKeyword.ConnectorEnd | Backend/src/modules/ai_engine.js:62 | the connector, one of "at", "around" and "by", is absent exactly when none of the three words starts at the position, and otherwise ends after the word that does |
| AiKeyword.OpenAtAtMatches | Backend/src/modules/ai_engine.js:62 | the pattern matches at a position exactly when "open", at least one white space, a connector, at least one white space and a digit follow there; the match is then read from that digit |
| AiKeyword.TimeAt | Backend/src/modules/ai_engine.js:62 | the groups read from a digit form a well-formed match |
| AiKeyword.AmPmAt | Backend/src/modules/ai_engine.js:62 | the suffix group is present exactly when "am" or "pm" starts at the position, and is then that word |
| AiKeyword.SevenPmMatch | Backend/src/modules/ai_engine.js:62 | "open at 7pm" matches at its start with hour "7", no minutes and "pm" |
| AiKeyword.SevenPmFound | Backend/src/modules/ai_engine.js:62 | in "open at 7pm" the match found is the one at its start |
| AiKeyword.SevenPmTime | Backend/src/modules/ai_engine.js:64-71 | hour "7" with "pm" gives the time filter "19:00" |
| AiKeyword.MidnightTime | Backend/src/modules/ai_engine.js:64-71 | hour "12" with "am" gives the time filter "00:00" |
| AiKeyword.NoSpaceNoMatch | Backend/src/modules/ai_engine.js:62 | "openat 7" does not match: "open" must be followed by white space |
| AiKeyword.Clock24 | Backend/src/modules/ai_engine.js:68-69 | an hour from 1 to 12 with a suffix becomes an hour of the 24-hour clock (below 24) |
| AiKeyword.ConvertHourIsClock24 | Backend/src/modules/ai_engine.js:68-69 | with "am" or "pm" and an hour from 1 to 12, the hour conversion is the 24-hour clock conversion |
| AiKeyword.OpenAtTimeIsClockTime | Backend/src/modules/ai_engine.js:64-71 | the time filter is "HH:MM": the minutes default to "00"; with a suffix, HH is the 24-hour clock hour; without one, HH is the hour as written, zero-padded |
| AiKeyword.OpenAtTimeShape | Backend/src/modules/ai_engine.js:64-71 | the time filter is five characters, two digits worth the converted hour, a colon and the minutes |
| AiKeyword.OpenAtTimeVerbatim | Backend/src/modules/ai_engine.js:64-71 | without "am"/"pm" the hour is kept as written, zero-padded to two digits |
| AiKeyword.OpenAtTimeOf | Backend/src/modules/ai_engine.js:64-71 | reassigning `hour` step by step yields exactly the time filter of the specification |
| AiKeyword.OpenNowGroupIntent | Backend/src/modules/ai_engine.js:44-58 | an open-now question gives one `is_open_now` intent, limit 1, filtered only by the usable name captured, and without such a name one `open_now` intent with empty filters and limit 10 |
| AiKeyword.OpenAtGroupIntent | Backend/src/modules/ai_engine.js:62-73 | when no open-now keyword occurs and the open-at pattern matches the lower-cased message, the plan is one `open_at` intent, limit 10, whose only filter `time` is the time computed from the leftmost match |
| AiKeyword.RecommendGroupIntent | Backend/src/modules/ai_engine.js:75-77 | a recommendation question reached after the open-now and open-at tests gives one `restaurant` intent with empty filters and limit 5 |
| AiKeyword.PromotionGroupIntent | Backend/src/modules/ai_engine.js:79-81 | a promotion question reached after the earlier groups gives one `promotion` intent with empty filters and limit 10 |
| AiKeyword.MenuGroupIntent | Backend/src/modules/ai_engine.js:84-108 | a menu question reached after the earlier groups gives one `menu` intent, limit 20, filtered only by the first usable captured name, or unfiltered without one |
| AiKeyword.HoursGroupIntent | Backend/src/modules/ai_engine.js:111-136 | an opening-hours question reached after the earlier groups gives one `opening_hours` intent, limit 5, filtered only by the first usable captured name, or unfiltered without one |
| AiKeyword.Candidates | Backend/src/modules/ai_engine.js:96-99 | each name pattern's capture yields its own candidate, in pattern order |
| AiKeyword.FirstNameCorrect | Backend/src/modules/ai_engine.js:96-105 | no name is extracted exactly when no pattern yields a usable candidate; otherwise the name is the candidate of the first pattern that does |
| AiKeyword.FirstUsableNone | Backend/src/modules/ai_engine.js:123-133 | the first-usable search finds nothing exactly when no candidate is usable (a JavaScript `length`, in UTF-16 code units, above one, and not a stop word) |
| AiKeyword.FirstUsableFirst | Backend/src/modules/ai_engine.js:123-133 | a candidate found is usable and no earlier candidate is |
| AiKeyword.ScanNames | Backend/src/modules/ai_engine.js:96-105 | the pattern loop with its early `break` returns the first usable candidate |
| AiKeyword.PriceTier | Backend/src/modules/ai_engine.js:142-150 | a tier is one of the schema's four tiers, and BUDGET, LUXURY, PREMIUM and MID_RANGE are chosen exactly when one of their words occurs and no earlier tier's word does; no tier exactly when no tier word occurs |
| AiKeyword.PriceGroupIntent | Backend/src/modules/ai_engine.js:139-158 | a price question with a tier gives one `restaurant` intent, limit 10, whose only filter is `priceTier` set to the tier PriceTier finds in priority order; without a tier it gives `price_tier` with empty filters and limit 5 |
| AiKeyword.CuisineFrom | Backend/src/modules/ai_engine.js:180-184 | no cuisine filters are found exactly when no table keyword occurs; found filters are those of an entry whose keyword occurs |
| AiKeyword.CuisineFromFirst | Backend/src/modules/ai_engine.js:180-184 | the filters found are those of the first entry, in table order, whose keyword occurs |
| AiKeyword.MatchCuisine | Backend/src/modules/ai_engine.js:180-184 | the loop that returns on its first hit computes the cuisine specification |
| AiKeyword.CollectTagsCorrect | Backend/src/modules/ai_engine.js:294-301 | the collected ambience tags are free of duplicates, and a tag is collected exactly when one of its keywords occurs |
| AiKeyword.CollectTagsAppendOnly | Backend/src/modules/ai_engine.js:294-301 | tags are only appended as the table is walked, so they come out in table order of first occurrence |
| AiKeyword.CollectAmbience | Backend/src/modules/ai_engine.js:294-301 | the loop that pushes unseen tags computes the tag specification |
| AiKeyword.NoTagsIff | Backend/src/modules/ai_engine.js:294-306 | no tag is collected exactly when no ambience keyword occurs |
| AiKeyword.PrivateRoomMeansIntimate | Backend/src/modules/ai_engine.js:241 | asking for a private room or private dining always brings the "intimate" tag, since "private" is itself a keyword |
| AiKeyword.AmbienceGroupIntent | Backend/src/modules/ai_engine.js:303-316 | an ambience question gives one `restaurant` intent with limit 10: one tag is a string, several a list, `hasPrivateRooms: true` is present exactly when a private room or dining is asked for, and no other filter is set |
| AiKeyword.KeywordIntent | Backend/src/modules/ai_engine.js:41-318 | the classifier returns null or a plan with exactly one intent whose filters are an object |
| AiKeyword.DetectIntentByKeyword | Backend/src/modules/ai_engine.js:41-318 | the statement-by-statement classifier computes the classifier specification, groups tried in the order open-now, open-at, recommend, promotion, menu, opening-hours, price, cuisine, ambience |
| AiKeyword.KeywordIntentNoneIff | Backend/src/modules/ai_engine.js:41-318 | the classifier gives null exactly when no group's keyword occurs, the open-at pattern does not match and no private room is asked for |
| AiKeyword.FoodEntriesNeverFire | Backend/src/modules/ai_engine.js:84 | a message without any menu keyword contains none of "fast food", "street food", "seafood", since each contains "food" |
| AiKeyword.OtherGroupsFilters | Backend/src/modules/ai_engine.js:41-318 | unless the cuisine table decides, the intent's filters have no `type` or `cuisine` key |
| AiKeyword.CuisineGroupIntent | Backend/src/modules/ai_engine.js:161-184 | a question reaching the cuisine table gives one `restaurant` intent, limit 10, with the filters of the first table entry whose keyword occurs |
| AiKeyword.CuisineGroupFilters | Backend/src/modules/ai_engine.js:161-184 | when the cuisine table decides, it does so through an entry other than the three "food" entries |
| AiKeyword.OtherEntryFilters | Backend/src/modules/ai_engine.js:161-178 | every other cuisine entry's filters differ from those of "fast food", "street food" and "seafood" |
| AiKeyword.FoodEntryKeys | Backend/src/modules/ai_engine.js:162-172 | the three "food" entries filter on `type` or `cuisine` |
| AiKeyword.DeadCuisineEntries | Backend/src/modules/ai_engine.js:161-184 | no message is ever classified with the fast-food, street-food or seafood filters: those entries are dead |
| AiEngine.JsonSliceShape | Backend/src/modules/ai_engine.js:362-369 | without both braces the reply is kept whole; with a `{` before the last `}` it is cut to a substring that starts with `{` and ends with `}` |
| AiEngine.CutToBraces | Backend/src/modules/ai_engine.js:362-369 | reassigning `text` gives the brace slice of the trimmed reply |
| AiEngine.CoerceIntent | Backend/src/modules/ai_engine.js:377-381 | an element throws exactly when it is null or undefined; otherwise its target is kept, non-object filters become `{}`, and a non-number limit becomes 20 |
| AiEngine.CoerceAll | Backend/src/modules/ai_engine.js:377-381 | the `map` throws exactly when some element is null or undefined, and otherwise coerces each element in place |
| AiEngine.PlanFromCompletion | Backend/src/modules/ai_engine.js:362-387 | a parse failure, a null or undefined result, a non-array `intents` or a null element gives the empty plan; otherwise the plan is the coerced `intents`, element by element; all filters are objects |
| AiEngine.PlanFromReply | Backend/src/modules/ai_engine.js:362-387 | after the model answers, detection always resolves (never throws) with the plan read from the reply |
| AiEngine.DetectPlan | Backend/src/modules/ai_engine.js:325-388 | detection rejects exactly when the message is not a string; a keyword hit is the plan; without a hit a failed model call gives the empty plan, and otherwise the plan read from the reply |
| AiEngine.DetectMessage | Backend/src/modules/ai_engine.js:325-388 | the keyword-first, model-second procedure settles as the detection specification |
| AiEngine.KeywordHitSkipsModel | Backend/src/modules/ai_engine.js:327-328 | a keyword hit is returned as is, whatever the model would answer or the parser would read |
| AiEngine.NoIntentsArrayGivesEmptyPlan | Backend/src/modules/ai_engine.js:373-375 | a reply parsed to something without an `intents` array yields `{intents: []}` |
| AiEngine.ExecuteQueryGraph | Backend/src/modules/ai_engine.js:393-402 | the result resolves exactly when every query resolves, and then pairs the i-th intent with its own query's value, one entry per intent, in input order |
| AiEngine.Flatten | Backend/src/modules/ai_engine.js:408-410 | a value is among the flattened results exactly when some query result is an array holding it; non-array results are ignored |
| AiEngine.FlattenAppend | Backend/src/modules/ai_engine.js:408-410 | flattening keeps order and repetitions: the items of two result lists, one after the other |
| AiEngine.FlattenSnoc | Backend/src/modules/ai_engine.js:408-410 | one more result appends exactly its array's items, in order, and nothing when it is not an array |
| AiEngine.CleanMarkdown | Backend/src/modules/ai_engine.js:9-23 | the cleaned text is trimmed, and empty text stays empty |
| AiEngine.DisplayName | Backend/src/modules/ai_engine.js:450 | the displayed name is `name` when truthy, else `title` when truthy, else "(no name)" |
| AiEngine.PriceLabel | Backend/src/modules/ai_engine.js:451-456 | the label is "$" and `toFixed(2)` of the price when a price is present (so an integer price n gives "$n.00"), otherwise "N% off" when a discount is present, and empty exactly when both are null or undefined: the price wins over the discount |
| AiEngine.ItemLine | Backend/src/modules/ai_engine.js:451-458 | a fallback line is "- " and the displayed name, followed by ": " and the price label when that label is not empty; just "- name" when neither price nor discount is present |
| AiEngine.Take | Backend/src/modules/ai_engine.js:449 | `slice(0, n)` keeps the first min(n, length) items |
| AiEngine.FallbackLines | Backend/src/modules/ai_engine.js:449-459 | one fallback line per item, in order |
| AiEngine.GenerateResponse | Backend/src/modules/ai_engine.js:407-460 | no results give the fixed apology before any model call; a non-blank model reply is cleaned; otherwise the first ten items are listed one per line |
| AiEngine.FallbackNamesFirstTen | Backend/src/modules/ai_engine.js:449-459 | each of the first ten results appears in the fallback text as "- " followed by its name |
| AiEngine.FallbackNotBlank | Backend/src/modules/ai_engine.js:449-459 | the fallback list of a non-empty result set is never blank |
| AiEngine.BlankResponseNeedsResults | Backend/src/modules/ai_engine.js:407-460 | a blank response only comes out when there were results and the model's non-blank reply was cleaned down to nothing |
| AiEngine.HistoryLine | Backend/src/modules/ai_engine.js:522-538 | with history, an item's own truthy `message` is its line; otherwise the plain fallback line plus a today-hours suffix |
| AiEngine.HistoryLines | Backend/src/modules/ai_engine.js:522-539 | one history line per item, in order |
| AiEngine.GenerateResponseWithHistory | Backend/src/modules/ai_engine.js:466-539 | it rejects exactly when `history` is given but is not an array, or holds `null` or `undefined`; otherwise the model is asked first, and without its reply no results give "No results found for your request." and otherwise the first ten items are listed |
| AiEngine.HistoryLineExtendsItemLine | Backend/src/modules/ai_engine.js:522-538 | for an item without `message` or `todayHours`, both renderers produce the same line |
| RuleEngine.DetectSimpleMessage | Backend/src/modules/rule_engine.js:19-25 | null or undefined input gets no reply; the greeting reply comes exactly when the text greets, thanks only without a greeting, help only without both, and null when none applies |
| RuleEngine.NullishIsEmpty | Backend/src/modules/rule_engine.js:19 | a missing message is matched as the empty text |
| RuleEngine.NoGreetingInEmpty | Backend/src/modules/rule_engine.js:5-7 | the empty text does not greet |
| RuleEngine.NoThanksInEmpty | Backend/src/modules/rule_engine.js:8-10 | the empty text does not thank |
| RuleEngine.NoHelpInEmpty | Backend/src/modules/rule_engine.js:11-13 | the empty text does not ask for help |
| RuleEngine.PlainText | Backend/src/modules/rule_engine.js:19 | a trimmed text without upper-case letters is matched as it is |
| RuleEngine.GreetsAt | Backend/src/modules/rule_engine.js:5-7 | "hi" anywhere in a plain text, followed by a non-word character or the end, makes the greeting reply |
| RuleEngine.GreetingNeedsNoLeadingBoundary | Backend/src/modules/rule_engine.js:5-7 | "chi" is greeted: the pattern has no word boundary before the word |
| RuleEngine.GreetingNeedsTrailingBoundary | Backend/src/modules/rule_engine.js:5-7 | "hip" is not greeted: the word boundary after the word is required |
| RuleEngine.GreetingBeatsThanks | Backend/src/modules/rule_engine.js:21-23 | a message that greets, thanks and asks for help gets the greeting reply |
| RuleEngine.HandleRule | Backend/src/modules/rule_engine.js:31-35 | a truthy `err` gives the database-error reply whatever `data` is; otherwise the no-match reply comes exactly when `data` is an empty array, and null otherwise |
| PyRuleEngine.FirstRuleCorrect | Chatbot/modules/rule_engine.py:12-16 | the table search finds nothing exactly when no keyword occurs, and otherwise returns the reply of the first rule whose keyword occurs |
| PyRuleEngine.GetRuleBasedResponse | Chatbot/modules/rule_engine.py:2-16 | None exactly when no keyword occurs in the lower-cased input; otherwise the reply paired with the first keyword, in the order hello, menu, hours, location, contact |
| PyRuleEngine.FirstMatchUnique | Chatbot/modules/rule_engine.py:12-14 | at most one rule is the first match |
| PyRuleEngine.ReplyOfFirstMatch | Chatbot/modules/rule_engine.py:14 | the reply is exactly the value paired with the winning keyword |
| PyRuleEngine.CaseInsensitive | Chatbot/modules/rule_engine.py:13 | the reply does not depend on the input's letter case |
| PyRuleEngine.HelloBeatsMenu | Chatbot/modules/rule_engine.py:3-14 | a message naming both "hello" and "menu" gets the hello reply |
| ChatbotService.QueryIntent | Backend/src/services/chatbot_service.js:14-40 | `restaurant`, `promotion` and `price_tier` go to their services with the intent's filters and limit; `menu` and `opening_hours` use the by-name service exactly when `restaurantName` is truthy; null filters there and any other target give `[]` |
| ChatbotService.OpenQuestionsGetNoRows | Backend/src/services/chatbot_service.js:33-34 | the `open_now`, `is_open_now` and `open_at` intents the classifier emits always get `[]` |
| ChatbotService.FallbackName | Backend/src/services/chatbot_service.js:79 | a result's fallback name throws exactly when the result is null or undefined; it is the name as a string when the name is truthy and "(no name)" otherwise |
| ChatbotService.FallbackNames | Backend/src/services/chatbot_service.js:79 | the names of the results, in order, or a throw when one of them is null or undefined |
| ChatbotService.Finish | Backend/src/services/chatbot_service.js:76-86 | a non-blank text is the response; a blank one becomes "No data found for your request." without results and otherwise the fallback names of the first ten results joined by line feeds; the turn rejects only when such a name read throws |
| ChatbotService.Parsed | Backend/src/services/chatbot_service.js:47-53 | for a string message the plan is the detected one; a rejected detection (non-string message) becomes the empty plan |
| ChatbotService.DbResults | Backend/src/services/chatbot_service.js:58-64 | when every query resolves, the results are the intents in order, each paired with its query's value; one rejected service promise replaces all results by `[]` |
| ChatbotService.ChatTurn | Backend/src/services/chatbot_service.js:45-87 | the turn settles as the last step applied to the detected plan, its results and the generated text, and a resolved turn reports the detected plan |
| ChatbotService.HandleChat | Backend/src/services/chatbot_service.js:45-87 | reassigning `parsed`, `dbResults` and `aiText` step by step settles as the turn specification |
| ChatbotService.NonStringMessageGetsApology | Backend/src/services/chatbot_service.js:47-53 | a non-string message is answered with the empty plan and the apology |
| ChatbotService.NoResultsGivesApology | Backend/src/services/chatbot_service.js:68-81 | without results the turn settles with the apology |
| ChatbotService.NoRowsGivesApology | Backend/src/services/chatbot_service.js:58-81 | when every intent is answered with an empty list, the response is the apology |
| ChatbotService.OpenNowGetsApology | Backend/src/services/chatbot_service.js:33-34 | an open-now or open-at question classified by keywords is answered with the apology |
| ChatbotService.RejectedQueryGivesApology | Backend/src/services/chatbot_service.js:58-64 | one rejected query makes the whole response the apology, even when other intents had rows |
| ChatbotService.NoDataBranchUnreachable | Backend/src/services/chatbot_service.js:76-81 | a blank generated text implies there were results, so "No data found" is never chosen |
| ChatbotService.RejectsOnlyOnBlankCleanup | Backend/src/services/chatbot_service.js:76-81 | a turn rejects only when the model's reply was cleaned down to blank text |
| ChatbotService.BlankNameGivesBlankReply | Backend/src/services/chatbot_service.js:76-81 | the guard lets a blank response through: a reply cleaned to nothing with a single result named " " gives the response " " |
| ChatbotService.ApologyIsNotBlank | Backend/src/modules/ai_engine.js:414 | the apology text is not blank |
| RestaurantService.AsList | Backend/src/services/restaurant_service.js:24 | an array is used as is, and any other value becomes a one-element list |
| RestaurantService.FindRestaurantsQuery | Backend/src/services/restaurant_service.js:4-47 | building the query key by key gives the query of the filters (name, type, category, ambience, cuisine, hasPrivateRooms, priceTier, status), and null filters throw |
| RestaurantService.AddName | Backend/src/services/restaurant_service.js:8-12 | a truthy name always becomes a case-insensitive pattern; the passthrough branch cannot be taken |
| RestaurantService.AddAmbienceAndCuisine | Backend/src/services/restaurant_service.js:23-35 | an ambience becomes a list of accepted values; a "romantic" cuisine, in any case, overwrites it with ["romantic"] and adds no cuisine; any other truthy cuisine becomes a pattern |
| RestaurantService.NoFiltersNoConditions | Backend/src/services/restaurant_service.js:5-44 | filters without any recognised key give the empty query |
| RestaurantService.FalsePrivateRoomsKept | Backend/src/services/restaurant_service.js:38-44 | `hasPrivateRooms: false` is kept as a condition, while a false `priceTier` or `status` is dropped |
| RestaurantService.RomanticOverridesAmbience | Backend/src/services/restaurant_service.js:29-35 | a "romantic" cuisine replaces any ambience filter and adds no cuisine condition |
| RestaurantService.FindByAmbienceQuery | Backend/src/services/restaurant_service.js:52-55 | the query holds only an ambience condition accepting the given types |
| RestaurantService.AmbienceSearchIsFindByAmbience | Backend/src/services/restaurant_service.js:23-26 | searching with nothing but an ambience filter builds the `findByAmbience` query |
| RestaurantService.LeastExists | Backend/src/services/restaurant_service.js:68 | every non-empty set of ambience names has a least element in the sort order |
| RestaurantService.GetAllAmbienceTypes | Backend/src/services/restaurant_service.js:60-69 | the list is strictly ascending (so duplicate-free) and holds exactly the ambiences some restaurant lists |
| RestaurantService.GetByName | Backend/src/services/restaurant_service.js:71-83 | a falsy name finds nothing; an exact case-insensitive match is preferred to a partial one; nothing is found only when no name contains the pattern |
| RestaurantService.PartialAfterExact | Backend/src/services/restaurant_service.js:74-80 | "KFC" finds "KFC Cambodia" when no restaurant is called exactly "KFC" |
| RestaurantService.FindTier | Backend/src/services/restaurant_service.js:87 | no document is found exactly when none has the tier, and otherwise the first one with that tier |
| RestaurantService.GetPriceTierDetail | Backend/src/services/restaurant_service.js:85-88 | a falsy tier finds nothing; a document found is in the collection and has the tier asked for |
| RestaurantService.UniqueTierFound | Backend/src/services/restaurant_service.js:85-88 | with tiers unique, as the schema demands, each document is the one found for its tier |
| MenuService.NormalizeMenuName | Backend/src/services/menu_service.js:9-15 | a falsy name is returned as is; a truthy non-string throws; a string becomes a trimmed name no longer than it |
| MenuService.PossessiveRemoved | Backend/src/services/menu_service.js:5-15 | "KFC's" normalises to "KFC", as documented |
| MenuService.ArticleKept | Backend/src/services/menu_service.js:8-15 | unlike the intent detector's normaliser, which turns "the kfc" into "kfc", this one keeps the article: "the kfc" stays "the kfc" |
| MenuService.MenuSuffixRemoved | Backend/src/services/menu_service.js:7 | "kfc menu" normalises to "kfc", as documented |
| MenuService.SuffixOnlyNameIsEmpty | Backend/src/services/menu_service.js:13 | a name that is only a suffix word normalises to the empty pattern |
| MenuService.SuffixOnlyNameFindsFirstRestaurant | Backend/src/services/menu_service.js:26-35 | the empty pattern matches no name exactly but every name partially, so such a name resolves to the first restaurant |
| MenuService.FindRestaurantByName | Backend/src/services/menu_service.js:20-38 | a falsy name gives null; otherwise an exact match of the normalised name is preferred to a partial one, and a restaurant found contains the normalised name |
| MenuService.Select | Backend/src/services/menu_service.js:57 | the menus selected are exactly the stored menus matching the query |
| MenuService.FindMenus | Backend/src/services/menu_service.js:43-58 | it rejects exactly for null filters or, without a truthy `restaurantId`, a truthy non-string `restaurantName`; `restaurantId` wins over `restaurantName`; an unresolved name gives `[]`; `visible` is a boolean condition only when defined |
| MenuService.MenuEntry | Backend/src/services/menu_service.js:69-74 | an entry carries the resolved restaurant's own name and the menu's items, `[]` when missing |
| MenuService.GetFullMenuForRestaurant | Backend/src/services/menu_service.js:63-75 | it rejects exactly when the name normaliser does; a falsy or unresolved name gives `[]`; otherwise the restaurant is the exact match of the normalised name, else the first partial one, and there is one entry per menu of it (at most `limit`), in store order, carrying its name |
| MenuService.SelectByRestaurant | Backend/src/services/menu_service.js:67 | every menu selected for a restaurant belongs to it |
| OpenHourService.RowsOf | Backend/src/services/open_hour_service.js:12 | the rows selected are exactly the stored rows of the restaurant, or all rows without one |
| OpenHourService.FindOpeningHours | Backend/src/services/open_hour_service.js:4-13 | `restaurantId` wins over `restaurantName`; a name resolves only by exact case-insensitive match, and an unresolved one gives `[]`; null filters throw |
| OpenHourService.SortByDay | Backend/src/services/open_hour_service.js:20-21 | the in-place sort leaves the rows in MON..SUN order and a permutation of the rows it was given |
| OpenHourService.InsertBack | Backend/src/services/open_hour_service.js:21 | inserting one more row into the sorted prefix keeps the prefix sorted and the rows a permutation |
| OpenHourService.SwapWithPrevious | Backend/src/services/open_hour_service.js:21 | exchanging two neighbouring rows changes nothing else and keeps a permutation |
| OpenHourService.GetOpeningHours | Backend/src/services/open_hour_service.js:15-22 | a falsy or unresolved name gives `[]`; otherwise a permutation of the restaurant's rows, in MON..SUN order, with no limit |
| OpenHourService.SortedRowsBelongToRestaurant | Backend/src/services/open_hour_service.js:19-21 | every returned row is a stored row of the resolved restaurant |
| PromotionService.BuildPromotionQuery | Backend/src/services/promotion_service.js:5-40 | building the query field by field gives the promotion query of the filters at time `now`, and null filters throw |
| PromotionService.AddDates | Backend/src/services/promotion_service.js:12-19 | without either date only promotions running at `now` qualify; otherwise the given dates are copied verbatim |
| PromotionService.AddTitle | Backend/src/services/promotion_service.js:22-26 | a non-blank string title becomes a pattern of its trimmed text; an object with `$regex` is passed through; anything else adds no title |
| PromotionService.AddDiscount | Backend/src/services/promotion_service.js:29-34 | a discount range exists exactly when the minimum or the maximum is a number, each bound from its own number |
| PromotionService.DiscountRangeHasABound | Backend/src/services/promotion_service.js:29-34 | a discount condition always has a bound, so the `delete` never fires |
| PromotionService.DateWindowOnlyWithoutDates | Backend/src/services/promotion_service.js:12-19 | the running-at-`now` window is set exactly when neither date is given |
| PromotionService.DefaultPromotionQuery | Backend/src/services/promotion_service.js:9-19 | empty filters ask for the active promotions running at `now` and nothing else |
| PromotionService.ResolveRestaurantNameToId | Backend/src/services/promotion_service.js:42-46 | only a non-empty string is looked up, by exact case-insensitive match only, giving the first matching restaurant's id |
| PromotionService.FindPromotions | Backend/src/services/promotion_service.js:48-64 | `restaurantName` is resolved only without a truthy `restaurant`, and an unresolved name gives no promotions; the limit is 10 unless it is a number; null filters throw |
| PromotionService.ByRestaurantIdIsSearch | Backend/src/services/promotion_service.js:66-73 | the query by restaurant id is the search for that restaurant alone |
| PromotionService.ByRestaurantIdNarrowsDefault | Backend/src/services/promotion_service.js:66-73 | the query by restaurant id is the default promotion query narrowed to that restaurant |
| ChatFormat.CloseFromCorrect | frontend/src/components/ChatBoxUI.jsx:37-39 | the closing marker found is the first one after the opening and on the same line; none is found only when no marker follows on that line |
| ChatFormat.CloseAfterOpeningCorrect | frontend/src/components/ChatBoxUI.jsx:37-39 | a run opened at a position matches exactly up to the closing marker found for it, and no run opens there otherwise |
| ChatFormat.MatchFromCorrect | frontend/src/components/ChatBoxUI.jsx:37-39 | the leftmost match at or after a position is found, and none is found only when there is none |
| ChatFormat.FindMatchCorrect | frontend/src/components/ChatBoxUI.jsx:37-39 | `match` finds the leftmost match of the bold (or italic) pattern, and nothing exactly when there is no match |
| ChatFormat.MatchUnique | frontend/src/components/ChatBoxUI.jsx:37-39 | at most one match opens at a given marker, since the inside is matched lazily |
| ChatFormat.FindsLeftmost | frontend/src/components/ChatBoxUI.jsx:37-39 | a match with no match starting before it is the one found |
| ChatFormat.NextRunCorrect | frontend/src/components/ChatBoxUI.jsx:44-50 | the run styled next is a match; italic is chosen only when no bold match starts at or before it; bold only when no italic match starts before it |
| ChatFormat.InlineParts | frontend/src/components/ChatBoxUI.jsx:31-70 | the pieces of a line are empty only for the empty line, and no piece is empty |
| ChatFormat.FormatInline | frontend/src/components/ChatBoxUI.jsx:70 | the line itself is returned exactly when it yields no pieces |
| ChatFormat.RenderInlineParts | frontend/src/components/ChatBoxUI.jsx:35-67 | styling loses no character: putting the markers back around the styled pieces gives the line back, so unstyled text is kept, in order |
| ChatFormat.Advance | frontend/src/components/ChatBoxUI.jsx:52-67 | one loop turn strictly shortens `remaining` (so the loop terminates) and emits exactly the pieces that lead to the rest |
| ChatFormat.FormatInlineLoop | frontend/src/components/ChatBoxUI.jsx:29-71 | the `while` loop over `remaining` produces the inline specification |
| ChatFormat.StyledExample | frontend/src/components/ChatBoxUI.jsx:35-67 | "**a** *b*" becomes bold "a", plain " ", italic "b" |
| ChatFormat.BulletPrefix | frontend/src/components/ChatBoxUI.jsx:77-80 | a bullet prefix exists exactly when the trimmed line starts with `-` or `*` and white space; it then spans all of that white space, up to a non-space or the end (`\s+` is greedy) |
| ChatFormat.NumberPrefix | frontend/src/components/ChatBoxUI.jsx:86-89 | a number prefix exists exactly when the trimmed line starts with digits, a dot and white space; it then spans the digits, the dot and all the white space after it |
| ChatFormat.Classify | frontend/src/components/ChatBoxUI.jsx:74-104 | a line is a bullet item exactly when its trimmed form has a bullet prefix, a numbered item exactly when it has a number prefix and no bullet prefix, and its text is what follows that prefix; blank exactly when all white space; otherwise a paragraph of the trimmed line |
| ChatFormat.ReadLine | frontend/src/components/ChatBoxUI.jsx:74-104 | the tests made in source order (bullet, number, blank) classify the line |
| ChatFormat.Flush | frontend/src/components/ChatBoxUI.jsx:17-27 | a flush empties the pending items and, when there were some, appends one list of their kind (`ol` only for numbered) and resets the kind |
| ChatFormat.Formatter.constructor | frontend/src/components/ChatBoxUI.jsx:13-15 | the shared state starts with no elements, no items and no list kind |
| ChatFormat.Formatter.FlushList | frontend/src/components/ChatBoxUI.jsx:17-27 | the closure updates the shared state as the flush specification |
| ChatFormat.Formatter.AddItem | frontend/src/components/ChatBoxUI.jsx:77-91 | an item line flushes first when its kind differs from the pending one, then joins the pending list |
| ChatFormat.Formatter.AddBreak | frontend/src/components/ChatBoxUI.jsx:95-101 | a blank line flushes and adds a break |
| ChatFormat.Formatter.AddParagraph | frontend/src/components/ChatBoxUI.jsx:95-104 | a text line flushes and adds a paragraph of its formatted text |
| ChatFormat.Formatter.AddLine | frontend/src/components/ChatBoxUI.jsx:73-105 | the `forEach` body updates the shared state as one step of the line walk |
| ChatFormat.FormatMessage | frontend/src/components/ChatBoxUI.jsx:8-109 | falsy text gives null; otherwise the elements after walking every line and the final flush |
| ChatFormat.Format | frontend/src/components/ChatBoxUI.jsx:8-109 | the result is null exactly for the empty text |
| ChatFormat.FlushKeeps | frontend/src/components/ChatBoxUI.jsx:17-27 | a flush moves the pending items into the lists and leaves paragraphs and breaks alone |
| ChatFormat.StepKeeps | frontend/src/components/ChatBoxUI.jsx:73-105 | one line adds its item to the items (listed or pending), or its break or paragraph to the other elements, and nothing else |
| ChatFormat.StepInvariant | frontend/src/components/ChatBoxUI.jsx:73-105 | each line keeps the invariant: a kind is pending exactly when items are, no list is empty, and no two neighbouring lists share a kind |
| ChatFormat.WalkKeeps | frontend/src/components/ChatBoxUI.jsx:73-105 | after any number of lines, the listed and pending items are exactly the list lines' items in order, and the other elements exactly the breaks and paragraphs |
| ChatFormat.FormatKeepsLines | frontend/src/components/ChatBoxUI.jsx:8-109 | the message's lists hold exactly its list lines' items, in order, each under its marker's kind; the breaks and paragraphs are exactly those of the other lines; no list is empty and neighbouring lists differ in kind |
| Seeder.RandIntInRange | Backend/src/seeders/fullSeeder.js:17 | a draw in [0, 1) gives an integer in [min, max] |
| Seeder.DrawIndex | Backend/src/seeders/fullSeeder.js:18 | a draw in [0, 1) gives a valid position of a non-empty array |
| Seeder.Pick | Backend/src/seeders/fullSeeder.js:18 | `pick` returns min(n, length) elements (none for n ≤ 0), drawn without replacement from the array, which is left unchanged |
| Seeder.JsRem | Backend/src/seeders/fullSeeder.js:26 | JavaScript's `%` keeps the dividend's sign |
| Seeder.ShiftTimeCorrect | Backend/src/seeders/fullSeeder.js:21-28 | when the shifted total is at least -1440 minutes, the result is a zero-padded "HH:MM" with the hour in 0..23 and the minute in 0..59, worth (input + offset) mod 1440 minutes |
| Seeder.ClockOf | Backend/src/seeders/fullSeeder.js:25-27 | a minute of the day is rendered as a valid clock worth that minute |
| Seeder.ShiftByZero | Backend/src/seeders/fullSeeder.js:21-28 | shifting a valid clock by zero gives it back |
| Seeder.JitterRange | Backend/src/seeders/fullSeeder.js:103-104 | the jitter lies in [-w/2, w/2 - 1], that is [-30, 29] for the opening and [-60, 59] for the closing time |
| Seeder.ShiftIsNear | Backend/src/seeders/fullSeeder.js:105-106 | the seeder's offsets stay within `shiftTime`'s precondition, giving a valid clock within the offset range of the base |
| Seeder.BaseOpen | Backend/src/seeders/fullSeeder.js:94 | the base opening times are valid clocks |
| Seeder.BaseClose | Backend/src/seeders/fullSeeder.js:95 | the base closing times are valid clocks |
| Seeder.DayHours | Backend/src/seeders/fullSeeder.js:97-108 | a day is closed (both times null) exactly when the first draw falls under the day's chance, using one draw; otherwise it uses three, and the times are the bases of the restaurant's type shifted by the jitters of the second and third draws, so they lie near the bases |
| Seeder.SeedOpeningHours | Backend/src/seeders/fullSeeder.js:90-110 | every restaurant gets exactly seven documents, MON..SUN in order, each closed or with times near its type's bases |
| Store.FindOne | Backend/src/services/restaurant_service.js:75-79 | `findOne` finds nothing exactly when no record matches, and otherwise the first matching record in natural order |
| Store.ExactIsPartial | Backend/src/services/restaurant_service.js:75-79 | a name that matches the anchored pattern also matches the unanchored one |
| Store.Limit | Backend/src/services/restaurant_service.js:46 | `.limit(n)` keeps a prefix of the rows: all for 0, otherwise at most \|n\| |
| Store.DayIndex | Backend/src/services/open_hour_service.js:20 | a day's index in the week order is below 7 and names that day |
| Text.Trim | Backend/src/modules/ai_engine.js:362 | `trim` gives a trimmed slice of its input |
| Text.TrimMargins | Backend/src/modules/ai_engine.js:362 | `trim` removes exactly a blank prefix and a blank suffix: the result is the slice between two all-white-space margins |
| Text.TrimEmptyIffBlank | Backend/src/services/chatbot_service.js:76 | trimming gives the empty string exactly for all-white-space text |
| Text.ToLower | Backend/src/modules/ai_engine.js:42 | lower-casing keeps the length and maps each character on its own |
| Text.IndexOf | Backend/src/modules/ai_engine.js:365 | `indexOf` gives -1 exactly when the character is absent, and otherwise its first position |
| Text.LastIndexOf | Backend/src/modules/ai_engine.js:366 | `lastIndexOf` gives -1 exactly when the character is absent, and otherwise its last position |
| Text.TwoDigitsRoundTrip | Backend/src/seeders/fullSeeder.js:22-26 | reading two digits and rendering them zero-padded gives the same two digits back |
| Text.JoinSplitLines | frontend/src/components/ChatBoxUI.jsx:12 | joining the split lines with line feeds gives the text back, so splitting loses nothing |
| Text.JoinContainsPart | Backend/src/modules/ai_engine.js:459 | every joined part occurs in the joined text |
| Text.StrLeTotal | Backend/src/services/restaurant_service.js:68 | the default sort order is total |
| Text.StrLeTransitive | Backend/src/services/restaurant_service.js:68 | the default sort order is transitive |
| ChatFormat.Width | frontend/src/components/ChatBoxUI.jsx:37-39 | a bold marker is two characters and an italic marker one |
| ChatFormat.Marker | frontend/src/components/ChatBoxUI.jsx:37-39 | the marker of a style is as long as its width |
| ChatFormat.CloseFrom | frontend/src/components/ChatBoxUI.jsx:37-39 | a closing marker found lies at or after the search start and fits inside the line |
| ChatFormat.CloseAfterOpening | frontend/src/components/ChatBoxUI.jsx:37-39 | a run opened at a position closes after at least one inner character, and its closing marker fits in the text |
| ChatFormat.MatchFrom | frontend/src/components/ChatBoxUI.jsx:37-39 | a match found starts at or after the position and has a non-empty inside between its two markers |
| ChatFormat.FindMatch | frontend/src/components/ChatBoxUI.jsx:37-39 | a match found has a non-empty inside and its closing marker fits in the text |
| ChatFormat.NextRun | frontend/src/components/ChatBoxUI.jsx:44-50 | the run chosen has a non-empty inside and lies within the text |
| ChatFormat.KindOf | frontend/src/components/ChatBoxUI.jsx:18-22 | a pending list kind is kept, and a missing one renders as a bullet list |
| ChatFormat.FlushInvariant | frontend/src/components/ChatBoxUI.jsx:17-27 | a flush from a valid state leaves no list empty, no two neighbouring lists of one kind, and nothing pending |
| RestaurantService.TierNameInjective | Backend/src/services/restaurant_service.js:85-88 | distinct tiers have distinct names, so the tier lookup cannot confuse two tiers |
| RuleEngine.NoReplyFor | Backend/src/modules/rule_engine.js:5-13 | "hip" neither greets, thanks nor asks for help |
| Text.Lower | Backend/src/modules/ai_engine.js:42 | an upper-case ASCII letter becomes its lower-case letter, and every other character is kept |
| Text.TrimStart | Backend/src/modules/ai_engine.js:362 | leading white space, and only that, is removed, and the result does not start with white space |
| Text.TrimEnd | Backend/src/modules/ai_engine.js:362 | trailing white space, and only that, is removed, and the result does not end with white space |
| Text.TrimOfTrimmed | Backend/src/modules/ai_engine.js:362 | trimming is idempotent: a trimmed text is its own trim |
| Text.Slice | Backend/src/modules/ai_engine.js:368 | `slice(a, b)` is empty when b ≤ a, and otherwise the characters from a up to b |
| Text.SplitLines | frontend/src/components/ChatBoxUI.jsx:12 | splitting yields at least one line, and no line holds a line feed |
| Text.Utf16Length | Backend/src/modules/ai_engine.js:100 | JavaScript's `length` counts UTF-16 code units: at least one per character and at most two |
| Text.Utf16LengthOfBmp | Backend/src/modules/ai_engine.js:100 | a text without characters above U+FFFF has `length` equal to its number of characters |
| Text.Utf16LengthOfAstral | Backend/src/modules/ai_engine.js:128 | a single character above U+FFFF, such as an emoji, has `length` 2, so it passes the `length > 1` test |
| Text.NatToString | Backend/src/seeders/fullSeeder.js:25-26 | `String(n)` is a non-empty run of digits without a leading zero, one digit exactly for n < 10 |
| Text.DigitsValueOfNatToString | Backend/src/seeders/fullSeeder.js:22-26 | reading back the digits of `String(n)` gives n |
| Text.TwoDigits | Backend/src/seeders/fullSeeder.js:25-26 | padding `String(n)` to two characters for n < 100 gives two digits worth n |
| Text.StrLeAntisymmetric | Backend/src/services/restaurant_service.js:68 | the default sort order is antisymmetric, so sorting distinct names gives one order |

## Left out

- **The database.** Mongoose `find`, `findOne`, `populate`, `lean` and the connection are left out. The store is a sequence of records per collection, and `.limit` is modelled on those sequences.
- **Regex lookups.** The store's `$regex` name lookups are case-insensitive exact or substring tests on the literal pattern text. Regex metacharacters in a name are not interpreted.
- **Language-model clients.** The DeepSeek and Gemini calls are parameters: each reply is text, or nothing when the call throws. Prompt text is not behaviour, and the conversation `history` only feeds the prompt, except that `history.map` runs outside the `try`: a history that is not an array, or holds `null` or `undefined`, rejects (modelled in AiEngine.GenerateResponseWithHistory).
- **`JSON.parse`.** It is a parameter: a parsed value, or nothing when it throws.
- **Name captures.** The restaurant-name regexes of the open-now, menu and opening-hours groups are not run; their group-1 captures are parameters, in pattern order. All `includes` tests, the keyword tables, the open-at pattern and the normalisation passes are modelled concretely.
- AiEngine.CleanMarkdown: the ten lazy regex passes are one abstract rewrite parameter. Only the final `trim` is modelled, so the contract says only that the result is trimmed.
- **Floats.** Numbers are integers, with no NaN or infinities. `Number(x).toFixed(2)` is exact only for integer prices.
- AiEngine.ToFixed2: only integers, booleans and strings of decimal digits are converted. Signed, exponent and hexadecimal strings ("-5", "+7", "1e3", "0x10") and empty or one-element arrays render as "NaN" in the model, where JavaScript gives a number ("-5.00", "7.00", "1000.00", "16.00", "0.00", "5.00"). Integers of 10^21 and more are written in exponent form by JavaScript ("1e+21"), but with all their digits in the model.
- Text.ToLower: lower-casing is ASCII only. JavaScript's `toLowerCase` also lower-cases other letters (the Kelvin sign becomes "k", "İ" becomes two code units), which the model keeps as they are.
- Text.Lower: the same ASCII-only restriction, for one character.
- Text.StrLe: strings are compared by whole code points. JavaScript's default `sort` compares UTF-16 code units, which orders characters above U+FFFF differently.
- AiNames.DropPossessive: its own contract states only that the text does not grow. DropPossessiveKeeps and DropPossessivePairs state which characters remain; the regex's word boundary is modelled in the body, not restated in a contract.
- AiNames.DropSuffixWords: its own contract states only that the text does not grow. DropSuffixWordsKeepsPlain, DropSuffixWordsKeepsPrefix and TrailingMenuDropped state what is kept and what is removed for the inputs they describe, not for every input.
- **Randomness.** `Math.random` is a parameter yielding draws in [0, 1). faker values and the seeder's other collections (restaurants, menus, promotions, average prices) are not modelled.
- **Asynchrony.** It is sequential in the model. The one kept subtlety is the un-awaited return in `queryIntent`: a rejected service promise escapes its `try` and makes `handleChat` replace every result by `[]`. The model follows the code here, although a per-intent failure is meant not to abort the other intents. A synchronous throw, such as reading `restaurantName` off null filters, yields `[]` for that intent only.
- **`findPriceTier`.** price_tier_service.js is not part of this model; `findPriceTier` is a parameter like the other services.
- **Plumbing.** Routes, the controller, the server, the React components outside `formatMessage`, and `Chatbot/app.py` are left out.
- **Scripts.** The HTTP request scripts and the outdated `handleChat` script under `tests` are left out.
- **Default limits.** The default parameter values of `findMenus` (20), `findOpeningHours` (50) and `findRestaurants` (20) are left out, because the dispatcher always passes the intent's numeric limit.
- **Unreachable "No data found".** It is proved unreachable (ChatbotService.NoDataBranchUnreachable): `generateResponse` already answers with the apology when there are no results.
- **Blank responses.** ChatbotService.BlankNameGivesBlankReply shows the blank guard is not airtight: a result whose name is blank passes through it.
- AiKeyword.OpenAtTimeIsClockTime: the "HH:MM" clock reading is proved only for hours 1 to 12 when "am" or "pm" is given. A larger hour with "pm" (such as "open at 99 pm") gives a three-digit hour like "111:00", which the code does not guard against.
- AiKeyword.OpenAtAt: its own contract states only that a match is well formed and starts with "open". When it matches, and what it reads, is stated by OpenAtAtMatches.
- AiKeyword.FindOpenAt: its own contract states only when a match exists. That the match is the leftmost one is stated by FindOpenAtLeftmost.
- AiKeyword.KeywordIntent: its own contract states only the plan's shape; the outcome of each keyword group (target, limit and every filter) is stated by the group lemmas OpenNowGroupIntent, OpenAtGroupIntent, RecommendGroupIntent, PromotionGroupIntent, MenuGroupIntent, HoursGroupIntent, PriceGroupIntent, CuisineGroupIntent and AmbienceGroupIntent, and the absence of an intent by KeywordIntentNoneIff. The name extracted for the open-now, menu and opening-hours intents is stated through FirstNameCorrect and OpenNowName over the captures, not over a regex semantics of the message.
- ChatFormat.FormatMessage: React keys and class names are not modelled; the elements are a datatype of paragraphs, breaks and lists.
