# AI ToBase in Dafny

AI ToBase is a survey web app that recommends a homemade cosmetic recipe.
A user gives a name and an age, answers seven parts of questions, and waits
while an external scenario writes an AI recipe into the survey row. The app
then shows a report styled after one of nine skin-type designs. It can also
share a personalised card image and an Open Graph page.

This project models the decision logic of that app and proves properties of
the model:

- `skin_type_mapping.dfy` covers the skin-type classifier, the survey fallback
  and the design table.
- `progress.dfy`, `ai_result.dfy`, `recipe_report.dfy`, `placeholders.dfy` and
  `survey_complete.dfy` cover the survey-completion screen:
  - the progress animation;
  - how the delivered recommendation is read;
  - the report the screen hands over;
  - the proof that a text recommendation always yields the plain hydration
    design;
  - the screen as a class whose methods update its state.
- `app_flow.dfy` covers the application's screen flow. The model has two
  forms:
  - a pure transition function over events;
  - a class `App` whose handlers update the state fields and are proved
    equal to that function.
- `server_api.dfy` covers the JSON endpoints of the edge-function server:
  - survey-id checks;
  - survey creation and update;
  - lookups;
  - storing an AI recipe.
- `share_card.dfy` covers the text fields of the card image and of the share
  page.
- `ecma.dfy` and `wrappers.dfy` model the ECMAScript built-ins that the
  decisions depend on (truthiness, `toLowerCase`, `trim`, `includes`, `join`,
  and `parseInt` as in section 19.2.5 of ECMA-262), plus `Option` and an
  `Outcome` that records a thrown exception.

These calls are parameters of the model, because their code is not part of
it:

- `JSON.parse`: it returns `None` when it throws.
- `JSON.stringify` and `Number::toString`.
- The poller `waitForAIRecommendation`.
- `createSurvey`, `updateSurvey` and `updateDatabaseSchema`.
- The database's answer to each statement.

Timers become explicit ticks and steps.

The keyword rules are matched in the order of the code. The oily rule comes
before the acne rule, so a text with both an oily keyword and an acne keyword
(and no elasticity keyword) is classified oily. The rules are tried in the
table's priority order (utils/skinTypeMapping.tsx:103-112), so an oily keyword
wins over an acne keyword: see `OilyBeforeAcne`.

## Model

| member | source | states |
|---|---|---|
| SkinTypeMapping.CategoryOfKey | utils/skinTypeMapping.tsx:21-91 | a key that is found names that category |
| SkinTypeMapping.KeysRoundTrip | utils/skinTypeMapping.tsx:21-91 | every category's key finds that category, and a key finds nothing exactly when no category has it |
| SkinTypeMapping.DesignTitlesDistinct | utils/skinTypeMapping.tsx:21-91 | two designs have the same title exactly when they are the same category |
| SkinTypeMapping.RulesDistinct | utils/skinTypeMapping.tsx:104-131 | the table has nine rules, each for a different category, and plain hydration is the last |
| SkinTypeMapping.RuleIndex | utils/skinTypeMapping.tsx:104-131 | every category has a rule in the table |
| SkinTypeMapping.FirstMatch | utils/skinTypeMapping.tsx:140-145 | the index found is a matching rule with no matching rule before it, and None means that no rule matches |
| SkinTypeMapping.LoweredProp | utils/skinTypeMapping.tsx:101 | an absent or `null` property reads as '', a string property as its lower-case form, and any other value throws |
| SkinTypeMapping.IngredientsText | utils/skinTypeMapping.tsx:134 | absent or `null` ingredients read as ''; an array gives its names joined by spaces, or throws when a name cannot be read; any other value throws |
| SkinTypeMapping.ItemNames | utils/skinTypeMapping.tsx:134 | the ingredient names are read one per item, and reading fails exactly when some item cannot be read |
| SkinTypeMapping.SearchTextSegments | utils/skinTypeMapping.tsx:134-137 | a keyword without spaces occurs in the search text exactly when it occurs in the title, in an ingredient name or in the summary |
| SkinTypeMapping.AnalyzeFromAI | utils/skinTypeMapping.tsx:94-149 | a missing recommendation gives hydration; otherwise the classifier throws exactly when building the search text throws |
| SkinTypeMapping.EmptyFieldsGiveHydration | utils/skinTypeMapping.tsx:101-149 | a recommendation whose title and summary are absent, `null` or `""` and whose ingredients are absent, `null` or an empty array is classified as hydration without a throw |
| SkinTypeMapping.AnalyzeFromAIFirstMatch | utils/skinTypeMapping.tsx:140-145 | the first rule that matches decides the category |
| SkinTypeMapping.AnalyzeFromAIExplained | utils/skinTypeMapping.tsx:140-149 | a category other than hydration comes from its own rule, which matches while every earlier rule misses; a hydration result means the first eight rules all miss |
| SkinTypeMapping.AnalyzeFromAINoKeyword | utils/skinTypeMapping.tsx:147-149 | a text without any keyword gives hydration |
| SkinTypeMapping.OilyBeforeAcne | utils/skinTypeMapping.tsx:106-112 | without an elasticity keyword an oily keyword gives oily, whatever acne keywords occur |
| SkinTypeMapping.ElasticityFirst | utils/skinTypeMapping.tsx:106 | an elasticity keyword gives elasticity whatever else occurs |
| SkinTypeMapping.IntensiveBeforeHydration | utils/skinTypeMapping.tsx:124-130 | '보습보습' also contains '보습', but the intensive rule comes first and wins |
| SkinTypeMapping.RuleExcludedBy | utils/skinTypeMapping.tsx:141 | a rule cannot match a text when each of its keywords has a character outside the text's alphabet |
| SkinTypeMapping.SurveyMapping | utils/skinTypeMapping.tsx:156-163 | exactly the six listed answers have a category |
| SkinTypeMapping.AnalyzeFromSurveyTable | utils/skinTypeMapping.tsx:153-165 | the answer is compared in lower case; each listed answer maps to its category; anything else, or no answer, gives hydration |
| SkinTypeMapping.DeterminePrecedence | utils/skinTypeMapping.tsx:169-187 | a truthy recommendation alone decides; otherwise the survey answers decide; with neither the result is hydration |
| SkinTypeMapping.GetSkinTypeDesignTable | utils/skinTypeMapping.tsx:190-192 | each category's key gives its own design, and an unknown key gives the hydration design |
| SkinTypeMapping.DesignOfDecision | utils/skinTypeMapping.tsx:169-192 | the design for the decided key is the decided category's design |
| Ecma.ToLowerFacts | utils/skinTypeMapping.tsx:101-135 | lower-casing leaves no upper-case letter, is idempotent, distributes over concatenation and keeps lower-case text |
| Ecma.IncludesJoin | utils/skinTypeMapping.tsx:134 | a non-empty pattern without spaces occurs in the space-joined names exactly when it occurs in one name |
| Ecma.TrimKeepsFirst | components/SurveyComplete.tsx:82 | the trimmed text is non-empty exactly when the text has a non-blank character, and then starts with the first one |
| Ecma.ParseIntPositive | supabase/functions/server/index.tsx:322-329 | `parseInt` gives a positive number exactly when, after leading white space, no minus sign comes first and some digit it reads is not zero |
| Ecma.ParseIntDecimal | supabase/functions/server/index.tsx:298-322 | the decimal text of a number is read back as that number |
| Progress.StepSchedule | components/SurveyComplete.tsx:23-29 | five steps of 16 % each end at 16, 32, 48, 64 and 80 %, increasing, and each lasts a whole number of 50 ms ticks |
| Progress.Tick | components/SurveyComplete.tsx:55-62 | a tick never lowers the total and never passes the step's target, and the interval clears itself exactly when the target is reached |
| AiResult.Interpret | components/SurveyComplete.tsx:79-109 | a JSON-looking string is parsed, or wrapped as degraded text when parsing throws; any other string is wrapped as Markdown; a non-string is kept |
| AiResult.ProcessingResultError | components/SurveyComplete.tsx:68-129 | the result is an error exactly when the id is missing, the wait throws or fails, or the value itself has a truthy `error`, with the message of each cause; a text recommendation is never an error |
| RecipeReport.ReportOf | components/SurveyComplete.tsx:136-161 | the report's title is the title of the decided category's design, and it is addressed to the user |
| RecipeReport.SummaryAddressesUser | components/SurveyComplete.tsx:159 | the summary begins with the user's name |
| RecipeReport.ReportTitleIdentifiesCategory | components/SurveyComplete.tsx:136-161 | two reports for the same user are equal, and have the same title, exactly when their categories are equal |
| Placeholders.WrapperFields | components/SurveyComplete.tsx:88-92 | the Markdown and degraded wrappers have no title and no ingredients, have their fixed summary, and carry no truthy `error` |
| Placeholders.SummaryOnlySearch | utils/skinTypeMapping.tsx:134-137 | a value with only a lower-case summary is searched as two spaces followed by that summary |
| Placeholders.MarkdownSearchText | components/SurveyComplete.tsx:88-92 | the search text of any Markdown wrapper is its fixed summary after two spaces |
| Placeholders.DegradedSearchText | components/SurveyComplete.tsx:104-109 | the search text of any degraded wrapper is its fixed summary after two spaces |
| Placeholders.PlaceholderTextsAlphabet | components/SurveyComplete.tsx:88-109 | both placeholder texts are written over a small known alphabet |
| Placeholders.ElasticityMissesPlaceholder | utils/skinTypeMapping.tsx:106 | no elasticity keyword occurs in a text over that alphabet |
| Placeholders.AcneMissesPlaceholder | utils/skinTypeMapping.tsx:112 | no acne keyword occurs in a text over that alphabet |
| Placeholders.SensitiveMissesPlaceholder | utils/skinTypeMapping.tsx:115 | no sensitive keyword occurs in a text over that alphabet |
| Placeholders.BrighteningMissesPlaceholder | utils/skinTypeMapping.tsx:118 | no brightening keyword occurs in a text over that alphabet |
| Placeholders.BarrierMissesPlaceholder | utils/skinTypeMapping.tsx:121 | no barrier keyword occurs in a text over that alphabet |
| Placeholders.IntensiveMissesPlaceholder | utils/skinTypeMapping.tsx:124 | no intensive-hydration keyword occurs in a text over that alphabet |
| Placeholders.LightMissesPlaceholder | utils/skinTypeMapping.tsx:127 | no light-hydration keyword occurs in a text over that alphabet |
| Placeholders.HydrationMissesPlaceholder | utils/skinTypeMapping.tsx:130 | no hydration keyword occurs in a text over that alphabet |
| Placeholders.OilyMissesMarkdown | utils/skinTypeMapping.tsx:109 | no oily keyword occurs in the Markdown placeholder text |
| Placeholders.OilyMissesDegraded | utils/skinTypeMapping.tsx:109 | no oily keyword occurs in the degraded placeholder text |
| Placeholders.OilyPairAbsent | utils/skinTypeMapping.tsx:109 | '지성' does not occur in the degraded text, although both of its characters do |
| Placeholders.SebumPairAbsent | utils/skinTypeMapping.tsx:109 | '피지' does not occur in the degraded text, although both of its characters do |
| Placeholders.PlaceholderMissesEveryRule | utils/skinTypeMapping.tsx:104-131 | no rule of the table matches either placeholder text |
| Placeholders.MarkdownIsHydration | utils/skinTypeMapping.tsx:140-149 | a Markdown recommendation, whatever its content, is classified as hydration |
| Placeholders.DegradedIsHydration | utils/skinTypeMapping.tsx:140-149 | a recommendation whose parsing failed, whatever its content, is classified as hydration |
| Placeholders.TextRecommendationIsHydration | components/SurveyComplete.tsx:82-109 | a text recommendation that is not parsed as JSON decides hydration, whatever the survey answers |
| SurveyComplete.RenderFailure | components/SurveyComplete.tsx:111-129 | when nothing is delivered the screen shows the error view with the cause's message, and its only callback is restart |
| SurveyComplete.RenderHandOff | components/SurveyComplete.tsx:133-167 | a truthy result that is not an error, with a report handler, hands over the report of the decided category |
| SurveyComplete.RenderTextRecommendation | components/SurveyComplete.tsx:82-167 | a text recommendation hands over the plain hydration report, titled '보습' |
| SurveyComplete.RenderWithoutHandler | components/SurveyComplete.tsx:163-259 | without a report handler a good result shows the acknowledgement or the progress view, with no callback |
| SurveyComplete.RenderWaiting | components/SurveyComplete.tsx:215-309 | before a result arrives the screen shows the acknowledgement, then the current step's caption and the bar |
| SurveyComplete.CompletionScreen.constructor | components/SurveyComplete.tsx:17-21 | the screen starts with the acknowledgement shown, step 0, progress 0 and no result |
| SurveyComplete.CompletionScreen.AcknowledgementElapsed | components/SurveyComplete.tsx:32-33 | hiding the acknowledgement changes nothing else; the processing that the same timer starts is `StartProcessing` |
| SurveyComplete.CompletionScreen.AcknowledgementTimer | components/SurveyComplete.tsx:32-35 | the two-second timer hides the acknowledgement and then runs the processing: the animation ends on the last step, the wait is called once with budget 15 when there is an id, and the result is the processing result |
| SurveyComplete.CompletionScreen.Ticked | components/SurveyComplete.tsx:55-62 | one interval tick sets the progress to the clamped new total and appends it to what was shown |
| SurveyComplete.CompletionScreen.Animate | components/SurveyComplete.tsx:42-66 | the step loop ends on the last step and never shows more than 80 % |
| SurveyComplete.CompletionScreen.Receive | components/SurveyComplete.tsx:68-129 | the wait is issued once with 15 attempts only when there is an id; the bar jumps to 100 % when the wait returns; the result is the processing result |
| SurveyComplete.CompletionScreen.StartProcessing | components/SurveyComplete.tsx:41-130 | the animation then the wait leave the processing result, reach 100 % only when the wait returns, and show at most 80 % before |
| AppFlow.Merge | src/App.tsx:107-110 | merging keeps every key of both, and a key answered in the new batch takes its new value |
| AppFlow.MergeAllUntouched | src/App.tsx:106-146 | a key that no part answers keeps its old value, or stays absent |
| AppFlow.MergeAllLastWins | src/App.tsx:106-146 | a key holds the value of the last part that answered it |
| AppFlow.SkinTypeField | src/App.tsx:167 | the patch's skin type is the answer when truthy, else '' |
| AppFlow.Payload | src/App.tsx:166-170 | the patch has status 'completed' and the stringified answers |
| AppFlow.ReportSkinType | src/App.tsx:605 | the report screen gets an array's first element, or '', and otherwise the value or '' |
| AppFlow.SkinTypeDerivations | src/App.tsx:167 | the patch and the report screen agree on the skin type except for arrays, where the patch sends the whole array |
| AppFlow.RunAppend | src/App.tsx:59-238 | running two event sequences one after the other is running their concatenation |
| AppFlow.StepPreservesReachable | src/App.tsx:59-238 | every event a screen can raise keeps the screen numbers in range, keeps an id for the post-registration screens, and keeps a report for the report screen |
| AppFlow.RunPreservesReachable | src/App.tsx:59-238 | so does every sequence of such events |
| AppFlow.MissingIdUnreachable | src/App.tsx:150-159 | along the screens' own flow the last part is always answered with a survey id, and the report screen always has a report |
| AppFlow.IntroChain | src/App.tsx:59-97 | start, intro and guide lead to the user form, and back from it returns to the guide |
| AppFlow.SubmitOutcome | src/App.tsx:73-93 | a successful create with an id stores the user and the id and shows the result screen; anything else changes nothing |
| AppFlow.RestartsAgree | src/App.tsx:99-103 | restarting from the result or from the completion screen both clear the answers, keep the user and open part 1 |
| AppFlow.PartsMergeInOrder | src/App.tsx:106-140 | answering a part merges its answers and opens the next part's intro |
| AppFlow.LastPartOutcome | src/App.tsx:143-219 | the last part stores the merged answers and moves to the completion screen unless the update threw or failed with a schema error; the update call carries the merged answers, and the schema call follows only a schema error |
| AppFlow.LastPartWithoutId | src/App.tsx:154-159 | without an id the last part returns to the start and calls nothing |
| AppFlow.ReportRoundTrip | src/App.tsx:228-238 | showing a report stores it and renders the report screen, and back returns to the completion screen with the report kept |
| AppFlow.App.constructor | src/App.tsx:50-57 | the app starts on the start screen with no user, no answers, no id and no report |
| AppFlow.App.HandleStart | src/App.tsx:59-61 | the new state is the transition function's |
| AppFlow.App.HandleIntroComplete | src/App.tsx:65-67 | the new state is the transition function's |
| AppFlow.App.HandleGuideComplete | src/App.tsx:69-71 | the new state is the transition function's |
| AppFlow.App.HandleUserInfoSubmit | src/App.tsx:73-93 | the new state is the transition function's, and one create call is made |
| AppFlow.App.HandleBack | src/App.tsx:95-97 | the new state is the transition function's |
| AppFlow.App.HandleRestart | src/App.tsx:99-103 | the new state is the transition function's |
| AppFlow.App.HandlePartComplete | src/App.tsx:106-142 | the new state is the transition function's |
| AppFlow.App.HandleQuestionsBack | src/App.tsx:358-562 | the new state is the transition function's |
| AppFlow.App.HandlePartQuestionsComplete | src/App.tsx:107-140 | the new state is the transition function's |
| AppFlow.App.HandlePart7QuestionsComplete | src/App.tsx:143-148 | the new state and the storage calls are the transition function's |
| AppFlow.App.HandleSurveyComplete | src/App.tsx:150-220 | the new state is the completion function's; the update call is made with the patch only when there is an id, and the schema call only after a schema error |
| AppFlow.App.HandleSurveyRestart | src/App.tsx:222-226 | the new state is the transition function's |
| AppFlow.App.HandleShowAIReport | src/App.tsx:228-231 | the new state is the transition function's |
| AppFlow.App.HandleAIReportBack | src/App.tsx:235-238 | the new state is the transition function's |
| AppFlow.App.OpenSkinTypePreview | src/App.tsx:260 | the new state is the transition function's |
| AppFlow.App.CloseSkinTypePreview | src/App.tsx:637 | the new state is the transition function's |
| ServerApi.SurveyId | supabase/functions/server/index.tsx:322-329 | an id is accepted exactly when `parseInt` gives a number greater than zero, and that number is the id |
| ServerApi.SurveyIdAcceptance | supabase/functions/server/index.tsx:390-397 | an id is accepted exactly when no minus sign leads it and the digits read are not all zero, whatever follows them |
| ServerApi.SurveyIdTrailingLetters | supabase/functions/server/index.tsx:544-551 | "12abc" is accepted as 12 |
| ServerApi.SurveyIdZero | supabase/functions/server/index.tsx:1178-1185 | "0" is refused |
| ServerApi.SurveyIdNegative | supabase/functions/server/index.tsx:1178-1185 | "-3" is refused |
| ServerApi.SurveyIdNotANumber | supabase/functions/server/index.tsx:1178-1185 | "abc" is refused |
| ServerApi.SurveyIdOfPrinted | supabase/functions/server/index.tsx:298-301 | the printed id of a created survey is read back as the same id |
| ServerApi.CreateSurvey | supabase/functions/server/index.tsx:261-312 | the create endpoint refuses with 400 exactly when the name or the age is falsy; otherwise it inserts status 'in_progress', the parsed age and `skinType || null`; it answers the new id exactly when the insert succeeds |
| ServerApi.CreatedIdAccepted | supabase/functions/server/index.tsx:298-329 | a created survey with a positive id can be addressed by the id it was answered with |
| ServerApi.BuildUpdateData | supabase/functions/server/index.tsx:332-339 | the patch always has `updated_at`, has `skin_type`, `status` and `answers` exactly when the body's field is truthy, with the body's value, and has no other key |
| ServerApi.UpdateSurvey | supabase/functions/server/index.tsx:314-381 | the body is read before the id; a refused id gives 400 and no write; otherwise the write goes to that id and carries `updated_at`, and `skin_type`, `status` and `answers` exactly when the body's `skinType`, `status` and `answers` are truthy, each with the body's value; the reply follows the database's answer |
| ServerApi.Lookup | supabase/functions/server/index.tsx:384-437 | a refused id gives 400; a row is answered exactly when the query finds a truthy one |
| ServerApi.GetRecommendation | supabase/functions/server/index.tsx:1172-1227 | the lookup's row is answered with a flag that is set exactly when a recipe is stored |
| ServerApi.LookupIgnoresStoreOnBadId | supabase/functions/server/index.tsx:1178-1185 | a refused id never reaches the database |
| ServerApi.CheckRecipe | supabase/functions/server/index.tsx:510-541 | a recipe is accepted exactly when it parses to a value with a truthy `recipe` array without null items and a truthy `descriptions` object |
| ServerApi.PercentageTotalOnlyWarns | supabase/functions/server/index.tsx:522-526 | whatever the items' percentages add up to, a recipe array without `null` items next to a `descriptions` object is accepted |
| ServerApi.RecommendationWrite | supabase/functions/server/index.tsx:554-559 | the write stores the recommendation with status 'completed_ai' |
| ServerApi.SaveRecommendation | supabase/functions/server/index.tsx:471-589 | a body that is not JSON gives 400; the write happens exactly when every check passes, and stores the recommendation with status 'completed_ai' for the accepted id; the reply is a success exactly when the write succeeds |
| ServerApi.FieldsCheckedFirst | supabase/functions/server/index.tsx:501-507 | a missing surveyId or recommendation is refused before anything else is looked at |
| ServerApi.RecipeCheckedBeforeId | supabase/functions/server/index.tsx:510-551 | a bad recipe is reported even when the id is malformed too |
| ServerApi.IdCheckedLast | supabase/functions/server/index.tsx:544-551 | with the fields present and a sound recipe, a refused id gives 400 and no write, and an accepted id gets the write and the database's answer |
| ServerApi.StoredRecipeIsReported | supabase/functions/server/index.tsx:1172-1227 | once a recipe is stored, the recommendation lookup of its id reports it |
| ShareCard.Truncate | supabase/functions/server/index.tsx:725 | a string within the limit is unchanged; a longer one becomes its first n characters and '...' |
| ShareCard.TruncateIdempotent | supabase/functions/server/index.tsx:730 | truncating twice is truncating once |
| ShareCard.TruncateKeepsOnlyPrefix | supabase/functions/server/index.tsx:748 | long strings with the same first n characters look the same |
| ShareCard.RecipeItems | supabase/functions/server/index.tsx:644-647 | the recipe is used exactly when the recommendation is truthy, parses, and has a non-empty `recipe` array |
| ShareCard.MainIngredient | supabase/functions/server/index.tsx:648 | the first ingredient's truthy name, or '수분' |
| ShareCard.CardRecipe | supabase/functions/server/index.tsx:641-651 | the card's title is the main ingredient followed by ' 베이스', with the first 6 ingredients, and the defaults otherwise |
| ShareCard.TileLabel | supabase/functions/server/index.tsx:748 | a string name is truncated to 8; a missing name gives '성분 {index+1}'; a null item or a long array name throws |
| ShareCard.TileAmount | supabase/functions/server/index.tsx:753 | a truthy percentage followed by '%', else a truthy amount, else '적정량' |
| ShareCard.Tiles | supabase/functions/server/index.tsx:741-755 | one tile for each of the first three ingredients, in order, or a throw when one of them cannot be shown |
| ShareCard.GenerateCard | supabase/functions/server/index.tsx:664-768 | the card shows the name cut to 6, the title cut to 12, at most 3 tiles and the profile footer |
| ShareCard.CardImage | supabase/functions/server/index.tsx:591-660 | the demo card is the card drawn for the demo row, the title "수분 지킴이" and the three demo ingredients, and it always draws; a refused id gives 400 and a missing row 404; a found row gets the card of its recipe's title and first six ingredients, or 500 when the tiles cannot be drawn |
| ShareCard.CardShowsLeadingIngredients | supabase/functions/server/index.tsx:649-650 | the card's tiles are labelled with the recipe's first names when these are short strings |
| ShareCard.KeyIngredients | supabase/functions/server/index.tsx:996-999 | the key ingredients are the labels of the first three entries, in order, joined by ', ', and nothing for an empty list |
| ShareCard.ShareRecipe | supabase/functions/server/index.tsx:985-1004 | the share title is the main ingredient followed by ' 베이스 레시피'; a null among the first three entries leaves an empty list after the title has changed |
| ShareCard.ShareTitle | supabase/functions/server/index.tsx:1007 | the share title is the user's name and '님은 ', then the recipe title and '가 필요해요!' |
| ShareCard.ShareUrl | supabase/functions/server/index.tsx:1020-1024 | the base URL loses exactly one trailing '/', if it has one |
| ShareCard.ShareUrlDefault | supabase/functions/server/index.tsx:824-828 | with neither header the page links to the site's default address unchanged |
| ShareCard.ShareUrlStripsOneSlash | supabase/functions/server/index.tsx:1020-1024 | the referer wins over the origin, and only one of two trailing slashes goes |
| ShareCard.Share | supabase/functions/server/index.tsx:784-1150 | the demo page is fixed; a refused id gives the invalid-link page, and a missing row the not-found page; a found row always gets a page whose title names the main ingredient (or the default title), whose description lists the key ingredients when a recommendation is stored and the profile otherwise, and whose status line says whether the analysis is done |

## Left out

- Database, routing and I/O: Supabase calls, Hono routing, CORS, the logger and all `console` output are not modelled. Each handler receives the database's answer as a parameter.
- `initializeTable`, the schema-update endpoint, both health endpoints, their server status object and the admin list of all surveys are not modelled; they hold no decision logic of the core.
- AppFlow.App.HandleUserInfoSubmit, AppFlow.App.HandleSurveyComplete: the `alert` dialogs (src/App.tsx:87, 91, 156, 202, 205, 214 and 218) are not modelled. The user's notice that a create or an update failed is therefore absent. The answer of `updateDatabaseSchema` only chooses between two alerts (src/App.tsx:201-207), so it is not a parameter; the model records only that the call is issued.
- Response headers, and the SVG and HTML around the computed text fields, are not modelled. The card-image address with its timestamp is left out because it reads the environment and the clock.
- Messages of exceptions: the 500 replies of the update and read endpoints, the 400 reply of a body that is not JSON, and the 400 reply of a recipe that fails to parse or reads a property of `null`, append the text of the caught exception. `ServerApi.Failure.Message` gives the fixed part before it, because that text comes from the JavaScript engine.
- ServerApi.SurveyId: `parseInt` gives a double. Ids above 2^53 lose precision there and very long digit strings give `Infinity`. The model reads the exact integer, because such ids never arise from the database's serial ids; acceptance is the same in both.
- The retry loop inside `waitForAIRecommendation`, and the code of `createSurvey`, `updateSurvey` and `updateDatabaseSchema`, are not part of this model. Their outcomes are parameters.
- Wall-clock timers are not modelled. `setTimeout` and `setInterval` become explicit steps and ticks. The 500 ms `setTimeout` through which the report is handed over becomes a callback of the rendered view. The clean-up on unmount is not modelled.
- Floating point: progress is a Dafny `real`. The 0.1 tolerance on the recipe's percentage total is not modelled, because that total only produces a warning.
- Prototype lookups: the design table and the survey table are closed, so inherited keys such as 'constructor' find nothing.
- `toLowerCase` lowers ASCII letters only. Strings are sequences of characters, where JavaScript counts UTF-16 code units; the two agree for the Korean and ASCII text involved.
- A non-string `skin_type` answer on the survey path is not modelled: the answer is an optional string there.
- `ShareCard.TileLabel`: an ingredient name that is an object with a numeric `length` property (which would make `substring` throw) is treated like any other object, as `[object Object]`.
- `ShareCard.SurveyRow`: a row's name is a string; a null name, which would make the card throw, is not modelled.
- User names are interpolated into the share page's HTML without escaping. This is not modelled.
- The Figma UI frames, the report view, the preview, the start screen, lazy images and the build configuration are not modelled; they hold no decision logic.
