# Reel planner: a Dafny model of the plan generator

The Reel planner turns a topic into a short-video content plan. The user
fills in a topic, an optional social-media link and a content style. The
application then builds a prompt and streams a JSON plan from the hosted
model. It stitches the chunks together, cuts out the outermost `{`…`}` span
and parses it. A second button asks for a 30-day calendar, which arrives in
one piece. Two views sort the lists they show in place: the calendar by day
and the ad campaign by week. The export buttons name their files after the
topic, with every whitespace run replaced by `_`.

This project models that core and proves its properties.

- `Text`: the JavaScript string operations the code relies on.
  - Whitespace is ECMAScript `\s` written out as code-point ranges. `trim` strips the same set.
  - `indexOf` and `lastIndexOf` of one character.
  - Concatenation of the chunk texts.
- `JsonSpan`: the extraction of the outermost brace-delimited span, with its error message.
- `FileName`: `topic.replace(/\s+/g, '_')`, written as a left-to-right scan.
- `Progress`: the simulated progress counter, +5 per tick, capped at 95, after which the timer clears itself.
- `Schemas`: the three response schemas, by field name, type and required list.
- `Prompts`: the two prompts.
  - The fixed prose is abbreviated as named constants.
  - The placement of the user's inputs, and the branches on them, are exact: the quoted topic, the style value and its guidance, and the optional link line.
- `GeminiService`: the two requests (model name, MIME type, schema, temperature), the streaming generator that passes chunk texts through and rewrites any failure into a fixed message, and the one-shot 30-day call.
  - The network call is a function-typed parameter.
  - `JSON.parse` is a partial function passed in as a parameter.
- `App`: the application component as a class `Planner` whose fields are the React state.
  - `handleGeneratePlan` is split into the events it reacts to: start, timer tick, chunk, stream end, stream failure, delayed settle. One driver method runs them in order.
  - `handleGenerateThirtyDayPlan` is split into its start and its completion.
  - `Valid()` ties the fields together, e.g. `isLoading` is set exactly while a run is in progress, and while the stream runs the progress value is the clamped tick count; it is 100 after a normal end, keeps its last tick value after a failed one, and is 0 at rest.
- `KeySort` and `PlanViews`: `Array.prototype.sort` with the comparator `(a, b) => key(a) - key(b)`, as an in-place stable insertion sort on an `array`. It is applied to the two plan objects the views sort.
- `PlanTypes`: the records of `types.ts` and the ad-plan records. The two records whose list is sorted in place are classes holding an `array`.

Prompt construction is pure: the prompts and requests are functions of the form inputs. Nothing happens before the call is made.

Two behaviours of the code that are easy to misread, modelled as written:
- A stream that yields no chunk at all ends with no plan and no error, because the empty-response error is only thrown when at least one chunk arrived (`App.tsx:91-93`). The `else if (!isFirstChunk)` branch is skipped when the loop body never ran.
- The 30-day handler rejects only the empty topic (`App.tsx:109`). The single-plan handler rejects a topic that is blank after trimming (`App.tsx:43`).

## Model

| member | source | states |
|---|---|---|
| Text.TrimStartRemovesLeadingSpace | App.tsx:43 | `trimStart` removes a prefix made only of whitespace and stops at the first non-whitespace character |
| Text.TrimEndRemovesTrailingSpace | App.tsx:43 | `trimEnd` removes a suffix made only of whitespace and stops at the last non-whitespace character |
| Text.TrimEmptyIffAllSpace | App.tsx:43 | `topic.trim()` is empty exactly when every character of the topic is `\s` whitespace |
| Text.Trim | App.tsx:43 | `String.prototype.trim`: its behaviour is stated by TrimStartRemovesLeadingSpace, TrimEndRemovesTrailingSpace and TrimEmptyIffAllSpace |
| Text.IndexOf | App.tsx:81 | `indexOf('{')` is -1 exactly when there is no `{`; otherwise it is the position of the first `{` |
| Text.LastIndexOf | App.tsx:82 | `lastIndexOf('}')` is -1 exactly when there is no `}`; otherwise it is the position of the last `}` |
| Text.Concat | App.tsx:65-75 | the accumulated text is empty exactly when every chunk was empty |
| Text.ConcatAppend | App.tsx:74 | `accumulatedJson += chunk` appends the chunk's text to the concatenation of the earlier chunks |
| JsonSpan.ExtractJsonSpan | App.tsx:81-88 | a failed extraction carries the no-JSON-object message; a successful one starts with `{` and ends with `}` |
| JsonSpan.ExtractFailsIffNoBracePair | App.tsx:84-86 | extraction fails exactly when no `{` comes before a `}` (no `{`, no `}`, or the last `}` before the first `{`) |
| JsonSpan.ExtractedSpanIsOutermost | App.tsx:81-88 | the extracted span is a slice of the text with no `{` before it and no `}` after it |
| JsonSpan.ExtractIgnoresSurroundingProse | App.tsx:81-88 | prose without `{` before an object and without `}` after it is stripped; exactly the object is extracted |
| FileName.ReplaceScan | App.tsx:169 | the scan emits no whitespace and never lengthens the text |
| FileName.ReplaceWhitespaceRuns | App.tsx:169 | the file-name part contains no whitespace and is no longer than the topic |
| FileName.NoSpaceUnchanged | App.tsx:169 | a topic without whitespace is used unchanged |
| FileName.ReplaceIdempotent | App.tsx:169 | sanitising a sanitised name changes nothing |
| FileName.RestOfRunVanishes | App.tsx:169 | within a run that is already being replaced, further whitespace emits nothing |
| FileName.RunBecomesOneUnderscore | App.tsx:169 | a whole whitespace run becomes exactly one `_` |
| FileName.ScanAppend | App.tsx:223 | scanning `a + b` is scanning `a`, then scanning `b` from the state `a` leaves |
| FileName.ReplaceSplitsBetweenRuns | App.tsx:223 | cutting the topic where no whitespace run straddles the cut cuts the file name at the same place |
| Progress.NextProgress | App.tsx:53-60 | a tick adds 5 or lands on 95, never exceeds 95, and never lowers a value at or under 95 |
| Progress.ProgressAfter | App.tsx:52-61 | the progress after n ticks from the reset value 0; ProgressAfterIsClamped gives its closed form `min(5n, 95)` |
| Progress.ProgressAfterIsClamped | App.tsx:52-61 | after n ticks from 0 the progress is `min(5n, 95)` |
| Progress.ProgressAfterInRange | App.tsx:52-61 | ticking from 0 shows only multiples of 5 between 0 and 95 |
| Progress.ProgressIsMonotone | App.tsx:52-61 | more ticks never show less progress |
| Progress.StopsAtTwentiethTick | App.tsx:55-57 | the interval clears itself on the 20th tick and on no earlier one |
| Schemas.ScriptSchemaFields | services/geminiService.ts:21-29 | the script object declares and requires exactly hook, conflict and resolution |
| Schemas.SinglePlanSchemaFields | services/geminiService.ts:46-56 | the single plan requires the justification plus the six shared fields, which is everything it declares |
| Schemas.DayPlanSchemaFields | services/geminiService.ts:58-65 | a day requires `day` plus the six shared fields, which is everything it declares, so not the justification |
| Schemas.ThirtyDayPlanSchemaFields | services/geminiService.ts:67-81 | the 30-day plan declares and requires exactly the justification and `plan` |
| Schemas.BasePropertiesRequireOnlyDeclared | services/geminiService.ts:12-44 | no shared field holds an object that requires an undeclared field |
| Schemas.SinglePlanRequiresOnlyDeclared | services/geminiService.ts:46-56 | the single-plan schema requires only declared fields, at every depth |
| Schemas.DayPlanRequiresOnlyDeclared | services/geminiService.ts:58-65 | the day schema requires only declared fields, at every depth |
| Schemas.SchemasRequireOnlyDeclared | services/geminiService.ts:12-81 | none of the three schemas requires an undeclared field, at any depth |
| Prompts.StyleGuidanceFollowsStyle | services/geminiService.ts:90-92 | the no-face guidance is chosen exactly for `faceless`, the on-camera guidance exactly for `with-face` |
| Prompts.StyleGuidance | services/geminiService.ts:90-92 | the guidance sentence of the chosen style, as StyleGuidanceFollowsStyle states in both directions |
| Prompts.LinkGuidanceQuotesLink | services/geminiService.ts:94-96 | the link guidance is empty exactly when the link is; otherwise the link appears verbatim after the lead-in sentence |
| Prompts.LinkGuidance | services/geminiService.ts:94-96 | the link guidance, empty exactly for an empty link and otherwise quoting it, as LinkGuidanceQuotesLink states |
| Prompts.Quoted | services/geminiService.ts:102 | a quoted value is the value with one character added on each side |
| Prompts.SinglePlanPromptQuotesTopicAndStyle | services/geminiService.ts:101-103 | the prompt holds the quoted topic after its label, followed by the style value and its guidance |
| Prompts.SinglePlanPromptWithoutLink | services/geminiService.ts:104 | without a link there is no link line: the user details are followed directly by the instructions |
| Prompts.SinglePlanPromptWithLink | services/geminiService.ts:104 | with a link, the `Profile Inspiration` label follows the user details, and the link follows the label and the lead-in |
| Prompts.SinglePlanPromptRepeatsStyle | services/geminiService.ts:149 | the style value appears again in the visuals instruction |
| Prompts.SinglePlanPrompt | services/geminiService.ts:98-156 | the single-plan prompt; where the topic, style, guidance and link sit in it is stated by SinglePlanPromptQuotesTopicAndStyle, SinglePlanPromptWithoutLink, SinglePlanPromptWithLink and SinglePlanPromptRepeatsStyle |
| Prompts.ThirtyDayPromptQuotesTopic | services/geminiService.ts:184-197 | the 30-day prompt quotes the topic twice, at the two positions the template gives |
| Prompts.ThirtyDayPromptDeterminesTopic | services/geminiService.ts:180-225 | different topics give different 30-day prompts |
| Prompts.ThirtyDayPrompt | services/geminiService.ts:180-225 | the 30-day prompt, a function of the topic alone; ThirtyDayPromptQuotesTopic and ThirtyDayPromptDeterminesTopic state where the topic sits and that it can be read back |
| GeminiService.Relay | services/geminiService.ts:168-175 | the generator yields exactly the upstream chunk texts in order, and fails exactly when upstream failed, always with the fixed content-plan message |
| GeminiService.GenerateContentPlanStream | services/geminiService.ts:158-175 | the same, for the single-plan request built from the form inputs |
| GeminiService.GenerateThirtyDayPlan | services/geminiService.ts:178-244 | succeeds exactly when the call answers and the whole answer parses, returning the parse; every other outcome is the fixed 30-day error |
| GeminiService.SinglePlanRequest | services/geminiService.ts:158-166 | the streaming request: the single-plan prompt, with model, MIME type, schema and temperature as RequestsNameTheirSchemas states |
| GeminiService.ThirtyDayRequest | services/geminiService.ts:227-235 | the one-shot request: the 30-day prompt, with model, MIME type, schema and temperature as RequestsNameTheirSchemas states |
| GeminiService.RequestsNameTheirSchemas | services/geminiService.ts:158-235 | the single-plan request names the single-plan schema at temperature 0.8, the 30-day request the 30-day schema at 0.7, both with `gemini-2.5-flash` and `application/json` |
| GeminiService.ThirtyDayRequestDeterminesTopic | services/geminiService.ts:227-235 | the 30-day request determines the topic |
| App.Conclude | App.tsx:80-97 | never both a plan and an error; a plan only from a successful extraction and parse; neither exactly when no chunk arrived and no text accumulated |
| App.ConcludeWithoutChunks | App.tsx:80-93 | a stream without chunks leaves neither a plan nor an error |
| App.ConcludeWithEmptyChunks | App.tsx:91-92 | chunks that all carried empty text give the empty-response error |
| App.ConcludeWithoutBraces | App.tsx:84-86 | text without a `{` before a `}` gives the no-JSON-object error |
| App.ConcludeWithUnparsableObject | App.tsx:89-96 | an extracted object that the parse rejects leaves no plan and the parser's own message as the error |
| App.ConcludeIgnoresProse | App.tsx:81-90 | prose around the object is ignored: the plan is what the parse makes of the object alone |
| App.GuardsDisagreeOnWhitespaceTopics | App.tsx:109 | the two handlers' guards disagree, in either direction, exactly on non-empty topics made only of whitespace |
| App.Planner.constructor | App.tsx:26-38 | the initial state: empty form, `with-face`, nothing loading, no plan, no error, modal closed |
| App.Planner.EditForm | App.tsx:26-28 | the form inputs are set and the invariant is kept |
| App.Planner.StartGeneration | App.tsx:42-61 | starts exactly when the trimmed topic is non-empty and nothing is loading; a refused start changes nothing; a start clears plan, error, 30-day plan and progress, and starts the timer |
| App.Planner.Reset | App.tsx:45-61 | the resets after the guard and the start of the timer establish the invariant |
| App.Planner.Tick | App.tsx:52-61 | one firing applies the updater, and clears the timer exactly when 95 would be passed |
| App.Planner.RunTimer | App.tsx:52-61 | any number of firings keeps the progress equal to the clamped tick count |
| App.Planner.ReceiveChunk | App.tsx:68-75 | a chunk is appended to the accumulated text, and the skeleton gives way to the empty plan `{}` |
| App.Planner.ReceiveAll | App.tsx:68-75 | after the loop, the accumulated text is the concatenation of all delivered chunks |
| App.Planner.EndStream | App.tsx:77-93 | the timer stops, progress shows 100, and plan and error are what `Conclude` decides from the chunks |
| App.Planner.FailStream | App.tsx:95-100 | a thrown error records its message, clears the plan and stops the timer |
| App.Planner.Settle | App.tsx:101-104 | the delayed callback ends loading and resets progress to 0 |
| App.Planner.ConsumeStream | App.tsx:63-105 | after the settle, plan and error are the generator's failure or the `Conclude` outcome |
| App.Planner.HandleGeneratePlan | App.tsx:42-106 | the whole handler: runs exactly when the guard passes; a run clears the 30-day plan and its error, plan and error then follow from what the model streams for the request built from the form, and loading, progress and timer are back at rest; its frame leaves the form, the modal and the 30-day loading flag untouched |
| App.Planner.BeginThirtyDayPlan | App.tsx:108-111 | starts exactly when the topic is non-empty, with no check for a request in flight; it sets loading and clears the error |
| App.Planner.CompleteThirtyDayPlan | App.tsx:112-120 | success stores a fresh plan holding the parsed days and opens the modal; failure records the message; loading ends either way |
| App.Planner.HandleGenerateThirtyDayPlan | App.tsx:108-121 | the whole handler: a parsed response becomes the plan (justification and days, in a freshly allocated array) and opens the modal; anything else becomes the fixed 30-day error and keeps the previous plan and modal state; its frame leaves the form and the single-plan state untouched |
| PlanTypes.ThirtyDayPlan.constructor | types.ts:28-31 | the object holds the justification and a fresh array of exactly the parsed days |
| PlanTypes.AdPlan.constructor | components/AdPlanCard.tsx:2 | the object holds the given fields and a fresh array of exactly the given ads |
| KeySort.StableSortIsUnique | components/ThirtyDayPlanModal.tsx:123 | two sorted orders that keep each key's entries in the same order are equal, so a stable sort's result is determined |
| KeySort.Sink | components/ThirtyDayPlanModal.tsx:123 | inserting one entry extends the sorted prefix, keeps the multiset and keeps each key's entries in order |
| KeySort.SortByKey | components/ThirtyDayPlanModal.tsx:123 | sorts in place into non-decreasing key order, as a permutation, stably; an array already in order is unchanged |
| PlanViews.SortThirtyDayPlan | components/ThirtyDayPlanModal.tsx:123 | the calendar's own array ends up in day order, stable and a permutation, and the call returns that array |
| PlanViews.SortAdPlan | components/AdPlanCard.tsx:134 | the campaign's own array ends up in week order, stable and a permutation, and the call returns that array; the other fields are untouched |

## Left out

- The SDK client and the network: each call is a function-typed parameter that returns the chunk texts (or the reply) and whether it failed. Failures are not located at a particular chunk. Only the sequence of chunks yielded before the failure matters, and the consumer discards those on a failure.
- The `API_KEY` check at module load, and the `console.error` logging.
- Wall-clock time: the 200 ms interval and the 1000 ms settle delay. The interleaving of ticks with chunks is a parameter (`ticksBefore`). The settle is a separate event that the driver runs at the end.
- A chunk whose `text` is `undefined`: the model treats every chunk text as a string.
- The internals of `JSON.parse`, and the lack of any validation of its result: the parse is a parameter that returns a plan or an error message.
- The prompt prose: the persona, methodology and output-rule passages, the style guidance and the link sentences are abbreviated constants. Where the user's inputs go, and the branches on them, are modelled exactly.
- The schemas' `description` strings, which are prose addressed to the model.
- PDF and HTML export (html2canvas, jsPDF, Blob download) apart from the file-name sanitiser, and all rendering.
- Day and week values that are not integers, or comparator results that are NaN: keys are `int`. The sort is any stable one, as ECMAScript 2019 requires; the engine's particular algorithm is not modelled.
- String encoding: Dafny strings are sequences of Unicode code points, while JavaScript strings are sequences of UTF-16 code units. Lengths and indices differ for characters outside the Basic Multilingual Plane, and lone surrogates cannot be represented. None of the modelled results depends on this, since `{`, `}` and the `\s` characters are all single code units.
- The `Ad` and `AdPlan` records are imported from `types.ts` but not defined there. They are modelled from the fields `components/AdPlanCard.tsx` reads.
- Concurrency between the two handlers, and a second `handleGeneratePlan` click during the settle delay, beyond what the `isLoading` guard captures. Each event method runs to completion.
