# dataloom-bolt schema generation, modelled in Dafny

dataloom-bolt turns a plain-language description, an uploaded SQL file or both
into a database schema. This project models the pure core of that flow:

- **Prompt construction and input validation** (`src/lib/ai-prompts.ts`,
  module `AiPrompts`). The three prompt templates, the choice between them, and
  the length rules checked before anything is generated. The template texts are
  reproduced verbatim.
- **The generation flow** (`src/lib/ai-service.ts`, modules `ResponseParsing`
  and `AiService`):
  - `parseAIResponse` and its four regular expressions. Each is modelled as the
    set of all its matches plus the order in which a backtracking matcher tries
    them, and the extracting function is proved to return the first match in
    that order.
  - `generateDatabaseSchema`: validate, build the prompt, call the model, parse.
    The progress listener is a `ProgressLog` object that records every event it
    is handed.
  - The development stand-ins `generateDatabaseSchemaMock` and
    `generateMockSchema`, whose fixed schemas are reproduced verbatim.
- **Project helpers** (`src/lib/supabase/queries.ts`, module `ProjectHelpers`).
  The pure `dbHelpers`: project name, tags and preview text.
- **String primitives** (module `TextOps`). The JavaScript string operations
  these use: `trim`, `split`, `join`, `includes`, ASCII `toLowerCase`, and the
  ECMAScript white-space set behind `\s` and `trim`.

Validation follows the code. With an empty description and SQL shorter than 20
characters, `validateSchemaInput` reports only "SQL file seems too short to be
a valid schema". The empty description is falsy, so neither the missing-input
rule nor the description-too-short rule fires (`AiPrompts.EmptyDescriptionWithShortSql`).

Two consequences of the code as written are proved rather than assumed.

**The documented response layout yields "**".** The system prompt asks the
model to answer with `**Suggestions:**` and `**Estimated Cost:**` labels.
- The cost expression `/cost[:\-]?\s*([^\n]+)/i` then matches "Cost" and
  captures the rest of that line, which is the closing `**`. So the cost is
  `"**"` (`ResponseParsing.DocumentedCostLayout`). This holds for every
  response whose first "cost" ends a line in `Cost:**`
  (`ResponseParsing.BoldCostLabel`).
- For the same reason, the first suggestion is `"**"`
  (`ResponseParsing.DocumentedSuggestionLayout`). This holds for every
  response whose first "suggestion" is followed by `s:**` and a bulleted
  line (`ResponseParsing.BoldSuggestionsLabel`).

**The "ai_processing" events stay between 30% and 36%.** Their percentage is
30 + 0.6·p. The values `callAIAPI` reports are
`Math.min(95, Math.random() * 10)`, which lie in [0, 10), so in exact
arithmetic these events stay in [30, 36) and not 30–90 as the comment says
(`AiService.RunProgressBounds`). In double precision the largest value
`Math.random()` can give rounds the top event to exactly 36, so the program's
range is [30, 36].

## Model

| member | source | states |
|---|---|---|
| TextOps.Trim | src/lib/ai-service.ts:174 | `String.prototype.trim`: the result has no leading or trailing white space, is empty exactly when the input is all white space, and is the input with a white-space prefix and suffix removed |
| TextOps.TrimOfTrimmed | src/lib/ai-service.ts:187 | trimming a text that is already trimmed leaves it unchanged |
| TextOps.Lower | src/lib/supabase/queries.ts:186 | `toLowerCase` keeps the length and lowers each character |
| TextOps.Find | src/lib/supabase/queries.ts:187 | the search returns the first position at or after `from` where the pattern occurs, and None only when it occurs nowhere after `from` |
| TextOps.ContainsIff | src/lib/supabase/queries.ts:187 | `includes` holds exactly when the pattern occurs at some position |
| TextOps.ContainsInfix | src/lib/ai-prompts.ts:142-144 | a text placed between two template parts is contained in the result |
| TextOps.Join | src/lib/supabase/queries.ts:170 | `join`: empty for no parts; otherwise as long as the parts plus one separator between each two, starting with the first part and ending with the last |
| TextOps.JoinContainsEach | src/lib/ai-service.ts:44 | every part of a joined list is contained in the joined text |
| TextOps.SplitOn | src/lib/supabase/queries.ts:170 | `split(' ')` yields at least one piece and no piece contains the separator |
| TextOps.JoinSplitOn | src/lib/supabase/queries.ts:170 | joining the pieces of a split with its separator gives back the original text |
| TextOps.JoinedLeadingPieces | src/lib/supabase/queries.ts:170 | joining the first n pieces of a split gives the prefix of the text up to its n-th separator |
| TextOps.Ellipsize | src/lib/supabase/queries.ts:171 | a text within the limit is unchanged; a longer one becomes its first n characters plus "..." |
| AiPrompts.GenerateNewSchemaPrompt | src/lib/ai-prompts.ts:141-168 | new-schema mode: the shared system prompt, temperature 0.3, 2500 tokens, and the quoted description inside the user prompt |
| AiPrompts.GenerateSqlImprovementPrompt | src/lib/ai-prompts.ts:173-226 | improvement mode: the shared system prompt, temperature 0.2, 3000 tokens, with both the fenced SQL and the quoted description inside the user prompt |
| AiPrompts.GenerateSchemaAnalysisPrompt | src/lib/ai-prompts.ts:231-294 | analysis mode: the shared system prompt, temperature 0.3, 3500 tokens, and the fenced SQL inside the user prompt |
| AiPrompts.GenerateAIPrompt | src/lib/ai-prompts.ts:299-312 | improvement when SQL and a description are present, analysis when only SQL is, new schema otherwise; each mode with its settings and embedded inputs |
| AiPrompts.ValidateSchemaInput | src/lib/ai-prompts.ts:336-371 | the errors are the messages of all violated rules in rule order; the input is valid exactly when no rule is violated |
| AiPrompts.ValidationErrorsUnfold | src/lib/ai-prompts.ts:342-365 | the error list, written out rule by rule in the order the code evaluates the rules |
| AiPrompts.ValidationErrorsEmptyIff | src/lib/ai-prompts.ts:367-370 | no errors exactly when no rule is violated |
| AiPrompts.RuleReportedIff | src/lib/ai-prompts.ts:342-365 | each message is reported exactly when its rule is violated |
| AiPrompts.MissingInputIsAlone | src/lib/ai-prompts.ts:342-345 | the missing-input message appears exactly when both inputs are empty, and it is then the only message |
| AiPrompts.AtMostTwoErrors | src/lib/ai-prompts.ts:347-365 | at most two messages: one about the description, then one about the SQL |
| AiPrompts.EmptyDescriptionWithShortSql | src/lib/ai-prompts.ts:342-360 | an empty description next to short SQL gives exactly the one SQL message |
| AiPrompts.ValidInputBounds | src/lib/ai-prompts.ts:342-365 | valid input has a description of 10 to 2000 characters when it has one, SQL of 20 to 50000 characters when it has some, and at least one of the two |
| ResponseParsing.FindSqlMatch | src/lib/ai-service.ts:173 | `/```sql\n([\s\S]*?)\n```/`: the leftmost match with the shortest body, or None when nothing matches |
| ResponseParsing.ExtractSql | src/lib/ai-service.ts:173-174 | the trimmed body of the first fenced SQL block, falling back to the whole response when there is no block or its body is blank (line 196) |
| ResponseParsing.NextSuggestionsAhead | src/lib/ai-service.ts:177 | the lookahead for a suggestions label or the end of the text: the first position from `from` where a suggestions label starts, or the end of the text |
| ResponseParsing.FindExplanationMatch | src/lib/ai-service.ts:177 | the explanation expression: the first match in backtracking order (leftmost, optional separator taken first, shortest body), or None |
| ResponseParsing.ExtractExplanation | src/lib/ai-service.ts:177-178 | the trimmed explanation text, never empty and trimmed; "Schema generated successfully" when there is no match or the text is blank (line 197) |
| ResponseParsing.FindSuggestionsMatch | src/lib/ai-service.ts:181 | the suggestions expression: the first match in backtracking order, or None |
| ResponseParsing.DigitRunEnd | src/lib/ai-service.ts:186 | the end of the run of digits starting at k |
| ResponseParsing.ItemMarkerEnd | src/lib/ai-service.ts:186 | the item separator (a line feed then digits and a dot, or a line feed then a bullet) matches at q ending at e exactly when the result is e |
| ResponseParsing.SplitFrom | src/lib/ai-service.ts:186 | the split of the text from a piece start: one more piece than separators |
| ResponseParsing.SplitItems | src/lib/ai-service.ts:186 | `split` of the suggestions section: at least one piece, and no piece contains an item separator |
| ResponseParsing.SplitFromSound | src/lib/ai-service.ts:186 | the split pieces and separators weave back into the text, every separator is an item marker, and no piece contains one |
| ResponseParsing.SplitItemsSound | src/lib/ai-service.ts:186 | the same guarantees for the whole suggestions section |
| ResponseParsing.TrimAll | src/lib/ai-service.ts:187 | every item is trimmed, positions kept |
| ResponseParsing.NonEmptyOnly | src/lib/ai-service.ts:188 | keeps exactly the non-empty items: a subsequence of the input, in order, with each non-empty item as often as in the input and no empty one |
| ResponseParsing.SuggestionItems | src/lib/ai-service.ts:185-188 | every item left after split, trim and filter is non-empty and trimmed |
| ResponseParsing.ExtractSuggestions | src/lib/ai-service.ts:181-189 | at least one suggestion, each non-empty and trimmed; the items of the first match's section, or the default suggestion when there is no match or no items (line 198) |
| ResponseParsing.LineEnd | src/lib/ai-service.ts:192 | `[^\n]+` runs greedily to the next line feed or the end of the text |
| ResponseParsing.LastNonNewline | src/lib/ai-service.ts:192 | the last position before hi that is not a line feed, or None when there is none |
| ResponseParsing.CostGroupAt | src/lib/ai-service.ts:192 | for one "cost" occurrence and separator choice: the highest-priority capture under backtracking, or None when none exists |
| ResponseParsing.FindCostMatchFrom | src/lib/ai-service.ts:192 | the first cost match in backtracking order at or after `from`, or None |
| ResponseParsing.CostFirstUnique | src/lib/ai-service.ts:192 | the first cost match is unique |
| ResponseParsing.ExtractCost | src/lib/ai-service.ts:192-193 | None exactly when the cost expression has no match; otherwise the trimmed capture of the first match |
| ResponseParsing.ParseAIResponse | src/lib/ai-service.ts:166-201 | never fails; the explanation and each of the one or more suggestions are non-empty and trimmed; the cost is trimmed; each field falls back to its default when its marker is absent |
| ResponseParsing.SqlBlockRoundTrip | src/lib/ai-service.ts:173-174 | a response that opens with a fenced SQL block yields exactly that block's trimmed body |
| ResponseParsing.CostAbsentIff | src/lib/ai-service.ts:192-193 | there is no cost exactly when every "cost" in the text is followed only by line feeds |
| ResponseParsing.CostAfterLabel | src/lib/ai-service.ts:192-193 | when the first "cost" is followed by a colon or dash and then non-space text, the cost is the trimmed rest of that line |
| ResponseParsing.BoldCostLabel | src/lib/ai-service.ts:192-193 | when the first "cost" is followed by `:**` and the end of its line, the extracted cost is "**" |
| ResponseParsing.DocumentedCostLayout | src/lib/ai-prompts.ts:133-134 | for the "**Estimated Cost:**" layout the system prompt asks for, the extracted cost is "**" |
| ResponseParsing.BoldSuggestionsLabel | src/lib/ai-service.ts:181-189 | when the first "suggestion" is followed by `s:**`, a line feed and a bullet, the first extracted suggestion is "**" |
| ResponseParsing.DocumentedSuggestionLayout | src/lib/ai-prompts.ts:127-128 | for the "**Suggestions:**" layout the system prompt asks for, the first suggestion is "**" |
| AiService.ProgressLog.Report | src/lib/ai-service.ts:30 | the listener records the event after all earlier ones |
| AiService.Notify | src/lib/ai-service.ts:34-38 | `onProgress?.(p)`: the event is recorded when there is a listener, and nothing happens otherwise |
| AiService.ProcessingEvent | src/lib/ai-service.ts:65-69 | a value p reported by the model call becomes an "ai_processing" event at 30 + 0.6·p percent |
| AiService.RunEvents | src/lib/ai-service.ts:34-85 | a run's events start with validation; invalid input reports only that one; valid input goes on with the prompt and ai_call events |
| AiService.CallResult | src/lib/ai-service.ts:87-97 | success exactly when the call returned, with the parsed response and no error; a throw gives no data and its message, or the default text when it has none |
| AiService.RunResult | src/lib/ai-service.ts:40-98 | a run succeeds exactly when the input is valid and the call returned; success carries the well-formed parsed response, failure only an error text |
| AiService.GenerateDatabaseSchema | src/lib/ai-service.ts:28-99 | the result and the events reported are those a run determines from the input and the model call's outcome |
| AiService.GenerateFromValidInput | src/lib/ai-service.ts:48-90 | after validation: the prompt event, then the model call's events, and the result the call's outcome determines |
| AiService.CallModel | src/lib/ai-service.ts:58-90 | the ai_call event, the call's own progress, then parsing and completion or the caught failure |
| AiService.FinishCall | src/lib/ai-service.ts:64-90 | the call's progress events, then parsing and completion when it returned, and the result its outcome determines |
| AiService.ReportProcessing | src/lib/ai-service.ts:64-70 | one "ai_processing" event per value the call reports, in order |
| AiService.RejectionNamesEveryViolation | src/lib/ai-service.ts:40-46 | invalid input ends the run after the validation event, and the error text contains the message of every violated rule |
| AiService.RunProgressBounds | src/lib/ai-service.ts:64-70 | with the values `callAIAPI` reports (below 10, at ai-service.ts lines 119-120), every event lies between 10% and 100%, and "ai_processing" events lie in [30, 36) |
| AiService.RunProgressOrder | src/lib/ai-service.ts:33-85 | the percentage rises into every event except "ai_processing" ones, and never falls after an event that is not "ai_processing" |
| AiService.RunBoundaries | src/lib/ai-service.ts:33-90 | a run starts with the validation event, and ends with the completion event exactly when it succeeds |
| AiService.MockStepsMirrorRun | src/lib/ai-service.ts:211-218 | the mock's steps and messages are those of a successful run with one reported value, and its percentages rise strictly from 10 to 100 |
| AiService.GenerateMockSchema | src/lib/ai-service.ts:237-326 | the improved schema exactly when SQL was uploaded, otherwise the blog schema with a comments table; both create users and posts; the explanation starts with "Improved" or "Created" respectively; the explanation, the four suggestions and the cost are non-empty and trimmed |
| AiService.MockDependsOnlyOnUpload | src/lib/ai-service.ts:238 | the mock response depends only on whether SQL was uploaded |
| AiService.ImprovedSqlTables | src/lib/ai-service.ts:242-264 | the improved schema creates the users and posts tables |
| AiService.GeneratedSqlTables | src/lib/ai-service.ts:277-316 | the blog schema creates the users, posts and comments tables |
| AiService.GenerateDatabaseSchemaMock | src/lib/ai-service.ts:206-232 | reports the six fixed steps in order and succeeds with the mock response, without validating |
| ProjectHelpers.LeadingWords | src/lib/supabase/queries.ts:170 | the prompt up to its fourth space: a prefix with at most three spaces that stops only at a fourth one |
| ProjectHelpers.GenerateProjectName | src/lib/supabase/queries.ts:167-179 | the leading words of a non-empty prompt, cut to 30 characters plus "..."; else "Schema from" plus the file name; else "Untitled Schema" plus the date |
| ProjectHelpers.KeepContained | src/lib/supabase/queries.ts:187 | `filter` keeps, in order, exactly the tags the text contains |
| ProjectHelpers.SubsequenceNoDuplicates | src/lib/supabase/queries.ts:182-187 | keeping some tags of a list without repeats produces no repeat |
| ProjectHelpers.ExtractTagsFromPrompt | src/lib/supabase/queries.ts:181-189 | exactly the common tags the lower-cased prompt contains, in list order, without repeats |
| ProjectHelpers.FormatProjectPreview | src/lib/supabase/queries.ts:191-203 | a non-empty prompt, cut to 100 characters plus "..."; else "SQL file uploaded"; else "No description available"; never empty and at most 103 characters |

## Left out

- `callAIAPI`: the API key lookup, the `fetch` to the model service and its
  response handling are not modelled. The whole call is a parameter: from the
  prompt configuration it gives the values the call reported and whether it
  returned text or threw, with or without an `Error` message.
- Timers and randomness: the `setInterval` ticks of `callAIAPI` and the
  `setTimeout` pauses of the mock. The ticks are part of the call parameter; the
  pauses change nothing observable.
- `console.error` in the failure path: output only.
- A listener that throws, and the asynchronous interleaving of `await`: not
  modelled. Events are recorded in program order.
- `generateProjectName`: its date fallback reads the clock and the locale, so
  the formatted date is the parameter `today`.
- `toLowerCase` is modelled on ASCII letters only, and lengths count characters,
  not UTF-16 code units.
- `clientQueries` and `serverQueries` in `src/lib/supabase/queries.ts`: database
  access through the Supabase client.
- `EXAMPLE_PROMPTS`: sample texts for the UI.
- The React pages that call this code.
- RunProgressBounds: percentages are exact reals, not doubles. The strict
  bound below 36 holds for the model; in double precision `30 + p * 0.6`
  rounds to exactly 36 for the largest tick `Math.random()` can produce
  (p = 9.999999999999998), so the program reaches 36 itself.
- ProcessingEvent: computed over exact reals; double rounding of
  `30 + p * 0.6` is not modelled.
