# TradingAI Pro: a Dafny model of the analysis edge function and the two front ends

TradingAI Pro lets a trader upload a chart screenshot, pick one of ten "AI"
presets (or run an automatic analysis) and see a CALL/PUT signal with a
confidence, an entry time and a reasoning text. This project models three parts
of it and proves what they promise.

- **The `analyze-with-openrouter` edge function.** A POST body carries
  `imageUrl` (a data URL) and `selectedAI` (a preset id). The function:
  - refuses a missing image with 400;
  - refuses a missing OpenRouter key with 500;
  - re-labels the image as a JPEG data URL;
  - adds the chosen preset's specialty to the instructions;
  - forwards everything to the chat-completion endpoint;
  - relays a failing upstream status with the upstream body as `details`;
  - otherwise answers 200 with the *normalised* reply.

  The reply normaliser cuts the JSON out of a ```` ```json ```` fenced block, or
  strips a conversational preamble and trims. It then parses the text and merges
  each field over fixed defaults with JavaScript's `||`; the confidence goes
  through `parseInt` and falls back to 50. On failure it writes a diagnostic
  that quotes at most 500 characters of the text.
- **The plain-JavaScript front end (`TradingAI` in `app.js`).** A class holds the
  selected preset and the uploaded image. It recomputes the two analysis
  buttons from them, filters files from the picker, drops and pastes so that
  only images are read, and builds a simulated result.
- **The React front end (`App` in `src/App.tsx`).** It holds the same state plus
  the loading and result flags. Its `performAnalysis` sequences them around the
  simulated wait. Its result generator falls back to M1 when no timeframe is
  checked, and to "N/A" when no preset matches.

## How the environment is modelled

The model takes the environment as parameters:
- `JSON.parse` is a partial function `string -> Option<JSValue>`.
- The result of `req.json()` is an `Option<JSValue>`, where `None` means it throws.
- `Deno.env.get` is an `Option<string>`.
- `fetch` is a function from the forwarded request to an optional reply: its
  status and its body as read by `.json()`.
- `Math.random()` is the bounded integers `Math.floor(Math.random() * n)` it
  becomes.
- The clock is integer milliseconds.
- The DOM values read by the result generators are arguments.

JavaScript semantics are modelled where the code relies on them:
- ToBoolean;
- property access, which throws on `null`/`undefined`;
- ToString, including the TypeError raised for an object with an own
  `toString` member;
- `parseInt` per section 19.2.5 of ECMA-262: leading whitespace, sign, a
  `0x` prefix, the longest digit run;
- `String.prototype.trim`, `substring` and `split`;
- the two regular expressions: the leftmost lazy match of the fence expression
  (index.ts:127), and the anchored, greedy repetition of ordered alternatives
  that the preamble expression removes (index.ts:131).

A thrown exception is a `Completion.Throw`. The edge function's outer `catch`
turns it into the 500 `ThrownErrorBody`.

## Modules

| file | module | contents |
|---|---|---|
| wrappers.dfy | `Wrappers` | `Option` |
| js_strings.dfy | `JsStrings` | whitespace, `indexOf`, `trim`, `substring`, `split`, `parseInt` |
| js_values.dfy | `JsValues` | JSON values, truthiness, member access, ToString, `Completion` |
| catalog.dfy | `Catalog` | the presets, assets, canned analyses and loading messages; `find` by id |
| reply_normalizer.dfy | `ReplyNormalizer` | extraction, merge, diagnostic; the imperative rendition of the normaliser |
| analyze_with_openrouter.dfy | `AnalyzeWithOpenRouter` | guards, forwarded request, upstream handling, the whole handler |
| mock_analysis.dfy | `MockAnalysis` | confidence clamp, entry time, asset fallback, result record |
| browser_input.dfy | `BrowserInput` | files, clipboard items, the image filter |
| trading_ai.dfy | `TradingAIApp` | the `TradingAI` class |
| react_app.dfy | `ReactApp` | the `AppState` class and the React result generator |

## Model

| member | source | states |
|---|---|---|
| JsStrings.IndexOf | supabase/functions/analyze-with-openrouter/index.ts:127 | the result is an occurrence at or after the start, and no earlier one exists; `None` only when there is none at all |
| JsStrings.LeadingWhitespace | supabase/functions/analyze-with-openrouter/index.ts:131 | the count is the length of the whitespace run that starts the text: all of it is whitespace and the character after it is not |
| JsStrings.TrailingWhitespace | supabase/functions/analyze-with-openrouter/index.ts:131 | the text from the returned index on is whitespace, and the character before it is not |
| JsStrings.TrimBounds | supabase/functions/analyze-with-openrouter/index.ts:131 | the bounds `trim()` keeps: everything before the first and from the second on is whitespace, and a non-empty kept part starts and ends with a non-whitespace character |
| JsStrings.TrimIsInfix | supabase/functions/analyze-with-openrouter/index.ts:131 | `trim()` is the infix between those bounds, and it neither starts nor ends with whitespace |
| JsStrings.Trim | supabase/functions/analyze-with-openrouter/index.ts:131 | `trim()` is never longer than its input and neither starts nor ends with whitespace |
| JsStrings.TrimOfTrimmed | supabase/functions/analyze-with-openrouter/index.ts:131 | `trim()` leaves a text that neither starts nor ends with whitespace unchanged |
| JsStrings.IndexOfFirstOccurrence | supabase/functions/analyze-with-openrouter/index.ts:127 | `IndexOf` returns an occurrence whenever it is the first at or after the start |
| JsStrings.SubstringFromZero | supabase/functions/analyze-with-openrouter/index.ts:143 | `substring(0, n)` is the first `min(n, length)` characters |
| JsStrings.Substring | supabase/functions/analyze-with-openrouter/index.ts:143 | never longer than the string; bounds within the string give that slice, and bounds out of order are swapped |
| JsStrings.Split | supabase/functions/analyze-with-openrouter/index.ts:32 | `split(',')` gives at least one part, no part holds the separator, and joining the parts gives back the input |
| JsStrings.SplitAtOnlySeparator | supabase/functions/analyze-with-openrouter/index.ts:32 | splitting `a,b` where neither side holds a comma gives exactly `[a, b]` |
| JsStrings.SplitAtFirstSeparator | supabase/functions/analyze-with-openrouter/index.ts:32 | the first part is the comma-free text before the first comma, and the rest is split on |
| JsStrings.ParseIntOfIntString | supabase/functions/analyze-with-openrouter/index.ts:138 | `parseInt` reads back every integer's decimal text |
| JsStrings.ParseInt | supabase/functions/analyze-with-openrouter/index.ts:138 | a number is read only when something follows the leading whitespace, and a negative one only after a `-` |
| JsStrings.ParseIntOfDigitsThenRest | supabase/functions/analyze-with-openrouter/index.ts:138 | `parseInt` of a decimal digit run followed by a non-digit is the run's value (outside the `0x` case) |
| JsStrings.ParseIntSkipsWhitespace | supabase/functions/analyze-with-openrouter/index.ts:138 | leading whitespace does not change what `parseInt` reads |
| JsStrings.NatToStringValue | supabase/functions/analyze-with-openrouter/index.ts:138 | the decimal text of a number has that number as its digit value |
| JsValues.SingletonArrayString | supabase/functions/analyze-with-openrouter/index.ts:138 | a one-element array converts to a string as its element does, so `parseInt(["85"])` is 85 |
| JsValues.Truthy | supabase/functions/analyze-with-openrouter/index.ts:123 | `null` and `undefined` are falsy, and every array and object, even an empty one, is truthy |
| JsValues.Member | supabase/functions/analyze-with-openrouter/index.ts:136-140 | an object yields its own member or `undefined`; any other value yields `undefined` for every key but `length` |
| JsValues.ToStringThrows | supabase/functions/analyze-with-openrouter/index.ts:138 | only objects and arrays can make ToString throw |
| JsValues.ToString | supabase/functions/analyze-with-openrouter/index.ts:138 | a string converts to itself, and a number to a text `parseInt` reads back as that number |
| Catalog.IndexById | supabase/functions/analyze-with-openrouter/index.ts:48 | `find` by id returns the first preset carrying the id, and `None` only when no preset does |
| Catalog.IdsDistinct | supabase/functions/analyze-with-openrouter/index.ts:36-47 | no two of the ten presets share an id |
| Catalog.FindByIdFindsPreset | supabase/functions/analyze-with-openrouter/index.ts:48 | looking up a preset's own id finds that preset |
| Catalog.NamesNonEmpty | src/App.tsx:190 | every preset name is non-empty, so `name \|\| "N/A"` is the name |
| ReplyNormalizer.FencePositionsAreLeftmostLazyMatch | supabase/functions/analyze-with-openrouter/index.ts:127 | the fence positions are the leftmost lazy match of ```` /```json\n([\s\S]*?)\n```/ ````, and there is none when no match exists anywhere |
| ReplyNormalizer.FenceGroup | supabase/functions/analyze-with-openrouter/index.ts:127-128 | `jsonMatch[1]` is the text between the opener and the closer of the leftmost lazy match, and there is no group when the expression matches nowhere |
| ReplyNormalizer.ExtractedTextOrigin | supabase/functions/analyze-with-openrouter/index.ts:127-132 | the text parsed is the non-empty group the leftmost lazy match of the fence expression captured, or else the stripped and trimmed reply, and always the latter when the expression matches nowhere |
| ReplyNormalizer.TokenLength | supabase/functions/analyze-with-openrouter/index.ts:131 | the length matched lies within the text, and it is zero exactly when the text starts with none of the expression's alternatives |
| ReplyNormalizer.TokenLengthIsToken | supabase/functions/analyze-with-openrouter/index.ts:131 | whatever is matched at the start is one of the four alternatives |
| ReplyNormalizer.PreambleBeforeFences | supabase/functions/analyze-with-openrouter/index.ts:131 | a text starting with the preamble sentence loses the whole sentence in one step |
| ReplyNormalizer.FenceJsonBeforeFence | supabase/functions/analyze-with-openrouter/index.ts:131 | a text starting with "```json" loses those seven characters in one step, not just the three backticks |
| ReplyNormalizer.StripPreamble | supabase/functions/analyze-with-openrouter/index.ts:131 | the anchored, repeated alternation leaves a suffix of the reply that starts with none of its alternatives |
| ReplyNormalizer.PreambleTokensAreTokens | supabase/functions/analyze-with-openrouter/index.ts:131 | each piece the replacement removes is one of the expression's four alternatives |
| ReplyNormalizer.PreambleTokensDecompose | supabase/functions/analyze-with-openrouter/index.ts:131 | the removed pieces, in the order matched, make up exactly the part of the reply before the text kept |
| ReplyNormalizer.StripAndTrimShape | supabase/functions/analyze-with-openrouter/index.ts:131 | without a fence, the text parsed occurs in the reply exactly where the preamble expression stopped matching |
| ReplyNormalizer.TrimOfTokenFree | supabase/functions/analyze-with-openrouter/index.ts:131 | trimming a text that starts with no alternative only cuts whitespace at its end, and what is left is bare |
| ReplyNormalizer.StrippedTextIsBare | supabase/functions/analyze-with-openrouter/index.ts:131 | without a fence, the text parsed starts with no alternative of the preamble expression and ends in no whitespace |
| ReplyNormalizer.FencedBlockExtracted | supabase/functions/analyze-with-openrouter/index.ts:127-129 | when nothing before the block holds a backtick, a reply carrying a fenced block with a non-empty body yields exactly that body, untrimmed, whatever comes after |
| ReplyNormalizer.FencingIsTransparent | supabase/functions/analyze-with-openrouter/index.ts:127-132 | bare JSON text with and without the fence is extracted the same |
| ReplyNormalizer.BareTextKept | supabase/functions/analyze-with-openrouter/index.ts:127-132 | bare text holding no closing fence is handed to `JSON.parse` as it is |
| ReplyNormalizer.Diagnostic | supabase/functions/analyze-with-openrouter/index.ts:143 | the diagnostic is the fixed prefix, at most the first 500 characters of the text, then "..." |
| ReplyNormalizer.CoerceConfidence | supabase/functions/analyze-with-openrouter/index.ts:138 | `parseInt(c) \|\| 50` is never zero; it is 50 or what `parseInt` read, and a non-zero reading is kept |
| ReplyNormalizer.Merge | supabase/functions/analyze-with-openrouter/index.ts:136-140 | after a full merge every field is truthy and the confidence non-zero |
| ReplyNormalizer.NormalizeJsonText | supabase/functions/analyze-with-openrouter/index.ts:134-144 | every record is filled in this way, and a confidence other than 50 only comes from a full merge of a parsed, non-null value |
| ReplyNormalizer.ReplyContent | supabase/functions/analyze-with-openrouter/index.ts:123 | a `null` or `undefined` body throws, and a content the guard lets through is truthy |
| ReplyNormalizer.NormalizeReply | supabase/functions/analyze-with-openrouter/index.ts:115-145 | a `null` or `undefined` body throws, and every record produced is filled |
| ReplyNormalizer.AnalyzeReply | supabase/functions/analyze-with-openrouter/index.ts:115-145 | the handler's statement sequence (default record, guard, extraction, `try`/`catch`) computes exactly `NormalizeReply` |
| ReplyNormalizer.AnalyzeText | supabase/functions/analyze-with-openrouter/index.ts:124-133 | reassigning the text by the extraction and then parsing computes `NormalizeText` |
| ReplyNormalizer.ParseAndMerge | supabase/functions/analyze-with-openrouter/index.ts:134-144 | overwriting the record field by field, with the `catch` overwriting the reasoning of whatever the `try` reached, computes `NormalizeJsonText` |
| ReplyNormalizer.MergedWhenConvertible | supabase/functions/analyze-with-openrouter/index.ts:134-140 | a parse to a value whose confidence converts to a string is merged in full |
| ReplyNormalizer.NoContentGivesDefaultRecord | supabase/functions/analyze-with-openrouter/index.ts:115-123 | no choices, an empty choice list, a first choice without a truthy message, or a message whose content is missing or falsy yields exactly the default record |
| ReplyNormalizer.FirstChoiceContentIsNormalized | supabase/functions/analyze-with-openrouter/index.ts:123-124 | in the usual reply shape, the first choice's message content is what gets normalised |
| ReplyNormalizer.BadReplyShapesThrow | supabase/functions/analyze-with-openrouter/index.ts:123-127 | a `null` body, or a content that is not a string, throws |
| ReplyNormalizer.ParsedObjectMerged | supabase/functions/analyze-with-openrouter/index.ts:136-140 | after a parse to an object, each of asset, direction, reasoning and pattern is the parsed member when truthy (of any type) and the default otherwise; confidence is `parseInt(...) \|\| 50` |
| ReplyNormalizer.NonObjectParseGivesDefaultRecord | supabase/functions/analyze-with-openrouter/index.ts:135-140 | a parse to an array, a string, a number or a boolean gives exactly the default record, with the default reasoning and not the diagnostic one |
| ReplyNormalizer.UnconvertibleConfidenceAbortsMerge | supabase/functions/analyze-with-openrouter/index.ts:136-144 | a confidence whose string conversion throws leaves asset and direction parsed, confidence and pattern defaulted, and the reasoning the diagnostic |
| ReplyNormalizer.MissingConfidenceDefaults | supabase/functions/analyze-with-openrouter/index.ts:138 | a missing, `null`, boolean (either value), zero or empty confidence becomes 50, as does any object without an own `toString` |
| ReplyNormalizer.ParseIntOfNonDigit | supabase/functions/analyze-with-openrouter/index.ts:138 | a text starting with no whitespace, sign or digit is NaN to `parseInt` |
| ReplyNormalizer.NumericConfidenceKept | supabase/functions/analyze-with-openrouter/index.ts:138 | a non-zero number, or its decimal text, is kept as the confidence |
| ReplyNormalizer.ConfidenceTextPrefixRead | supabase/functions/analyze-with-openrouter/index.ts:138 | a text such as "85%" is read as its leading number |
| ReplyNormalizer.WellShapedReplyReproduced | supabase/functions/analyze-with-openrouter/index.ts:134-140 | JSON with every field truthy and a non-zero numeric confidence is reproduced exactly |
| ReplyNormalizer.ParseFailureDiagnosed | supabase/functions/analyze-with-openrouter/index.ts:141-144 | when parsing fails (or yields `null`), asset, direction, confidence and pattern keep their defaults, and the reasoning is the prefix, at most 500 characters of the extracted text, then "..." |
| ReplyNormalizer.FencedAndBareRepliesAgree | supabase/functions/analyze-with-openrouter/index.ts:127-135 | a fenced reply and the same JSON sent bare give the same record |
| AnalyzeWithOpenRouter.ImagePayload | supabase/functions/analyze-with-openrouter/index.ts:32 | the payload holds no comma, and it is the literal "undefined" when the URL has no comma |
| AnalyzeWithOpenRouter.SpecialtyPrompt | supabase/functions/analyze-with-openrouter/index.ts:34-52 | the sentence is non-empty exactly when `selectedAI` is a string naming a preset, and then it embeds that preset's specialty |
| AnalyzeWithOpenRouter.EmptyIdIsNoPreset | supabase/functions/analyze-with-openrouter/index.ts:35 | no preset has the empty id, so the truthiness test adds nothing to the lookup |
| AnalyzeWithOpenRouter.Dispatch | supabase/functions/analyze-with-openrouter/index.ts:14-32 | a forwarded request carries the key as a bearer token, the model and a JPEG data URL; an early answer is a 400 or a 500 |
| AnalyzeWithOpenRouter.AnswerUpstream | supabase/functions/analyze-with-openrouter/index.ts:105-160 | an upstream error body carries the upstream's own non-OK status and its body as `details`; an analysis body is a 200 with the success message and a filled record; anything else is the outer 500 |
| AnalyzeWithOpenRouter.Handle | supabase/functions/analyze-with-openrouter/index.ts:13-167 | a 2xx status is sent exactly with an analysis body, always 200 with the success message and a non-zero confidence; error bodies are the two guard messages, the thrown 500 or the upstream failure message |
| AnalyzeWithOpenRouter.NormalizedConfidenceNonZero | supabase/functions/analyze-with-openrouter/index.ts:138 | every record the normaliser yields has a non-zero confidence |
| AnalyzeWithOpenRouter.MissingImageRejected | supabase/functions/analyze-with-openrouter/index.ts:16-21 | a body without a truthy `imageUrl` gets 400 "Image URL (base64) is required." whatever the key and the upstream; nothing is forwarded |
| AnalyzeWithOpenRouter.MissingKeyRejected | supabase/functions/analyze-with-openrouter/index.ts:23-30 | with an image but an unset or empty key the answer is the 500 naming the secret whatever the upstream; nothing is forwarded |
| AnalyzeWithOpenRouter.MalformedRequestsThrow | supabase/functions/analyze-with-openrouter/index.ts:14 | a body that is not JSON, a `null` body, or a truthy non-string image ends in the 500 of the outer `catch` |
| AnalyzeWithOpenRouter.DataUrlRelabelled | supabase/functions/analyze-with-openrouter/index.ts:32 | for a data URL with one comma the payload is everything after the comma |
| AnalyzeWithOpenRouter.ImagePayloadIsSecondSegment | supabase/functions/analyze-with-openrouter/index.ts:32 | in general the payload is the text between the first comma and the next one, or the end |
| AnalyzeWithOpenRouter.WellFormedRequestForwarded | supabase/functions/analyze-with-openrouter/index.ts:32-103 | a well-formed request is forwarded with "Bearer <key>", "openai/gpt-4o", the specialty sentence and "data:image/jpeg;base64,<data>" |
| AnalyzeWithOpenRouter.PresetSpecialtyPrompted | supabase/functions/analyze-with-openrouter/index.ts:48-51 | a preset's id yields `Foque sua análise na especialidade de "<specialty>".` |
| AnalyzeWithOpenRouter.UnknownSelectionNotPrompted | supabase/functions/analyze-with-openrouter/index.ts:35-52 | an id no preset has, or a value that is not a string, yields no sentence |
| AnalyzeWithOpenRouter.UpstreamFailureRelayed | supabase/functions/analyze-with-openrouter/index.ts:107-113 | a non-OK upstream status with a JSON body is sent with that status and that body as `details`, never as a 200 record |
| AnalyzeWithOpenRouter.UnreadableUpstreamThrows | supabase/functions/analyze-with-openrouter/index.ts:96-105 | a rejected call, or an upstream body that is not JSON (whatever the status), ends in the outer 500 |
| AnalyzeWithOpenRouter.UpstreamSuccessAnswered | supabase/functions/analyze-with-openrouter/index.ts:147-160 | an OK upstream reply is answered 200 with its normalised record and the success message |
| AnalyzeWithOpenRouter.FencedAnalysisAnswered | supabase/functions/analyze-with-openrouter/index.ts:115-160 | end to end, an OK reply whose first choice holds well-shaped JSON is answered with exactly that analysis |
| MockAnalysis.ClampConfidence | app.js:338-339 | the confidence is within 85..97 for any base and offset, and equals the shifted value when that is in range |
| MockAnalysis.ClampIsNearest | app.js:339 | no value in 85..97 is nearer the shifted value than the clamped one |
| MockAnalysis.TemplateConfidenceBelowCeiling | app.js:89-125 | for the canned templates the upper bound never binds (the confidence is at most 96); the lower bound binds only for a shifted value of 84, which it lifts to 85 |
| MockAnalysis.EntryTime | app.js:331-332 | the entry time is strictly after now, by a whole number of minutes between 2 and 4 |
| MockAnalysis.EntryTimesAreTwoToFourMinutes | app.js:331-332 | the entry time is now plus 120000, 180000 or 240000 ms, and the first only for the first draw |
| MockAnalysis.AssetOrRandom | app.js:326 | the asset is the selected value when non-empty, otherwise an element of the asset catalog |
| MockAnalysis.BuildResult | app.js:341-351 | the result carries the template's direction, reasoning and pattern, the clamped confidence, the given asset, timeframe and label, and an entry time after the analysis time |
| MockAnalysis.MockDirectionsAreCallOrPut | app.js:89-125 | every simulated direction is CALL or PUT |
| TradingAIApp.TradingAI.constructor | app.js:4-7 | no preset and no image at the start; the buttons are as the markup made them |
| TradingAIApp.TradingAI.UpdateAnalysisButtons | app.js:281-290 | the analyze button is disabled iff there is no image or no preset, the automatic one iff there is no image; nothing else changes |
| TradingAIApp.TradingAI.SelectAI | app.js:232-244 | the preset is selected, the image kept, the buttons refreshed |
| TradingAIApp.TradingAI.HandleFileSelect | app.js:246-259 | a read starts exactly for a file whose type starts with "image/", anything else is alerted, and no field changes |
| TradingAIApp.TradingAI.OnReaderLoad | app.js:253-257 | the data URL becomes the image, the preset is kept, and the automatic button is enabled |
| TradingAIApp.TradingAI.RemoveImage | app.js:271-279 | the image is cleared, the preset kept, and both buttons disabled |
| TradingAIApp.TradingAI.OnFileInputChange | app.js:157 | the picker's first file is read exactly when it is an image; otherwise, or with no file, an alert |
| TradingAIApp.TradingAI.OnDrop | app.js:170-177 | the dropped first file is read exactly when it is an image, and a drop never alerts |
| TradingAIApp.TradingAI.OnPaste | app.js:180-189 | at most one item is handed on: the first with an image type, even if it yields no file; nothing happens when there is none |
| TradingAIApp.TradingAI.GenerateMockResults | app.js:323-352 | generation throws exactly when no timeframe is checked, or when a manual analysis has no preset; otherwise the label, timeframe, clamped confidence, asset fallback, entry time and template fields are as promised |
| TradingAIApp.EnabledButtonsCanGenerate | app.js:285-289 | with current buttons, an enabled analyze button means manual generation does not throw, and the automatic button is enabled too |
| ReactApp.TimeframeOrDefault | src/App.tsx:181 | the checked timeframe, or "M1" when no radio is checked or its value is empty |
| ReactApp.AiUsedLabel | src/App.tsx:190 | the automatic label when automatic; never empty |
| ReactApp.AiUsedLabelOfPreset | src/App.tsx:190 | a manual analysis with a preset's id shows that preset's name |
| ReactApp.AiUsedLabelWithoutPreset | src/App.tsx:190 | a manual analysis without a matching preset shows "N/A" |
| ReactApp.GenerateMockResults | src/App.tsx:179-206 | never throws; the label, the timeframe fallback, a confidence within 85..97, the asset fallback, an entry time 2 to 4 minutes ahead, and the template's direction, reasoning and pattern |
| ReactApp.AppState.constructor | src/App.tsx:8-18 | every `useState` starts empty or false, with the first loading message |
| ReactApp.AppState.AnalyzeDisabled | src/App.tsx:398 | the analyze button is enabled exactly when both the image and the preset id are non-empty strings |
| ReactApp.AppState.AutoDisabled | src/App.tsx:406 | the automatic button is enabled exactly when the image is a non-empty string |
| ReactApp.AppState.HandleFileSelect | src/App.tsx:138-149 | a read starts exactly for an image file, anything else is alerted, and no state changes |
| ReactApp.AppState.OnReaderLoad | src/App.tsx:145-147 | the data URL becomes the image and nothing else changes |
| ReactApp.AppState.RemoveImage | src/App.tsx:151-153 | the image is cleared, both buttons disabled, nothing else changed |
| ReactApp.AppState.SelectAI | src/App.tsx:155-157 | the id is selected and nothing else changes |
| ReactApp.AppState.OnPaste | src/App.tsx:224-237 | at most one item is handed on: the first with an image type that yields a file; image items without a file are skipped |
| ReactApp.AppState.BeginAnalysis | src/App.tsx:209-211 | before the wait the overlay is shown, old results hidden and the loading text reset |
| ReactApp.AppState.SimulateAnalysis | src/App.tsx:163-177 | the six loading messages are shown in order, ending on the last, with nothing else changed |
| ReactApp.AppState.FinishAnalysis | src/App.tsx:215-219 | after the wait the result is stored, the overlay hidden and the results shown |
| ReactApp.AppState.PerformAnalysis | src/App.tsx:208-220 | the whole run ends with the result for the preset selected at the start, loading off and results shown, after the reset text and all six messages |
| ReactApp.AutoEnabledWhenAnalyzeEnabled | src/App.tsx:398-406 | the automatic button is enabled whenever the analyze button is |

## Behaviour the code does not have

Each point is stated as the code has it.

- Entry times are never rounded to a timeframe's mark. The only entry time is
  now plus 2, 3 or 4 minutes, whatever the timeframe (app.js:331-332).
- A user-selected instrument never overrides anything. The edge function takes
  the asset from the reply alone, and neither front end calls the edge function.
- `direction` and `confidence` are never range-checked. The edge function copies
  any truthy `direction` and keeps any non-zero integer `parseInt` reads
  (index.ts:137-138).
- A message content that is not a string, or a `null` upstream body, does not
  fall back to the default record. It throws, and the outer `catch` answers 500
  (index.ts:123, 127, 161-166).

## Left out

- **Logging:** the `console.log` and `console.error` calls (index.ts:108, 125,
  142 and 162) have no effect on any answer and are not modelled.
- ReactApp.AppState.PerformAnalysis: it is one atomic method, so the model does
  not capture other handlers, or a second click, running during
  `await simulateAnalysis` (src/App.tsx:213) and interleaving their state
  updates with the run's.
- **HTTP and transport:** the HTTP server, the CORS headers and the `OPTIONS`
  preflight; the network side of `fetch`, which is a parameter. The message of
  a thrown exception, `error.message`, is not modelled.
- **Upstream reply status:** a status outside 200 to 599 would make
  `new Response` throw. Statuses are passed through as integers.
- **Prompt text:** the fixed instruction text of the prompt is opaque; only the
  specialty sentence spliced into it is modelled.
- **`JSON.parse` and `JSON.stringify`:** the JSON grammar is left out; parsing
  is a parameter and response bodies are values. Numbers are integers, so
  fractional and exponent-form numbers (and their ToString) are not modelled.
- JsStrings.ParseInt: works on Unicode code points, where JavaScript counts
  UTF-16 code units.
- ReplyNormalizer.Diagnostic: the `substring(0, 500)` bound counts Unicode code
  points, where JavaScript counts UTF-16 code units, so a text with characters
  outside the Basic Multilingual Plane is cut at a different place.
- JsValues.IsPositive: a `length` member that is neither a number nor a
  boolean, possible only for a parsed `choices` object, is treated as not
  positive. JavaScript would convert it with ToNumber.
- **`detect-asset`:** `supabase/functions/detect-asset/index.ts` is not part of
  this model. It returns a random element of a fixed list.
- **DOM and animation:** the markup, `alert`, `scrollIntoView`, preview toggling,
  the mini browser, IntersectionObserver, the ripple and typing animations,
  and React rendering.
- **Loading delays:** the 800 ms waits of the simulation; only the order of the
  loading texts is kept.
- **Time formatting:** `toLocaleTimeString` formatting; analysis and entry
  times are kept as millisecond instants.
- **FileReader:** reading is asynchronous. `HandleFileSelect` reports that a read
  started, and `OnReaderLoad` is the later `onload` event.
- **React setters:** `useState` setters are modelled as immediate assignments;
  React's batching and re-rendering are not.
- **`React.React.useState` typo:** `src/App.tsx:12` calls `React.React.useState`,
  which fails at run time. The model gives `showResults` the boolean state
  evidently intended.
- **app.js analysis run:** `performAnalysis`, `simulateAnalysis`, `showResults`
  and the loading overlay of `app.js` only drive the DOM. Its result generator
  is modelled.
- **`analysisData`:** `analysisData` in app.js is initialised and never written
  again.
- **UI-only catalog fields:** preset descriptions and accuracies, and the canned
  entry times, are never used in a computation.
