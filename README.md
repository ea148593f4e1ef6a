# SmartResume match: a Dafny model

SmartResume is a single-page web application: a job seeker pastes a
resume, a job description and a company name; the page calls a serverless
function that forwards them to an LLM gateway, which returns an ATS score,
matched and missing skills, improvement suggestions and similar companies.
The application has no scoring logic of its own. This project models the
decisions around that call:

- `Bridge` (`bridge.dfy`): the `analyze-resume` serverless handler. It is a
  pure function from the request, the configured credential, the gateway's
  outcome and the argument parser to the response and the outbound call it
  made, if any.
- `Hook` (`hook.dfy`): the `useResumeAnalysis` hook. The class
  `ResumeAnalysis` holds `isAnalyzing` and `results` and updates them step
  by step. Its methods are tied to the pure transition function `Analyze`.
- `IndexPage` (`index_page.dfy`): the page's `canAnalyze` value, the
  button and hint states, and the choice between form and results. The
  class `Page` holds the three inputs and drives the hook.
- `AnalysisResultsView` (`results_view.dfy`): the results component as a
  function from the analysis to what it lays out.
- `ScoreRingComponent` (`score_ring.dfy`): the ring's prop defaults, its
  colour bands and its animated number.
- `ErrorTexts` (`error_texts.dfy`): how the hook's classifier reads each
  error text the handler produces.
- `Text` (`text.dfy`): JavaScript `trim`, `includes`, and the decimal
  rendering of an integral number.
- `AnalysisData` and `Wrappers`: the result record and `Option`.

I/O enters only as parameters:
- the gateway's reply or rejection (`Upstream`);
- `JSON.parse` of the tool-call arguments (`parse`);
- the environment variable holding the credential (`apiKey`);
- how `supabase.functions.invoke` settles (`InvokeOutcome`): it rejects, resolves with an error, resolves with an error payload, or delivers the analysis.

## Model

| member | source | states |
|---|---|---|
| Bridge.Serve | smart-resume-match-main/supabase/functions/analyze-resume/index.ts:19-177 | every response carries the two CORS headers with their values; the status is one of 200, 400, 402, 429 or 500; the body is empty exactly for OPTIONS; a payload is returned exactly for a non-OPTIONS 200; the outbound call is made exactly when the request passes the pre-flight, body, field and credential checks |
| Bridge.JsonHeadersCarryCors | smart-resume-match-main/supabase/functions/analyze-resume/index.ts:3-6 | the pre-flight headers and the JSON headers (CORS plus content type) both carry every CORS entry with its value (also line 30) |
| Bridge.Relay | smart-resume-match-main/supabase/functions/analyze-resume/index.ts:130-166 | the response after the outbound call has the JSON headers, status 200, 402, 429 or 500, a payload exactly when the status is 200, and never an empty body |
| Bridge.Caught | smart-resume-match-main/supabase/functions/analyze-resume/index.ts:168-175 | the catch block answers 500 with the CORS headers and an error envelope, carrying the Error's message or "An unexpected error occurred" for a non-Error |
| Bridge.PreflightShortCircuits | smart-resume-match-main/supabase/functions/analyze-resume/index.ts:20-22 | OPTIONS gets an empty 200 with the CORS headers and no outbound call, whatever the body, credential or gateway |
| Bridge.UnreadableBodyCaught | smart-resume-match-main/supabase/functions/analyze-resume/index.ts:25 | a body that `req.json()` cannot read goes to the catch block: 500 with the thrown message, no call (also lines 168-175) |
| Bridge.MissingFieldsRejected | smart-resume-match-main/supabase/functions/analyze-resume/index.ts:27-32 | any falsy field gives 400 with the missing-fields message and no call, whatever the credential |
| Bridge.WhitespaceFieldsPass | smart-resume-match-main/supabase/functions/analyze-resume/index.ts:27 | the field check is truthiness: whitespace-only fields reach the gateway |
| Bridge.MissingCredentialRejected | smart-resume-match-main/supabase/functions/analyze-resume/index.ts:34-38 | fields present and no credential give 500 "AI service not configured" and no call (also lines 168-175) |
| Bridge.GatewayCallForwardsInputs | smart-resume-match-main/supabase/functions/analyze-resume/index.ts:40-128 | the call carries "Bearer " and the credential, the model name, the three inputs unchanged and the forced `analyze_resume` tool; the response is then the gateway relay's |
| Bridge.EarlyExitsIgnoreGateway | smart-resume-match-main/supabase/functions/analyze-resume/index.ts:20-38 | when no call is made, the gateway outcome and the parser cannot change the response |
| Bridge.UpstreamStatusMapped | smart-resume-match-main/supabase/functions/analyze-resume/index.ts:130-147 | non-ok 429 gives 429 with the rate-limit text, 402 gives 402 with the credits text, any other gives 500 "AI gateway error: " and the status (also lines 168-175) |
| Bridge.GatewayErrorNamesStatus | smart-resume-match-main/supabase/functions/analyze-resume/index.ts:147 | the status can be read back from the gateway-error message, so distinct statuses give distinct messages |
| Bridge.FetchRejectionCaught | smart-resume-match-main/supabase/functions/analyze-resume/index.ts:52 | a rejected fetch gives 500 with its message, or "An unexpected error occurred" for a non-Error (also lines 168-175) |
| Bridge.MalformedToolCallRejected | smart-resume-match-main/supabase/functions/analyze-resume/index.ts:154-158 | an ok reply with no tool call, or a call to another function, gives 500 "Invalid AI response format" (also lines 168-175) |
| Bridge.SuccessIsParsedArguments | smart-resume-match-main/supabase/functions/analyze-resume/index.ts:154-166 | the gateway relay answers 200 with value v exactly when the reply is ok, its tool call is `analyze_resume`, and its arguments parse to v, which is not null; the body is v unchanged (also line 130) |
| Bridge.NullArgumentsCaught | smart-resume-match-main/supabase/functions/analyze-resume/index.ts:160-161 | arguments that parse to null make the `atsScore` read throw, so the answer is 500 with the TypeError's message and not 200 (also lines 168-175) |
| Bridge.ParseFailureCaught | smart-resume-match-main/supabase/functions/analyze-resume/index.ts:160 | arguments that fail to parse give 500 with the parse error's message (also lines 168-175) |
| Hook.ResumeAnalysis.constructor | smart-resume-match-main/src/hooks/useResumeAnalysis.ts:25-26 | starts idle, with no results, no toasts and no requests |
| Hook.ResumeAnalysis.AnalyzeResume | smart-resume-match-main/src/hooks/useResumeAnalysis.ts:28-94 | the new state and the returned value are those of `Analyze` on the old state; the invariant holds again (idle, and every request bracketed by `setIsAnalyzing(true)` then `(false)`); a rejected call writes no `setIsAnalyzing` at all |
| Hook.ResumeAnalysis.ClearResults | smart-resume-match-main/src/hooks/useResumeAnalysis.ts:96-98 | only `results` changes, to null |
| Hook.Rejects | smart-resume-match-main/src/hooks/useResumeAnalysis.ts:33 | the guard rejects exactly when some input consists only of whitespace and line terminators |
| Hook.Classify | smart-resume-match-main/src/hooks/useResumeAnalysis.ts:68-88 | the notice is "Too many requests", "Credits exhausted" or "Analysis failed" carrying the message; "Too many requests" only when "Rate limit" occurs; "Credits exhausted" only when "Rate limit" does not occur and "credits" does |
| Hook.Analyze | smart-resume-match-main/src/hooks/useResumeAnalysis.ts:28-94 | a rejected call returns null and leaves `isAnalyzing` and the sent bodies alone; an accepted call ends idle with exactly its own body sent; a value is returned exactly for an accepted call that delivers data; `results` changes only then, to that value; exactly one toast is appended and earlier ones are kept |
| Hook.GuardShortCircuits | smart-resume-match-main/src/hooks/useResumeAnalysis.ts:33-40 | a trimmed-empty input emits "Missing information", returns null, sends nothing and changes neither state variable |
| Hook.SettledCallIsIdle | smart-resume-match-main/src/hooks/useResumeAnalysis.ts:42-47 | an accepted call on any outcome ends idle, with exactly its own body sent and exactly one toast (also lines 91-93) |
| Hook.SuccessStoresResult | smart-resume-match-main/src/hooks/useResumeAnalysis.ts:58-64 | on success the data is stored and returned, and the toast names the company and score |
| Hook.FailureKeepsResults | smart-resume-match-main/src/hooks/useResumeAnalysis.ts:49-56 | a transport error or an error payload returns null, keeps `results`, and emits the classified toast (also lines 65-90) |
| Hook.ClassifyCases | smart-resume-match-main/src/hooks/useResumeAnalysis.ts:68-88 | "Too many requests" exactly when the message contains "Rate limit"; "Credits exhausted" exactly when it does not and contains "credits"; otherwise "Analysis failed" with the message |
| Hook.RejectionGetsNoFallback | smart-resume-match-main/src/hooks/useResumeAnalysis.ts:45-68 | a rejected invoke gets no fallback text: an Error with an empty message is shown as an empty generic failure |
| Hook.NonErrorRejectionIsGeneric | smart-resume-match-main/src/hooks/useResumeAnalysis.ts:68 | a rejection with a value that is not an Error is shown as "An unexpected error occurred" under "Analysis failed" (also lines 82-88) |
| Hook.RateLimitCheckedFirst | smart-resume-match-main/src/hooks/useResumeAnalysis.ts:70-76 | a message with both markers gives "Too many requests" |
| Hook.ClassifyIsCaseSensitive | smart-resume-match-main/src/hooks/useResumeAnalysis.ts:70 | "rate limit; Credits" matches neither marker (also line 76) |
| Hook.LowerCaseRateLimitMissed | smart-resume-match-main/src/hooks/useResumeAnalysis.ts:70 | lower-case "rate limit" does not match "Rate limit" |
| Hook.UpperCaseCreditsMissed | smart-resume-match-main/src/hooks/useResumeAnalysis.ts:76 | "Credits" does not match "credits" |
| Hook.FallbackIsGeneric | smart-resume-match-main/src/hooks/useResumeAnalysis.ts:51 | "Failed to analyze resume" is classified as a generic failure (also lines 82-88) |
| Hook.FallbackLacksRateLimit | smart-resume-match-main/src/hooks/useResumeAnalysis.ts:51 | the fallback text has no "Rate limit" (also line 70) |
| Hook.FallbackLacksCredits | smart-resume-match-main/src/hooks/useResumeAnalysis.ts:51 | the fallback text has no "credits" (also line 76) |
| Hook.EmptyTransportMessageReplaced | smart-resume-match-main/src/hooks/useResumeAnalysis.ts:49-52 | an empty transport error message becomes "Failed to analyze resume" under "Analysis failed" |
| Hook.ClearedIdempotent | smart-resume-match-main/src/hooks/useResumeAnalysis.ts:96-98 | clearing twice equals clearing once; `isAnalyzing` is untouched and `results` is null |
| Hook.SuccessToastScenario | smart-resume-match-main/src/hooks/useResumeAnalysis.ts:59-62 | the success toast for Acme scored 70 contains "Acme" and "70" |
| IndexPage.CanAnalyzeValue | smart-resume-match-main/src/pages/Index.tsx:21 | `canAnalyze` is truthy exactly when the hook's trimmed-empty guard does not reject (useResumeAnalysis.ts line 33); when truthy its value is the trimmed company name, the last `&&` operand |
| IndexPage.ViewOf | smart-resume-match-main/src/pages/Index.tsx:75-143 | the form shows exactly when there are no results, with the three inputs; its button is disabled exactly when the guard would reject or an analysis runs; the spinner shows exactly while analysing; the hint shows exactly when the guard would reject; otherwise the results view is rendered for the typed company name |
| IndexPage.CanAnalyzeIffNoneBlank | smart-resume-match-main/src/pages/Index.tsx:21 | `canAnalyze` is truthy exactly when each input has a character that `trim` does not strip |
| IndexPage.Page.constructor | smart-resume-match-main/src/pages/Index.tsx:11-15 | three empty inputs, a fresh idle hook, and a form with the button disabled and the hint shown |
| IndexPage.Page.SetResumeText | smart-resume-match-main/src/pages/Index.tsx:11 | only the resume text changes (also line 89) |
| IndexPage.Page.SetJobDescription | smart-resume-match-main/src/pages/Index.tsx:12 | only the job description changes (also line 97) |
| IndexPage.Page.SetCompanyName | smart-resume-match-main/src/pages/Index.tsx:13 | only the company name changes (also line 98) |
| IndexPage.Page.HandleAnalyze | smart-resume-match-main/src/pages/Index.tsx:17-19 | the hook runs one `Analyze` step with the three current inputs unchanged; when `canAnalyze` holds, exactly that body is sent; the inputs do not change |
| IndexPage.Page.StartNewAnalysis | smart-resume-match-main/src/pages/Index.tsx:133-139 | only `results` is cleared; the inputs survive and the form reappears filled with them |
| AnalysisResultsView.Render | smart-resume-match-main/src/components/AnalysisResults.tsx:31-161 | the panel is for the target company; the ring gets the ATS score, size 160, stroke 12 and label "ATS Score"; the verdict is the one for the ring's score; the two counts are the lengths of the skill lists, and there is one badge per skill, in order, with its kind |
| AnalysisResultsView.VerdictOf | smart-resume-match-main/src/components/AnalysisResults.tsx:47-51 | "Excellent match" exactly from 80, "Good match" exactly for 60 to 79, "Consider updating" exactly below 60 |
| AnalysisResultsView.SkillBadges | smart-resume-match-main/src/components/AnalysisResults.tsx:88-90 | one badge per skill, in order, with the matched/missing kind (also lines 102-104) |
| AnalysisResultsView.SuggestionCards | smart-resume-match-main/src/components/AnalysisResults.tsx:121-129 | one card per suggestion, in order; card i has index `first + i` and the suggestion's own title, description and priority |
| AnalysisResultsView.CompanyCards | smart-resume-match-main/src/components/AnalysisResults.tsx:145-156 | one card per company, in order; card i is ranked `firstRank + i` and carries that company's fields |
| AnalysisResultsView.VerdictDependsOnlyOnScore | smart-resume-match-main/src/components/AnalysisResults.tsx:47-51 | two analyses with the same score get the same sentence, for any company |
| AnalysisResultsView.VerdictAgreesWithRing | smart-resume-match-main/src/components/AnalysisResults.tsx:47-51 | the verdict's band is the ring colour's band (score-ring.tsx lines 31-35) |
| AnalysisResultsView.CompanyRanksFromOne | smart-resume-match-main/src/components/AnalysisResults.tsx:145-156 | company cards keep input order with ranks 1 to n |
| AnalysisResultsView.SuggestionsInOrder | smart-resume-match-main/src/components/AnalysisResults.tsx:121-129 | suggestion cards keep input order with indices 0 to n-1 and their own priorities |
| ScoreRingComponent.ScoreTone | smart-resume-match-main/src/components/ui/score-ring.tsx:31-35 | success exactly from 80, warning exactly for 60 to 79, destructive exactly below 60 |
| ScoreRingComponent.ResolveProps | smart-resume-match-main/src/components/ui/score-ring.tsx:12-18 | omitted props become 120, 8 and "ATS Score"; given props and the score are kept |
| ScoreRingComponent.ToneMonotone | smart-resume-match-main/src/components/ui/score-ring.tsx:31-35 | a higher score never gets a worse band |
| ScoreRingComponent.ScoreRing.constructor | smart-resume-match-main/src/components/ui/score-ring.tsx:19 | the shown number starts at 0 |
| ScoreRingComponent.ScoreRing.TimerFires | smart-resume-match-main/src/components/ui/score-ring.tsx:24-29 | after the timer, the shown number equals the score |
| ScoreRingComponent.ScoreRing.StrokeClass | smart-resume-match-main/src/components/ui/score-ring.tsx:56 | the ring's class is "stroke-success" exactly from 80, "stroke-warning" exactly for 60 to 79 and "stroke-destructive" exactly below 60, taken from the score prop (also lines 31-35) |
| ScoreRingComponent.MountThenTick | smart-resume-match-main/src/components/ui/score-ring.tsx:19-61 | the number is 0 on mount and the score after the tick; the colour class is the score's band both times |
| ErrorTexts.RateLimitTextRecognised | smart-resume-match-main/supabase/functions/analyze-resume/index.ts:136 | the handler's 429 text is classified "Too many requests" (useResumeAnalysis.ts line 70) |
| ErrorTexts.CreditsTextRecognised | smart-resume-match-main/supabase/functions/analyze-resume/index.ts:142 | the handler's 402 text is classified "Credits exhausted" (useResumeAnalysis.ts line 76) |
| ErrorTexts.CreditsTextLacksRateLimit | smart-resume-match-main/supabase/functions/analyze-resume/index.ts:142 | the 402 text has no "Rate limit" |
| ErrorTexts.OtherTextsAreGeneric | smart-resume-match-main/supabase/functions/analyze-resume/index.ts:29 | the missing-fields, not-configured, invalid-format and unexpected-error texts are each classified "Analysis failed" with the text itself (also lines 37, 157, 172) |
| ErrorTexts.MissingFieldsLacksRateLimit | smart-resume-match-main/supabase/functions/analyze-resume/index.ts:29 | the missing-fields text has no "Rate limit" |
| ErrorTexts.MissingFieldsLacksCredits | smart-resume-match-main/supabase/functions/analyze-resume/index.ts:29 | the missing-fields text has no "credits" |
| ErrorTexts.NotConfiguredLacksRateLimit | smart-resume-match-main/supabase/functions/analyze-resume/index.ts:37 | the not-configured text has no "Rate limit" |
| ErrorTexts.NotConfiguredLacksCredits | smart-resume-match-main/supabase/functions/analyze-resume/index.ts:37 | the not-configured text has no "credits" |
| ErrorTexts.InvalidFormatLacksRateLimit | smart-resume-match-main/supabase/functions/analyze-resume/index.ts:157 | the invalid-format text has no "Rate limit" |
| ErrorTexts.InvalidFormatLacksCredits | smart-resume-match-main/supabase/functions/analyze-resume/index.ts:157 | the invalid-format text has no "credits" |
| ErrorTexts.UnexpectedLacksRateLimit | smart-resume-match-main/supabase/functions/analyze-resume/index.ts:172 | the unexpected-error text has no "Rate limit" |
| ErrorTexts.UnexpectedLacksCredits | smart-resume-match-main/supabase/functions/analyze-resume/index.ts:172 | the unexpected-error text has no "credits" |
| ErrorTexts.GatewayTextCharacters | smart-resume-match-main/supabase/functions/analyze-resume/index.ts:147 | each character of a gateway-error text is a prefix character or a digit |
| ErrorTexts.GatewayTextIsGeneric | smart-resume-match-main/supabase/functions/analyze-resume/index.ts:147 | for every status, the gateway-error text is classified "Analysis failed" with the text itself |
| Text.Trim | smart-resume-match-main/src/hooks/useResumeAnalysis.ts:33 | `trim` returns a string no longer than its input that neither starts nor ends with whitespace or a line terminator |
| Text.Contains | smart-resume-match-main/src/hooks/useResumeAnalysis.ts:70 | `includes` finds nothing longer than the text, and always finds the empty string |
| Text.TrimStartKeepsSuffix | smart-resume-match-main/src/hooks/useResumeAnalysis.ts:33 | leading trim keeps a suffix: all it drops is whitespace, and what it keeps does not start with whitespace |
| Text.TrimEndKeepsPrefix | smart-resume-match-main/src/hooks/useResumeAnalysis.ts:33 | trailing trim keeps a prefix: all it drops is whitespace, and what it keeps does not end with whitespace |
| Text.TrimEmptyIffBlank | smart-resume-match-main/src/pages/Index.tsx:21 | `s.trim()` is empty exactly when every character of s is whitespace or a line terminator |
| Text.AbsentCharExcludes | smart-resume-match-main/src/hooks/useResumeAnalysis.ts:70 | `includes` fails when a character of the pattern is absent from the text (also line 76) |
| Text.AbsentPairExcludes | smart-resume-match-main/src/hooks/useResumeAnalysis.ts:76 | `includes` fails when two adjacent pattern characters never appear side by side in the text |
| Text.NatToDecimal | smart-resume-match-main/supabase/functions/analyze-resume/index.ts:147 | the rendering of a status is a non-empty string of decimal digits |
| Text.DecimalRoundTrip | smart-resume-match-main/supabase/functions/analyze-resume/index.ts:147 | reading back the decimal rendering of n gives n |
| Text.DecimalInjective | smart-resume-match-main/supabase/functions/analyze-resume/index.ts:147 | distinct numbers render differently |
| Text.IntToDecimal | smart-resume-match-main/src/hooks/useResumeAnalysis.ts:61 | the rendering of a score is non-empty and made of digits, with a leading minus only for a negative score |

## Left out

- The outbound `fetch`, `supabase.functions.invoke` and `Deno.env`: these are network and environment I/O, so they enter as parameters.
- Transport error messages: their text is decided by the client library, which is not part of this model, so a transport error carries an arbitrary message. For the same reason, `ErrorTexts` states how the classifier would read each handler text. It does not claim the library delivers that text as the message.
- `JSON.parse` and `JSON.stringify`: parsing is a supplied function, and the payload is generic and is not re-validated, as in the handler. The parser reports a result of null separately, because reading `atsScore` from null throws.
- The system prompt, the user-prompt text and the tool schema (index.ts lines 8-17 and 40-128): these are constant payloads for the gateway. Only the model name, the credential, the three inputs and the forced tool name are kept.
- Non-string JSON field values in the request body: a field is either absent or a string. Truthiness of numbers, booleans or objects is not modelled.
- `response.text()` on a non-ok reply (index.ts line 131): its result is only logged. Its rejection, which would reach the catch block, is not modelled.
- `data` being null when invoke reports no error (useResumeAnalysis.ts line 54): the outcome is a rejection, a resolved error, an error payload or an analysis.
- Hook.InvokeOutcome: an error payload stands for a truthy `data.error`, carried as its string form. A falsy `data.error` that is present (empty string, 0, false) is treated by the source as "no error", so the payload is stored as data; that case is not modelled.
- Toast rendering and `console.*` logging: toasts are recorded as `Notice` values with their texts (`ToastOf`), and logs are dropped.
- ScoreRing geometry (radius, circumference, dash offset with `Math.PI`) and `className`: these are floating-point SVG values.
- ScoreRing timers beyond the first tick: only "0 on mount, then the score" is modelled. A score change before the timer fires, and the cleanup re-scheduling the timer, are not.
- Scores are integers: fractional and NaN values of a JavaScript number are not modelled. Nor is the exponent form ("1e+21") that JavaScript prints for magnitudes from 10^21 up.
- ResumeUpload, CompanyCard, SkillBadge, SuggestionCard, JobDescriptionInput, Header and the page's static hero and footer: markup, file reading and presentational lookups with no decision logic.
- React keys (`key={skill}`, `key={company.company}`): duplicate keys do not change what the model lays out.
- Concurrent or repeated submissions interleaved through `await`: each `AnalyzeResume` call runs to completion, and state setters are sequential assignments.
- Hook.ResumeAnalysis.AnalyzeResume: the invoke is awaited inside the call, so the interval in which `isAnalyzing` is true is not observable through the page. The ghost trace `busyWrites` records it instead.
