# VC snapshot generator — a verified model

The application takes pitch-deck text pasted into a web page. It sends the text to an API route, which makes two chained text-generation calls: one summarises the deck into bullet points, and one writes a venture-capital brief from that summary. The page then shows the result. This project models that application in Dafny 4.11, in four modules.

- `Js` (js.dfy) holds the JavaScript primitives the code relies on:
  - `undefined` as `Option`;
  - `String.prototype.trim`, whose white-space set is the same as the regular-expression class `\s`;
  - `slice(0, n)`.
- `Llm` (llm.dfy) models `generateText` and `getAvailableProviders`:
  - `generateText` tries OpenAI first and falls back to Gemini.
  - Which API keys are set is a `Config`.
  - What each provider would answer is an input: it raises, or it returns text, possibly empty.
  - The result records the providers in the order they were invoked.
  - `getAvailableProviders` is a method that builds its list by appending, as the source does.
- `Route` (route.dfy) models the `POST /api/generate` handler as a function. Its inputs are the parsed request body, the configuration, and the provider replies to each of the two prompts. It returns the HTTP status, the JSON envelope, and the prompts handed to `generateText`, in call order.
- `Page` (page.dfy) models the page:
  - The `bullets` and `investorAngle` views are pure functions. Their regular expressions are written out as index scans.
  - The `Home` component is a class with fields `deckText`, `vcPersona`, `isLoading` and `result`.
  - `handleGenerate` is a method on it. A ghost trace records every state update and the request, in order.

Three behaviours of the code are easy to miss:

- A request body that is not JSON, or is the JSON value `null`, makes `request.json()` or the destructuring throw inside the `try`. The handler then answers 500, not a client error.
- When OpenAI is configured but fails and Gemini is not configured, `generateText` reports "No API keys configured…". It does not report an OpenAI failure.
- `investorAngle` falls back to the summary when the brief is absent *or* empty.

## Model

| member | source | states |
|---|---|---|
| Js.Trim | src/app/page.tsx:50 | `trim` leaves no white space at either end |
| Js.TrimShape | src/app/page.tsx:50 | `trim` returns a contiguous slice of its argument with only white space before and after it |
| Js.TrimEmptyIff | src/app/api/generate/route.ts:10 | a string trims to empty exactly when it is all white space, which is the blank test used by both the page and the handler |
| Js.TrimOfPadded | src/app/page.tsx:50 | reference characterisation: any white space around an unpadded string trims back to that string |
| Js.TrimIdempotent | src/app/api/generate/route.ts:18-20 | trimming twice is trimming once |
| Js.TrimIgnoresLeadingSpace | src/app/page.tsx:50 | extra leading white space does not change the trimmed text |
| Js.TrimAvoids | src/app/page.tsx:50 | a character absent from a string is absent from its trim |
| Js.Take | src/app/page.tsx:53 | `slice(0, n)` has length `min(n, len)` and agrees with the input on every kept index |
| Llm.Configured | src/lib/llm.ts:5-10 | the usable providers are exactly those whose key is set, OpenAI before Gemini, at most two |
| Llm.GenerateText | src/lib/llm.ts:17-71 | invokes a prefix of the configured providers in priority order, each at most once; a success has non-empty text from the provider invoked last; a failure has tried every configured provider and reports the Gemini message when Gemini is configured, else the no-keys message |
| Llm.FirstUsable | src/lib/llm.ts:17-71 | reference definition of fallback: the first provider in order whose reply is non-empty text |
| Llm.GenerateTextIsFirstUsable | src/lib/llm.ts:17-71 | `generateText` succeeds exactly when some configured provider has a usable reply, and then returns the first such reply |
| Llm.OpenAIFirst | src/lib/llm.ts:19-41 | OpenAI with text wins outright with provider `openai`, and Gemini is never invoked |
| Llm.OpenAIFailureIsLikeAbsence | src/lib/llm.ts:33-45 | an OpenAI exception, empty or missing content, and an unset OpenAI key give the same result; only the invocation list differs |
| Llm.GeminiDecides | src/lib/llm.ts:49-67 | once OpenAI is out, non-empty Gemini text gives provider `gemini`, and anything else gives "Failed to generate content with Gemini" |
| Llm.NoGeminiKeyAfterOpenAIFailure | src/lib/llm.ts:19-70 | without a Gemini key, an absent or failed OpenAI gives the no-keys message |
| Llm.NoProvidersNoKeys | src/lib/llm.ts:70 | with no key set, the call fails with the no-keys message and invokes nothing, whatever the replies |
| Llm.GetAvailableProviders | src/lib/llm.ts:73-78 | one label per configured key, in priority order; each label is present exactly when its key is set |
| Route.ErrorMessage | src/app/api/generate/route.ts:68 | an `Error` contributes its message; any other thrown value gives the generic text |
| Route.ResolvePersona | src/app/api/generate/route.ts:18-21 | the persona is the trimmed `vcPersona` when that is a string that is not blank, else `VC investor`; it is never blank and always trimmed |
| Route.SummarizePromptLayout | src/app/api/generate/route.ts:24-34 | the summarise prompt holds the deck text untrimmed and unchanged, between the fixed head and tail |
| Route.SummarizePromptInjective | src/app/api/generate/route.ts:24-34 | distinct deck texts give distinct summarise prompts |
| Route.BriefPromptLayout | src/app/api/generate/route.ts:40-53 | the brief prompt names the persona at its start and again just before its final `.`, and embeds the first call's text unchanged |
| Route.Post | src/app/api/generate/route.ts:4-74 | every envelope is well formed, and `success` holds exactly for status 200; status 400 happens exactly for a missing, non-string or blank `deckText`, with the fixed message and no generation call; at most two calls, and exactly two on success |
| Route.PostCallOrder | src/app/api/generate/route.ts:36-55 | the summarise call comes first, on the untrimmed deck text; the brief call happens exactly when the first call succeeded, on a prompt built from its text and the resolved persona |
| Route.PostSuccess | src/app/api/generate/route.ts:57-62 | success holds exactly when the body is valid and both calls succeed; the summary is the first call's text, the brief the second's, and the provider is the second call's |
| Route.PostFailure | src/app/api/generate/route.ts:63-72 | every failure after validation is a 500 with only an error; its message is the thrown value's, or that of the failing `generateText` call, and a computed summary is dropped |
| Route.BriefFallbackReportsGemini | src/app/api/generate/route.ts:55-61 | when OpenAI fails on the brief prompt and Gemini answers, the response reports provider `gemini` and Gemini's text |
| Page.Split | src/app/page.tsx:49 | splitting yields at least one piece, and no piece holds a line feed, a `•` or a `-` |
| Page.SplitJoin | src/app/page.tsx:49 | splitting undoes joining plain pieces with any mix of the delimiters (`\n`, `\r\n`, `•`, `-`), so mixed text such as `• a\n• b` splits into its pieces |
| Page.Delimiters | src/app/page.tsx:49 | the delimiter matches consumed by the split, one fewer than the pieces, each one of `\n`, `\r\n`, `•`, `-` |
| Page.SplitRejoins | src/app/page.tsx:49 | nothing is lost: for every text, the pieces rejoined with the delimiters between them give back the text |
| Page.LoneCarriageReturnKeepsLine | src/app/page.tsx:49 | for every text, it is a single piece exactly when it holds no line feed, `•` or `-`; so a carriage return with no line feed after it, even at the very end, does not split |
| Page.Survivors | src/app/page.tsx:50-51 | after trimming and the empty-filter, no survivor is empty or padded, and delimiter-freeness is kept |
| Page.SurvivorsAppend | src/app/page.tsx:50-51 | the filter keeps source order: survivors of `a + b` are those of `a` followed by those of `b` |
| Page.StripMarkers | src/app/page.tsx:52 | the result is a suffix whose removed prefix is all list-marker characters and which does not itself start with one |
| Page.Bullets | src/app/page.tsx:46-54 | at most five entries, none for an absent or empty summary; no entry holds a delimiter, starts with a marker character or ends with white space |
| Page.SurvivorsOfBulletList | src/app/page.tsx:48-51 | a `• item` list splits and filters to its trimmed items, in order |
| Page.BulletsOfBulletList | src/app/page.tsx:46-54 | a `• item` list gives the first five of its items, trimmed and marker-stripped |
| Page.FiveBulletsRoundTrip | src/app/page.tsx:46-54 | five `• item` lines of clean items give exactly those five items |
| Page.HyphenSplitsWords | src/app/page.tsx:49 | a hyphen between two words gives two bullets |
| Page.MarkerOnlyPieceIsEmptyBullet | src/app/page.tsx:51-52 | a line of digits, dots and parentheses such as `3.` passes the empty-filter and shows as an empty bullet |
| Page.FirstSentence | src/app/page.tsx:59 | the match of `[^.!?]+[.!?]` is the leftmost one, and none is returned only when no match exists |
| Page.InvestorAngle | src/app/page.tsx:56-61 | the angle is unpadded, is empty exactly when its source trims to empty, and is no longer than the trimmed source |
| Page.TrimmedSentence | src/app/page.tsx:59-60 | a trimmed sentence match is non-empty, ends in its terminator and holds no other |
| Page.AngleIsLeftmostSentence | src/app/page.tsx:57-60 | with a sentence in the trimmed source, the angle is the leftmost sentence, trimmed |
| Page.AngleWithoutSentence | src/app/page.tsx:60 | without a sentence, the angle is the first 220 characters, trimmed, and it is non-empty |
| Page.BriefShadowsSummary | src/app/page.tsx:57-58 | a non-empty brief decides the angle whatever the summary is; a blank one gives the empty angle |
| Page.PayloadFor | src/app/page.tsx:20-32 | nothing is posted exactly for a blank deck text; otherwise the body has the trimmed deck text, and the trimmed persona or none when it is blank |
| Page.PostedPayloadIsValid | src/app/page.tsx:32 | whatever the page posts passes the handler's validation; the handler summarises the trimmed deck text and uses the trimmed persona or the default |
| Page.Home.constructor | src/app/page.tsx:14-17 | initial state: empty inputs, not loading, no result |
| Page.Home.SetDeckText | src/app/page.tsx:93 | replaces the deck text and nothing else |
| Page.Home.SetVcPersona | src/app/page.tsx:109 | replaces the persona and nothing else |
| Page.Home.HandleGenerate | src/app/page.tsx:19-42 | a blank deck text only sets the "Please paste…" error, with no request and no loading flag; otherwise it raises loading, clears the result, posts `PayloadFor(...)`, stores the envelope or "Network error. Please try again.", and ends with loading off; the inputs are unchanged |

## Left out

- Rendering: the JSX, the Tailwind classes, the spinner, the Gumroad link and its environment read, and the provider-label text on the page. These are presentation only.
- The layout file: static metadata with no logic.
- The button's `disabled` guard (`isLoading || !deckText.trim()`). `HandleGenerate` can be called in any state; the source's own blank check covers the blank case.
- The OpenAI and Gemini SDK calls, model names, `temperature` and `max_tokens`. Each call is a `Reply` input: it raises, or it returns text. Missing content is `Returned("")`, since the source treats both alike.
- Provider replies do not depend on the prompt. Each `generateText` call gets its own `Replies` value. The prompts appear in `Exchange.prompts`, so their content is still stated.
- Reading `OPENAI_API_KEY` and `GEMINI_API_KEY` at module load is a `Config` of two booleans.
- `fetch`, `request.json()`, `response.json()` and `NextResponse`:
  - Parsing the body is a `RequestBody` value: it threw, or it yielded the two fields.
  - A response is a status and an envelope.
  - On the page, the fetch is a `FetchOutcome` input: a network or parse failure, or a delivered envelope of any status.
- `console.error` logging: output only.
- `async`/`await`, `useMemo` and React re-rendering. State updates are sequential steps on the `Home` object, and the ghost `effects` trace records their order.
- `Page.InvestorAngle`: `slice(0, 220)` counts UTF-16 code units in JavaScript, but the model counts characters. The two differ only for characters outside the Basic Multilingual Plane.
- Strings are sequences of Unicode characters. There is no normalisation and no encoding layer.
