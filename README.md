# deck-genie: Gemini streaming, the outline and command routes, and the Unsplash actions

This project models the AI and image core of the deck-genie presentation generator in Dafny.
It covers four pieces.

- **The Gemini wrapper** (`gemini.dfy`).
  - `createGeminiModel` merges the default generation configuration with a route's overrides.
  - `generateStreamingText` is a lazy generator, modelled as the class `TextGenerator`. Each `Next` runs its body up to the next `yield`. The body skips empty chunk texts and turns any SDK failure into the one error "Failed to generate text with Gemini".
  - `createGeminiStreamingResponse` drains the generator into a stream controller, modelled as the class `StreamController`. It writes one `0:<JSON string>` line per fragment and a `2:{"error":"Stream error"}` line if the generator throws. It closes the stream exactly once and answers 200 with three fixed headers.
  - A client-side decoder of that wire format completes a round trip. Splitting the body at line feeds and decoding each record gives back the fragments in order, plus whether the stream ended in an error.
- **`POST /api/presentation/outline`** (`outline_route.dfy`).
  - The handler checks, in order: the session (401), the JSON body (500), then three truthy fields (400).
  - It then streams a generation of the outline template with three `String.prototype.replace` calls applied.
  - `js_string.dfy` models `replace` with a string pattern, over strings of characters (see "Left out" for UTF-16). That includes ECMAScript's `$`-substitution patterns and the first-occurrence-only rule. It also models `Number.prototype.toString` on integers of magnitude below 2^53, which a double holds exactly.
  - The lemmas show what these rules do to the prompt:
    - the template's second `{numberOfCards}` always stays literal;
    - a `{prompt}` written inside the language is the one that gets replaced.
- **`POST` and `OPTIONS /api/ai/command`** (`command_route.dfy`).
  - The handler follows the same ladder: 401, then 500, then 400 for a missing or empty `messages` array.
  - The conversation context is built by a loop, modelled as a method with a loop invariant. It is proved equal to a declarative definition: system prompt, optional command paragraph, transcript, closing instruction.
  - `OPTIONS` returns the three CORS headers.
- **The Unsplash server actions** (`unsplash.dfy`).
  - `searchUnsplashImages`, `selectUnsplashImage` and `getUnsplashImageAction` run against a `Client` class. The client fixes how Unsplash answers and logs the requests made.
  - They also run against the `imageUsage` table, modelled as an append-only class whose rows carry strictly increasing ids and creation times.
  - The model proves each action's error ladder and that rows stay unchanged on every failure. On success exactly one row is appended. The read-back in `getUnsplashImageAction` always finds that row, so its "Failed to store image in database" branch can never be taken.

Supporting modules:
- `wrappers.dfy`: `Option`.
- `auth.dfy`: the session as `auth()` returns it.
- `http.dfy`: request bodies and responses.
- `lines.dfy`: joining and splitting at line feeds.
- `json_string.dfy`: `JSON.stringify` on a string and its inverse.

In three places the code behaves differently from what a reader might expect; the model follows the code:

- An SDK failure, even one before the first chunk, does not give an error status. The response is still 200, and its body ends with (or consists only of) the `2:` record (`Gemini.FailureBeforeFirstChunk`).
- `selectUnsplashImage` ignores the answer of `trackDownload`. A tracking error reported in the answer therefore does not prevent the usage row from being written. Only a thrown error does.
- The usage row's `unsplashId` is the `id` of the photo returned by `photos.get`, not the id the action was called with.

## Model

| member | source | states |
|---|---|---|
| `Gemini.CreateGeminiModel` | src/lib/gemini.ts:8-36 | The model is flash or pro by key. Its configuration has exactly the default keys. Every override wins, and every other key keeps its default. |
| `Gemini.TextGenerator.constructor` | src/lib/gemini.ts:41-47 | Calling the generator function starts nothing. The pending fragments are the non-empty chunk texts, and it will throw iff the SDK fails. |
| `Gemini.TextGenerator.Next` | src/lib/gemini.ts:48-60 | One resumption yields the next non-empty chunk text. When none remain it completes, or throws "Failed to generate text with Gemini" iff the SDK failed. |
| `Gemini.NonEmptyIsFilter` | src/lib/gemini.ts:51-56 | The yielded texts are exactly the non-empty chunks, in upstream order. Filtering distributes over concatenation, and a stream with no empty chunk passes unchanged. |
| `Gemini.NonEmptyAppend` | src/lib/gemini.ts:51-56 | Filtering the concatenation of two chunk runs gives the concatenation of the filtered runs. |
| `Gemini.NonEmptyOfBlanks` | src/lib/gemini.ts:53 | A stream whose chunks are all empty yields nothing. |
| `Gemini.StreamController.Enqueue` | src/lib/gemini.ts:97 | Appends one chunk to the body; only allowed before close. |
| `Gemini.StreamController.Close` | src/lib/gemini.ts:104 | Counts one close and leaves the body as it was. |
| `Gemini.EnqueueFragments` | src/lib/gemini.ts:94-98 | The loop enqueues one framed `0:` record per pending fragment, in order, and does not close. It ends in a throw iff the generator was going to throw, and leaves the generator drained: nothing pending and no throw left. |
| `Gemini.EnqueueContent` | src/lib/gemini.ts:96-97 | One pass of the loop: the `0:` line for the n-th fragment extends the body from the first n fragments' lines to the first n+1, without closing. |
| `Gemini.CreateGeminiStreamingResponse` | src/lib/gemini.ts:86-116 | Status 200 with the three stream headers. The body is the framed records of all pending fragments, plus the error record iff the generator throws. The stream is closed exactly once, and the single-pass generator is left drained. |
| `Gemini.StreamGeneration` | src/lib/gemini.ts:41-116 | For a route's call, the body is framed from the non-empty upstream chunks, with an error record iff the SDK fails at any point. |
| `Gemini.FramedContentSnoc` | src/lib/gemini.ts:96-97 | One more fragment adds exactly one `0:` line at the end of the body. |
| `Gemini.FramedPrefixSnoc` | src/lib/gemini.ts:94-97 | After the n-th fragment, the body holds the framed records of the first n+1 fragments. |
| `Gemini.FramedErrorSnoc` | src/lib/gemini.ts:99-102 | A failed run's body is the successful run's body followed by the single error line. |
| `Gemini.FramedRun` | src/lib/gemini.ts:93-105 | A run's body is its content lines, then the error line exactly when the run failed. |
| `Gemini.RecordsShape` | src/lib/gemini.ts:94-102 | There is one content record per fragment, in order. There is one error record iff the run failed, and it only comes last. An empty successful run produces nothing. |
| `Gemini.RecordsAreSingleLines` | src/lib/gemini.ts:96 | No record contains a line feed, so each enqueued chunk is exactly one line. |
| `Gemini.ConcatFramed` | src/lib/gemini.ts:97 | The text a client reads is the records, each terminated by a line feed. |
| `Gemini.ParseRecordsOf` | src/lib/gemini.ts:96-101 | Decoding the records gives back the fragments and the failure flag. |
| `Gemini.BodyRoundTrip` | src/lib/gemini.ts:93-105 | Splitting the body at line feeds and decoding each record gives back exactly the fragments and whether the stream errored. |
| `Gemini.FailureBeforeFirstChunk` | src/lib/gemini.ts:99-102 | A failure before any text gives a body that is exactly the error line, which a client reads as no fragments and an error. |
| `JsonString.UnquoteQuote` | src/lib/gemini.ts:96 | `JSON.stringify` of a string decodes back to that string. |
| `JsonString.QuotePrintable` | src/lib/gemini.ts:96 | `JSON.stringify` of any string contains no line feed or other control character: every control character is escaped. |
| `JsonString.UnescapeEscapeAll` | src/lib/gemini.ts:96 | Decoding the escaped form of any text up to its closing quote gives back the text. |
| `Lines.SplitTerminated` | src/lib/gemini.ts:96-97 | Splitting line-feed-terminated lines that contain no line feed gives back those lines. |
| `JsString.IndexOf` | src/app/api/presentation/outline/route.ts:63-66 | The found index is an occurrence with no earlier one. None means there is no occurrence at all. |
| `JsString.ReplaceFirst` | src/app/api/presentation/outline/route.ts:63-66 | With no occurrence the text is unchanged. Otherwise only the first occurrence is replaced: the text before and after it is kept, and a `$`-free replacement is inserted verbatim. |
| `JsString.SubstitutionPlain` | src/app/api/presentation/outline/route.ts:65-66 | A replacement without `$` is inserted as written. |
| `JsString.IntToString` | src/app/api/presentation/outline/route.ts:64 | The rendering is decimal digits with a leading minus iff the number is negative. |
| `JsString.ParseIntToString` | src/app/api/presentation/outline/route.ts:64 | The rendered number reads back as itself. |
| `JsString.IntToStringPlain` | src/app/api/presentation/outline/route.ts:64 | A rendered number holds no `$` and no `{`, so it neither expands nor creates a placeholder. |
| `OutlineRoute.FixedTextHasNoBrace` | src/app/api/presentation/outline/route.ts:11-14 | The template's fixed text before its `{prompt}` slot holds no `{`, and the text right after the `{language}` slot cannot begin a `{prompt}`. |
| `OutlineRoute.FirstTwoSubstitutions` | src/app/api/presentation/outline/route.ts:63-65 | The first `{numberOfCards}` and the `{language}` slot are the occurrences the first two replacements hit. After them, the template is the opening with the number, the expanded language, and the untouched rest of the template. |
| `OutlineRoute.OutlineFrame` | src/app/api/presentation/outline/route.ts:11-66 | For all inputs, the prompt starts with the opening and the number, and ends with the template's tail unchanged. |
| `OutlineRoute.SecondCardsSlotStaysLiteral` | src/app/api/presentation/outline/route.ts:11-66 | The template's second `{numberOfCards}` is never substituted and appears literally in every prompt. |
| `OutlineRoute.PlainOutline` | src/app/api/presentation/outline/route.ts:63-66 | With `$`-free inputs and no `{prompt}` inside the language, the prompt is the template with exactly its first cards, language and prompt slots filled in. |
| `OutlineRoute.PromptInsideLanguage` | src/app/api/presentation/outline/route.ts:63-66 | A `{prompt}` inside the language is the one replaced, and the template's own `{prompt}` slot stays literal. |
| `OutlineRoute.Post` | src/app/api/presentation/outline/route.ts:45-82 | 401 "Unauthorized" without a session. 500 "Failed to generate outline" for a body that is not JSON. 400 "Missing required fields" when any field is falsy. Otherwise, and only otherwise, a stream of the formatted prompt on flash with the route's overrides. |
| `OutlineRoute.OutlineModel` | src/app/api/presentation/outline/route.ts:69-72 | The outline is generated by flash with temperature 0.7 and 4096 output tokens, keeping the other defaults. |
| `CommandRoute.TranscriptSnoc` | src/app/api/ai/command/route.ts:55-57 | One more message appends exactly its `role: content` line. |
| `CommandRoute.AppendTranscript` | src/app/api/ai/command/route.ts:55-57 | The `forEach` loop appends the whole transcript, in message order, to what was built so far. |
| `CommandRoute.BuildConversationContext` | src/app/api/ai/command/route.ts:48-60 | The context accumulated step by step is the system prompt, the command paragraph iff the command is truthy, the header, the transcript, and the closing instruction. |
| `CommandRoute.TranscriptLines` | src/app/api/ai/command/route.ts:55-57 | When no role or content holds a line feed, the transcript splits back into one `role: content` line per message, in order. |
| `CommandRoute.TranscriptIsTerminated` | src/app/api/ai/command/route.ts:55-57 | The transcript is the messages' `role: content` lines, each terminated by a line feed. |
| `CommandRoute.CommandParagraph` | src/app/api/ai/command/route.ts:48-60 | The context opens with the system prompt and ends with the closing instruction. The next paragraph starts with `Current command: ` iff the command is truthy, and then quotes the command. |
| `CommandRoute.Post` | src/app/api/ai/command/route.ts:31-76 | 401 "Unauthorized". 500 "Failed to process AI command" for a body that is not JSON. 400 "Messages array is required" for a missing, non-array or empty `messages`. Otherwise, and only otherwise, a stream of the conversation context with the route's overrides. |
| `CommandRoute.CommandModel` | src/app/api/ai/command/route.ts:63-66 | The answer is generated by flash with temperature 0.7 and 2048 output tokens, keeping the other defaults. |
| `CommandRoute.Options` | src/app/api/ai/command/route.ts:79-88 | An empty 200 response that allows any origin, the methods POST and OPTIONS, and the headers Content-Type and Authorization. |
| `Unsplash.Client.GetPhotos` | src/app/_actions/image/unsplash.ts:54-59 | Answers the search as the service would, and logs the request. |
| `Unsplash.Client.GetPhoto` | src/app/_actions/image/unsplash.ts:124 | Answers the photo lookup, and logs it. |
| `Unsplash.Client.TrackDownload` | src/app/_actions/image/unsplash.ts:144 | Answers the download tracking, and logs it. |
| `Unsplash.SearchOutcome` | src/app/_actions/image/unsplash.ts:61-98 | Success iff the service returned results. Those results are mapped to images one for one, in order. Each failure carries its own message, and a thrown error carries its message or "Failed to search images". |
| `Unsplash.SearchUnsplashImages` | src/app/_actions/image/unsplash.ts:35-99 | Without a user id: the login error, and no request. Otherwise: exactly one landscape search for the page and page size, and the outcome of its answer. |
| `Unsplash.SelectOutcome` | src/app/_actions/image/unsplash.ts:126-181 | Success iff the photo is found and tracking does not throw, and then the selected image is that photo's. Otherwise the failure of the first failing step. |
| `Unsplash.SelectUnsplashImage` | src/app/_actions/image/unsplash.ts:105-182 | Without a user id: the login error, no request, no row. Otherwise: a photo lookup, then download tracking only if the photo was found. Exactly one row on success, holding the photo's id, regular url, the query, the photographer and the user. The table is unchanged on every failure. |
| `Unsplash.ImageUsageTable.Create` | src/app/_actions/image/unsplash.ts:159-167 | Appends one row with the next id and the current time, keeping the table in creation order. |
| `Unsplash.ImageUsageTable.FindLatest` | src/app/_actions/image/unsplash.ts:223-231 | None iff no row matches the url and search term. Otherwise a matching row with the greatest creation time. |
| `Unsplash.AppendedRowIsLatest` | src/app/_actions/image/unsplash.ts:223-231 | In a table in creation order, the latest match for the last row's url and term is that row itself. |
| `Unsplash.ReadBack` | src/app/_actions/image/unsplash.ts:223-246 | Right after the append, the read-back finds the appended row and returns its url and id. The "Failed to store image in database" branch is unreachable. |
| `Unsplash.GetUnsplashImageAction` | src/app/_actions/image/unsplash.ts:188-254 | Each of the two actions it calls reads the session itself. Success iff the user is signed in at both reads, the search has a first photo, its lookup returns a photo, and tracking does not throw. Then exactly one row was added, for that photo, the query and the selecting user, and its url and id are returned. Otherwise the table is unchanged and the error is the first failing step's: the search's error, "No images found for this query", "You must be logged in to select images", or the selection's error. The requests made are: none without a user at the search, the search alone when the selection does not run, and otherwise the search, the photo lookup, and the tracking when the photo was found. The added row also holds the photographer. |
| `Unsplash.SelectAndReadBack` | src/app/_actions/image/unsplash.ts:213-246 | Selecting the first hit and reading its row back succeeds iff the user is signed in and the selection succeeds. It then adds exactly one row for that photo, the query, the photographer and the user, and returns the row's url and id. Otherwise the table is unchanged and the error is the selection's. |

## Left out

- The SDK and the network are not modelled: the Gemini SDK, the Unsplash API and the database client. Their answers are parameters: the `Upstream` chunk list and failure flag, the `Client`'s answer functions, and the table state.
- Concurrency: two requests interleaving between the usage-row write and its read-back are not modelled. A concurrent row with the same url and query would be found instead.
- Creation times are modelled as strictly increasing. Equal timestamps, and the store's tie-breaking among them, are not modelled.
- Database ids are modelled as distinct numbers, not generated strings.
- `auth()` is modelled only as its result, a session or none. A thrown `auth()` is not modelled, and neither is the outer `catch` it would reach.
- Database failures are not modelled: a throwing `imageUsage.create` or `findFirst`, and the outer `catch` of `getUnsplashImageAction` with its "Failed to get image" message.
- Request bodies whose fields have the wrong JSON type are not modelled.
- `numberOfCards` is modelled as an integer whose digits `toString` prints exactly. Fractional numbers, NaN and infinities are not modelled. Magnitudes of 2^53 or more are not modelled either: `JSON.parse` rounds them to a double, and `toString` then prints the shortest digits that read back as that double (2^64 is printed as 18446744073709552000), not the exact integer.
- A `null` JSON body is modelled as malformed, since destructuring it throws into the 500 branch.
- `TextEncoder`: the body is modelled as text, not as UTF-8 bytes.
- Timing of the stream: `start(controller)` runs asynchronously, and the real `Response` is returned before the body is produced. The model drains the whole generator before it returns the response. A reader that cancels mid-stream is not modelled: the `enqueue` at line 97 then throws into the `catch`, and the error `enqueue` (line 102) and the `close` in `finally` (line 104) throw as well.
- `console.log` and `console.error` output are not modelled.
- The environment's API keys and the client construction are not modelled.
- `generateText`, the non-streaming call, is not modelled. No route in this core uses it.
- The `!firstImage` check in `getUnsplashImageAction` (lines 205-211) is not modelled. The preceding check already guarantees a first image, so the branch can never be taken.
- Strings are modelled as sequences of Unicode characters, not as JavaScript's UTF-16 code units. A lone surrogate, which `JSON.stringify` writes as a `\u` escape, cannot be represented. Positions counted by `indexOf` and `replace` are character positions, which differ from code-unit positions after any character outside the Basic Multilingual Plane.
- The `role` field of a command message is not checked by the handler, and it is modelled as free text.
- The configuration numbers are kept as opaque values. The SDK's use of them is not modelled.
