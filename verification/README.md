# Chat relay and client: a Dafny model

This project models the core of a small chat application. It has three parts:

- **The relay.** An Express server's `POST /api/chat/stream` handler normalises a browser request (turn filtering, defaults, the system prompt) and forwards it to OpenRouter. It reads the provider's server-sent-event stream in arbitrary chunks through a carry-over line buffer and re-emits a tagged event stream: chunks, at most one usage record, then `done`. The non-streaming `POST /api/chat` handler shares the normalisation and the usage rule.
- **The client stream consumer.** `streamChatRequest` derives the message for a non-OK response, runs the same line buffer over the relay's frames, and folds the events into text plus the last usage record. It fails on an `error` event or on a blank final text.
- **The conversation bookkeeping in the browser app.** This covers the token estimate, upsert-by-id of the assistant message, submitting and redoing a turn, the starter-prompt draft, token accounting and usage statistics, sent and received counts, and which bubbles offer a redo.

Everything is pure: the handlers are functions from the request body and what the provider call produced (modelled as `HttpReply`) to the provider request and the reply.

`JSON.parse` is a parameter `parse: string -> Option<Json>`, where `None` means it throws. `JSON.stringify` is a parameter too, and the end-to-end lemmas require only that it writes each event on one line that `parse` reads back (`EndToEnd.FaithfulCodec`). The lemmas about refusals (`EndToEnd.RefusalSurfaces`, `EndToEnd.ErrorBodyReadsBack`) also require that the refusal's `{"error": m}` body round-trips through `stringify` and `parse`.

Modules, one per file:

- `Wrappers`: `Option` and `Result`.
- `Text`: JavaScript `trim`, `slice` and `startsWith`.
- `Json`: parsed values, optional chaining and `Number()`.
- `LineBuffer`: the `split("\n")`/`pop()` carry-over loop, generic in what each line does.
- `Events`: the relay's event union, the usage rule and the `data:` line rule.
- `Request`: request normalisation.
- `Relay`: both handlers.
- `Client`: `streamChatRequest`.
- `EndToEnd`: the relay composed with the client.
- `Conversation`: the browser app's list operations.

## Model

| member | source | states |
|---|---|---|
| Text.Trim | server/index.js:263 | the trimmed string is no longer than the input and neither starts nor ends with white space |
| Text.TrimIsSlice | server/index.js:263 | the trim is a contiguous slice of the input with only white space before and after it |
| Text.TrimEmptyIffAllSpace | server/index.js:228 | a string trims to empty exactly when every character is JavaScript white space (the `trim().length > 0` tests) |
| Text.TrimIdempotent | src/App.tsx:273 | trimming twice is trimming once |
| Text.TrimOfUnpadded | server/index.js:268 | a string without surrounding white space is its own trim |
| Text.TrimAfterSpace | server/index.js:268 | a leading white-space character does not change the trim |
| Text.Take | server/index.js:229 | `slice(0, n)` is a prefix of length min(n, length) and the whole string when it is short enough |
| Text.TrimStart | server/index.js:263 | the result is a suffix of the input, the dropped prefix is all white space and the result does not start with white space |
| Text.TrimEnd | server/index.js:263 | the result is a prefix of the input, the dropped suffix is all white space and the result does not end with white space |
| Text.NatToString | src/features/chat/api/send-chat.ts:76 | a status number prints as decimal digits without a leading zero whose value is the number |
| Json.Member | server/index.js:224 | optional chaining finds a property only on an object that has the key, and then yields its value |
| Json.Index | server/index.js:301 | `[0]` on an array is its first element when there is one; null, booleans and numbers have no elements |
| Json.Counter | server/index.js:284-286 | `Number(x?.key ?? 0)` is 0 when the key is missing or null, and `Number()` of the value otherwise: the number itself for a number, the string conversion for a string |
| Json.ToNumber | server/index.js:284-286 | `Number()` of a number is itself, of a string its numeric reading, of null 0, of a boolean 1 or 0, of an object or an array of two or more elements NaN, of the empty array 0, and of a one-element array that of its element (0 for null, NaN for a boolean or object element) |
| Json.StringToNumber | server/index.js:284-286 | `Number()` of a string: blank text is 0, a run of digits (optionally after `+` or `-`) is its signed value, only a signed or unsigned `Infinity` is infinite, and a negative value comes only from a leading `-` |
| Json.IntegerTextReadsBack | server/index.js:284-286 | the decimal text of any whole number converts back to that number, so a counter sent as a string counts like the number |
| Json.Truthy | server/index.js:279-283 | `null`, `false`, `""`, `0` and `NaN` are falsy; arrays and objects (even empty), `true` and infinities are truthy |
| Json.TruthyAgreesWithNumber | server/index.js:279-286 | for null, booleans and numbers, truthiness is `Number()` being neither 0 nor NaN |
| LineBuffer.Split | server/index.js:259 | `split("\n")` yields at least one part and no part holds a newline |
| LineBuffer.SplitJoin | server/index.js:259 | joining the parts of a split with newlines gives back the string |
| LineBuffer.JoinSplit | server/index.js:259 | splitting a newline-join of newline-free parts gives back the parts |
| LineBuffer.Feed | server/index.js:258-260 | appending a chunk to the buffer yields newline-free complete lines and a newline-free rest, which together with the newlines rebuild buffer plus chunk |
| LineBuffer.FeedUnique | server/index.js:258-260 | that decomposition is the only one, so `Feed` is determined by it |
| LineBuffer.FoldLinesAppend | server/index.js:262 | processing a + b line by line is processing a and then b |
| LineBuffer.Pump | server/index.js:252-260 | after the read loop has taken at least one chunk, the carried buffer holds no newline |
| LineBuffer.SplitAppend | server/index.js:259-260 | splitting s + t keeps the complete lines of s and re-splits its unterminated tail with t |
| LineBuffer.PumpIsOneShot | server/index.js:252-313 | the read loop over any chunk list ends in the state of processing every complete line of the concatenation, keeping the unterminated tail |
| LineBuffer.RechunkInvariant | src/features/chat/api/send-chat.ts:102-143 | the read loop's outcome does not depend on where the chunk boundaries fall |
| LineBuffer.PumpLeavesFragment | server/index.js:260 | after the loop the processed lines plus the kept buffer are exactly the input, and the buffer holds no newline |
| LineBuffer.TerminatedLines | src/features/chat/api/send-chat.ts:109-110 | newline-terminated newline-free lines are read back as exactly those lines |
| Events.EventToJson | server/index.js:303-332 | each relay event is an object whose `type` tag names its kind (distinct per kind) and that carries the chunk text, the usage record or the error message |
| Events.ReadUsage | src/features/chat/api/send-chat.ts:137-138 | the client takes a usage record exactly when all three counters are finite numbers, with those values |
| Events.ParseUsage | server/index.js:283-299 | a usage record is captured exactly when all three counters (missing ones 0) are finite and the total is positive, with those values; an absent or falsy `usage` captures nothing |
| Events.ReadEventInvertsEventToJson | src/features/chat/api/send-chat.ts:14-37 | every relay event written as a JSON object reads back as the same event |
| Events.ReadEvent | src/features/chat/api/send-chat.ts:123-141 | a `chunk` with a string text, a `usage` with a readable record, a `done` and any `error` are read as that event (the error text or empty), and every other frame as nothing |
| Events.DataPayload | server/index.js:263-268 | a line carries a payload exactly when its trim starts with `data:`, and the payload is the trimmed rest |
| Events.BodyText | server/index.js:220 | a body that ends cleanly reads as the concatenation of its chunks; no body reads as the empty text; a body whose reading throws makes `text()` reject with that throw |
| Request.KeptTurnsAppend | server/index.js:154-160 | the role-and-text filter distributes over concatenation |
| Request.KeptTurnsFromEntries | server/index.js:156-160 | every forwarded turn comes from an entry with role user or assistant and a string text |
| Request.LastTurns | server/index.js:161 | `slice(-20)` keeps min(20, n) turns and they are a suffix of the input |
| Request.ForwardedTurns | server/index.js:154-162 | a non-array `messages` forwards nothing; otherwise at most 20 filtered turns, the last ones |
| Request.SystemPrompt | server/index.js:168-171 | a non-blank string persona gives the persona prompt with the trimmed persona; anything else gives the generic prompt |
| Request.FromSettingsValue | server/index.js:164-171 | model, temperature, token cap and system prompt each come from the settings when present with the right type, else from the defaults |
| Request.NormaliseAsWritten | server/index.js:146-171 | once the key check has passed, the normalisation throws exactly when `settings` is `null`, and otherwise reads every field from the settings value with its defaults |
| Request.NullSettingsThrowAsWritten | server/index.js:164-165 | a body `{"settings": null}` makes `settings.model` throw |
| Request.Normalise | server/index.js:146-171 | the corrected normalisation forwards the filtered turns and takes model, temperature, token cap and system prompt from an object `settings` field by field; a `null` settings value reads like `{}`; it agrees with the code wherever the code does not throw |
| Request.NonObjectSettingsUseDefaults | server/index.js:164-171 | settings that are not an object give the default model, temperature, 500-token cap and generic prompt |
| Request.BodyField | server/index.js:146 | a key present in an object body gives its value, a present `null` included; a missing key, a missing or `null` body and a non-object body give the default |
| Request.ToUpstream | server/index.js:198-214 | the provider request is the system message followed by one message per turn, in order, with role "user" or "assistant" as the turn's and the same text, plus the model, temperature, stream flag and token cap |
| Relay.LinePayload | server/index.js:262-281 | non-data lines, empty or `[DONE]` payloads, unparsable payloads and falsy payloads are skipped, and every other data line is kept as the parse of its payload |
| Relay.PartTexts | server/index.js:306 | each content part contributes its string text, or "" |
| Relay.DeltaText | server/index.js:301-311 | a chunk is emitted exactly when the delta content is a non-empty string or a list whose parts' texts join to a non-empty text; its text is that string or that join, and it is never empty |
| Relay.LineUsage | server/index.js:283-299 | a record is captured only from a truthy `usage` field, and it is then the shared usage rule's record |
| Relay.LineUsageIsParseUsage | server/index.js:283-299 | the stream's usage test on a payload is the shared usage rule applied to its `usage` field |
| Relay.LineEffect | server/index.js:262-311 | a skipped line has no effect; a kept line contributes its usage record and delta chunk, and a chunk is never empty |
| Relay.Apply | server/index.js:293-309 | a captured usage record replaces the held one, an invalid one keeps it, and a chunk is appended after the earlier events |
| Relay.FoldEffects | server/index.js:262-312 | the loop over lines appends exactly the lines' chunks in order and holds the latest valid usage record, or the earlier one if none |
| Relay.LatestUsageSuffix | server/index.js:293 | a later valid usage record replaces an earlier one; an invalid later one leaves it |
| Relay.LatestUsageIsLast | server/index.js:293 | the last valid usage record wins |
| Relay.Closing | server/index.js:315-318 | the stream ends with a usage event when one was captured, then exactly one `done` |
| Relay.RelayEvents | server/index.js:252-318 | the events of a clean stream are the chunks of the complete lines in order, then the closing events for the latest usage |
| Relay.RelayAccAfter | server/index.js:252-313 | the loop's state is the latest usage and the chunk events of all complete lines of the concatenated input |
| Relay.RelayRechunkInvariant | server/index.js:258-260 | the relay emits the same events however the provider's bytes are chunked |
| Relay.ChunksAreChunks | server/index.js:302-310 | the loop writes only chunk events, each with non-empty text |
| Relay.RelayEventsWellFramed | server/index.js:301-318 | a clean stream is chunks, then at most one usage event, then exactly one `done` |
| Relay.StreamUpstreamError | server/index.js:219-232 | a non-OK body's `error.message` string wins; a body that parses without one gives the status message; an unparsable non-blank body gives its first 200 characters; an empty or blank body gives the status message |
| Relay.HandleStream | server/index.js:145-337 | a missing key gives 500 with no provider call; a throw before the headers, or while reading a non-OK body, gives 500 with the failure message; a non-OK status is relayed; a missing body gives 502; a clean stream gives the framed events; a failure after the headers gives the chunk events of the complete lines received, then one `error` event |
| Relay.BrokenStreamChunks | server/index.js:320-333 | before a mid-stream failure exactly the chunk events of the complete lines received were written, and nothing else |
| Relay.StreamFailureMessage | server/index.js:320-326 | an abort reads as the 60-second timeout notice, another error as its own message, and a thrown non-error as the generic notice |
| Relay.CompletionText | server/index.js:95-106 | the non-streaming text is the trimmed string content or the trimmed newline-join of the parts' texts, else empty |
| Relay.ChatFailure | server/index.js:130-139 | an AbortError gives 504 with the 45-second timeout notice; any other throw gives 500 with the error's message, or the generic notice for a non-error |
| Relay.ChatUpstreamError | server/index.js:87-92 | a non-OK body's `error.message` string wins, else the status message; the body is never quoted |
| Relay.ChatOutcome | server/index.js:87-129 | a non-OK status is relayed; an OK response answers exactly when the trimmed completion is not empty, with that text and the shared usage rule, and otherwise gives 502 |
| Relay.HandleChat | server/index.js:13-143 | a missing key gives 500 with no provider call; the provider request is the shared normalisation without streaming; throws and body failures become 504 or 500 |
| Relay.EndpointsShareNormalisation | server/index.js:14-39 | both endpoints send the same request apart from the stream flag |
| Client.ClientErrorMessage | src/features/chat/api/send-chat.ts:74-90 | a non-blank string `error` wins; an unparsable (or `null`) non-blank body appends ": " and its first 180 characters to "API error N"; otherwise "API error N" |
| Client.FrameEvent | src/features/chat/api/send-chat.ts:112-132 | non-data lines, empty payloads, unparsable payloads and falsy payloads (`null`, `0`, `false`, `""`) carry no event; any other payload is read by `ReadEvent` |
| Client.Absorb | src/features/chat/api/send-chat.ts:134-141 | a chunk appends its text and one callback; usage replaces the held record; `done` changes nothing; an error stops the stream with its message or the default |
| Client.FoldIsAbsorbAll | src/features/chat/api/send-chat.ts:112-142 | folding frame lines is folding the events they carry |
| Client.AbsorbWithoutErrors | src/features/chat/api/send-chat.ts:134-138 | without an error event the text is the concatenation of the chunk texts, the callbacks are those texts in order, and the usage is the last usage event's |
| Client.AbsorbStopsAtError | src/features/chat/api/send-chat.ts:139-140 | the first error event fails the stream, and only the chunks before it were passed on |
| Client.AbsorbAfterFailure | src/features/chat/api/send-chat.ts:140 | nothing after a failure changes the state |
| Client.AbsorbKeepsTextIsCalls | src/features/chat/api/send-chat.ts:135-136 | the accumulated text is always the concatenation of the texts passed to `onChunk` |
| Client.ConsumedAcc | src/features/chat/api/send-chat.ts:102-143 | the state after the read loop is the fold of the events of all complete lines, and its text is the concatenation of the callbacks |
| Client.Consume | src/features/chat/api/send-chat.ts:39-150 | a timeout or a network throw fails; a non-OK status fails with the derived message, or with the body read's failure; a missing body fails; otherwise the outcome is the settled state of the read loop, and a success returns the concatenation of the callbacks, which is not blank |
| Client.Settle | src/features/chat/api/send-chat.ts:139-149 | an error event's message wins, then a broken stream's throw, then the empty-response error for blank text; the call succeeds exactly when none applies, returning the text with the last usage |
| Client.ClientRechunkInvariant | src/features/chat/api/send-chat.ts:108-110 | the callbacks and the result do not depend on how the frames are chunked |
| EndToEnd.Frame | server/index.js:178-180 | `writeEvent`'s frame starts with `data: `, ends in a blank line, and is exactly the data line and an empty line, each newline-terminated |
| EndToEnd.FramesAreTerminatedLines | server/index.js:178-180 | the relay's frames are newline-terminated lines: each event's data line, then an empty line |
| EndToEnd.DataPayloadOfFrame | server/index.js:179 | the data line `data: x` of a one-line payload yields x as its payload |
| EndToEnd.DataLineReadsBack | src/features/chat/api/send-chat.ts:113-132 | the client reads each data line the relay writes as the event it was written for |
| EndToEnd.PairReadsBack | src/features/chat/api/send-chat.ts:119-121 | a data line followed by the blank separator line contributes exactly its event |
| EndToEnd.PairedReadsBack | src/features/chat/api/send-chat.ts:112-142 | a decoder that reads each event's line back, and ignores the blank line, reads the paired lines as exactly the events |
| EndToEnd.FrameLinesReadBack | src/features/chat/api/send-chat.ts:112-142 | the client reads the relay's frame lines as exactly the events written |
| EndToEnd.ClientSeesRelayEvents | src/features/chat/api/send-chat.ts:102-143 | however the frames are cut, the client's state is the fold of exactly the relay's events |
| EndToEnd.TailFacts | server/index.js:315-318 | the closing events hold no error, carry the captured usage and add no text |
| EndToEnd.RelayEventsRead | server/index.js:252-318 | a clean relay stream has no error event, its last usage is the latest valid upstream record, and its chunk texts are the lines' deltas |
| EndToEnd.StreamRoundTrip | src/features/chat/api/send-chat.ts:145-149 | through relay and client, the callbacks are the upstream deltas in order; the call succeeds exactly when their concatenation is not blank, returning it with the latest usage, and otherwise fails with the empty-response error |
| EndToEnd.ErrorBody | server/index.js:329 | a refusal's `res.status(s).json({ error })` body is an object with the single key `error` holding the message (likewise at server/index.js:149, 232 and 236) |
| EndToEnd.RefusalSurfaces | src/features/chat/api/send-chat.ts:74-90 | every refusal of the streaming endpoint has a non-OK status, and the browser call throws its message, or "API error N" when the message is blank |
| EndToEnd.RefusedIsNotOk | server/index.js:145-337 | the streaming endpoint refuses only with a status outside 200-299 |
| EndToEnd.ErrorBodyReadsBack | src/features/chat/api/send-chat.ts:74-90 | a non-OK `{"error": m}` body makes the call throw m, or "API error N" for a blank m, with no callbacks |
| EndToEnd.CompletionMatchesDelta | server/index.js:95-106 | for the same string content, or a list of at most one part, the non-streaming text is the trimmed text the stream's delta yields |
| Conversation.EstimateTokens | src/App.tsx:49-51 | the estimate is at least 1 and is the least such number whose four-fold covers the trimmed length |
| Conversation.EstimateMonotone | src/App.tsx:49-51 | the estimate never falls as the trimmed length grows |
| Conversation.FindIndex | src/App.tsx:78-80 | `findIndex` gives the first matching index, or -1 exactly when nothing matches |
| Conversation.FindLastIndex | src/App.tsx:342-344 | the reversed `find` locates the last match, or none exactly when nothing matches |
| Conversation.Upsert | src/App.tsx:73-90 | with no message of that id the updater's result is appended; otherwise only the first message with the id is replaced by the updater's result on it, the length is kept and every other message is unchanged |
| Conversation.UpsertKeepsIdsUnique | src/App.tsx:73-90 | upserting keeps ids unique, and the one message with the id is the updater's result |
| Conversation.UpsertAbsorbs | src/App.tsx:128-214 | the final write of a reply erases every earlier streamed write of the same id |
| Conversation.Submit | src/App.tsx:268-301 | nothing happens while typing or for a blank prompt; otherwise exactly one user message with the trimmed text is appended, the draft is cleared, and a reply is requested exactly when auto-reply is on |
| Conversation.SubmittedTurnIsTrimmed | src/App.tsx:273-282 | the appended user text is non-blank and already trimmed |
| Conversation.SubmitCounts | src/App.tsx:358-361 | a submission raises the sent count by one and leaves the received count unchanged |
| Conversation.Redo | src/App.tsx:329-356 | a redo fires only when not typing; it sends exactly the messages before the first assistant message with that id, and its prompt is the text of the latest user message among them |
| Conversation.CanRedo | src/features/chat/components/chat-phone.tsx:38-45 | the backward scan answers true exactly when some earlier message is a user message, so never at index 0 |
| Conversation.UserBeforeMonotone | src/features/chat/components/chat-phone.tsx:38-45 | once a position can redo, every later position can |
| Conversation.RedoHandlers | src/features/chat/components/chat-phone.tsx:68-78 | a bubble gets a redo handler exactly when it is an assistant message that can redo; user messages never get one |
| Conversation.RedoOfferedFires | src/features/chat/components/chat-phone.tsx:74-78 | with unique ids, every offered redo fires, and it sends exactly the messages before the bubble |
| Conversation.RedoFiresAtFirst | src/App.tsx:334-355 | when not typing, a redo fires whenever the first assistant message with the id has a user turn before it, and sends the turns before that message |
| Conversation.RedoFiresOnlyWhenOffered | src/App.tsx:329-348 | a redo that fires targets a bubble that was offered a redo |
| Conversation.CountRole | src/App.tsx:358-361 | a role count never exceeds the list length |
| Conversation.CountsPartition | src/App.tsx:358-361 | the sent and received counts add up to the length of the list |
| Conversation.CountRoleAppend | src/App.tsx:285 | appending a message raises exactly its role's count by one |
| Conversation.StarterDraft | src/App.tsx:307-310 | the draft is the prompt if it ends with a space, else the prompt plus one space, so it always ends with a space |
| Conversation.StarterDraftIdempotent | src/App.tsx:307-310 | applying the starter rule again leaves the draft unchanged |
| Conversation.TokenAccounting | src/App.tsx:118-198 | with a usage record, prompt and completion are the provider's counters; without one, both are estimates; the total is always their sum |
| Conversation.RecordSuccess | src/App.tsx:216-229 | a success adds one response and each token count to the running sums and keeps the error count |
| Conversation.RecordFailure | src/App.tsx:242-245 | a failure adds one error and changes nothing else |
| Conversation.ReplyMessage | src/App.tsx:183-260 | the final assistant message has the reply's id and timestamp; its text and source are the live text, the offline mock, or the fallback notice plus the mock; its tokens are the accounting of the live usage record (only for a live reply) against the prompt and its own text |
| Conversation.FinishReply | src/App.tsx:198-265 | the final write is one upsert of the reply message; a failure records an error and the thrown message, or the default for a non-error; a success records one response with the reply message's tokens; the running total stays the sum of the running prompt and completion counts |
| Conversation.RedoRewritesInPlace | src/App.tsx:329-356 | with unique ids, a redo's reply replaces the redone message in place and leaves every other message untouched |
| Conversation.UpsertUniqueAt | src/App.tsx:73-90 | with unique ids, upserting an id found at position i rewrites position i with the updater's result and nothing else |
| Conversation.SubmitThenReplyAppends | src/App.tsx:285-300 | after a submission with a fresh reply id, the reply is appended right after the new user message |

## Left out

- Express routing, `res.write`, headers, `fetch`, readers and the `close` listener are not modelled. The handlers take the provider's outcome as an `HttpReply` value: a throw, or a status with a body of chunks that ends cleanly or with a throw.
- Timers and `AbortController` are not modelled. A timeout or a client disconnect appears only as an `AbortError` throw in the input.
- `TextDecoder` is not modelled. Chunks are already-decoded strings.
- `JSON.parse` and `JSON.stringify` are parameters. Their behaviour is only constrained where a lemma needs it.
- The temperature, `durationMs`, `avgResponseMs` and `lastResponseMs` are floating point. The temperature is kept as an opaque `Numeric` value or the default, and the timing values are not modelled.
- String length is counted in characters, not UTF-16 code units.
- Json.ToNumber: `Number()` of a string is approximated. Blank is 0, a signed run of decimal digits is its value, `Infinity` is infinite and anything else is NaN. Fractions, exponents and hex literals are not modelled, and a run of more than 309 digits, which JavaScript reads as `Infinity`, stays finite here.
- Json.ToNumber: `Number()` of an object whose `toString` is not callable, such as the parsed `{"toString": 0}` or `[{"toString": 0}]`, throws a TypeError in JavaScript. Here it reads as NaN, so a usage record with such a counter is ignored. In the code, that throw at server/index.js:284-286 reaches the streaming endpoint's `catch`, which writes an `error` event and ends the stream. The same throw at server/index.js:114-116 makes `/api/chat` answer 500.
- Events.ReadUsage: the client stores `event.usage` without looking inside it. The model takes a record only when all three counters are finite numbers, and reads any other `usage` frame as no event.
- Client.FrameEvent: a `chunk` frame whose `text` is not a string, or a `usage` frame whose counters are not finite numbers, is treated as no event. The code would append `undefined` or store the ill-typed value.
- Client.FrameEvent: an `error` frame whose `error` is a truthy non-string, such as a number, reads as the default message. The code would use that value's string form.
- `createAssistantReply` is not modelled. It depends on `Math.random` and float formatting, so its text is the `mockText` parameter.
- `crypto.randomUUID` and `Date.now` are parameters.
- The streamed intermediate upserts of the assistant message (App.tsx:128-173) are not modelled one by one. `Conversation.UpsertAbsorbs` shows that the final write erases them all.
- React state, effects, `wait`, the status indicator, `previewStatusIndicator`, `lastError` resets and all presentational components are not modelled.
- The settings object is not copied into a `ReplyRequest`, since the reply does not depend on it beyond the model name and the mode.
- Relay.HandleStream: the provider request and every reply are stated for the corrected normalisation (`Request.Normalise`). As written, when the API key is set, a body with `"settings": null` makes the normalisation throw at server/index.js:165, before the `try`. The code then sends no provider request and no reply. That path is modelled only by `Request.NormaliseAsWritten`. When the key is unset, both the code and the model answer 500 before `settings` is read.
- Relay.HandleChat: the same holds for the non-streaming endpoint. Its `"settings": null` throw at server/index.js:33 also happens before the `try`, and also only once the key check at server/index.js:16 has passed.
- Conversation.TokenAccounting: the provider counters are integers here. In the code they are whatever numbers the relay forwarded.

## Findings

| source | as written | input that shows it | evidently intended | confidence | as-written member | corrected member |
|---|---|---|---|---|---|---|
| server/index.js:146-171 | the default `settings = {}` applies only when the key is missing, so, once the API key check has passed, `settings.model` throws a TypeError for `"settings": null`; this is outside the `try`, so the rejection is unhandled (the same holds at server/index.js:14-39) | a request body `{"messages": [], "settings": null}` | settings that are not an object fall back to the defaults | not executed | Request.NullSettingsThrowAsWritten | Request.Normalise |
