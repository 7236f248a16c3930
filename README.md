# AURA backend core in Dafny

This project models the three backend services of the AURA retail assistant and proves properties about them.

- **The emotion engine** (`EmotionEngine.ts`):
  - the sentiment label mapping over the hosted classifier's probabilities;
  - the keyword fallback;
  - the ordered tone and intent rules;
  - regex entity extraction for prices and sizes.
- **The context memory** (`ContextMemory.ts`):
  - message storage in the `messages` table and the vector index;
  - context retrieval;
  - customer profiles behind a read-through cache;
  - the `encrypted:` framing of encrypted text.
- **The session orchestrator** (`AURAOrchestrator.ts`):
  - session start;
  - message turns (analysis, prompt, generation window, persistence, cache rewrite);
  - suggestions;
  - history;
  - session end.

## Files

- `wrappers.dfy`: `Option` and `Result`.
- `text.dfy`: string primitives. These are ASCII lower-casing, substring and prefix tests, `indexOf`, and `replace` with a string pattern.
- `emotion_engine.dfy`: the emotion engine.
- `model.dfy`: the shared data.
  - Messages, profiles, sessions, and the rows of the `sessions`, `messages` and `customer_profiles` tables.
  - The cache and the vector index.
  - The invariant `Consistent`, which covers the schema's foreign keys, cache keys that agree with the values they hold, and vectors that have rows.
  - The class `Stores`, which holds the three stores the services share.
- `memory.dfy`: the class `ContextMemory`.
- `orchestrator.dfy`: the class `AuraOrchestrator`.

## How the state is modelled

Every stateful operation exists twice:

- a method of `ContextMemory` or `AuraOrchestrator` that updates the fields of `Stores` step by step, as the source does;
- a step function on the `State` value, for example `StoreMessageStep` or `ProcessMessageStep`.

Each method's postcondition says its new state and result are exactly the ones the step function gives. The public methods (`StoreMessage`, `UpdateProfile`, `GetProfile`, `InitializeSession`, `ProcessMessage`, `EndSession`) also say that they keep `Consistent`. The internal stages `PersistTurn` and `RewriteTurn` of `ProcessMessage` state only their step equation. `ProcessMessage` gets the invariant from `ProcessMessageKeepsConsistency`. The lemmas state the source's promises about the step functions.

The services the backend calls are parameters of a `Services` value. They are the sentiment classifier, the embedding service, the vector query, the chat model and the JSON encoding of preferences. `None` stands for a failed call.

Other inputs are parameters too:

- whether each SQL statement and each cache command succeeds: records such as `StoreCalls` and `TurnCalls`;
- uuids and clock readings: `InitFresh` and `TurnFresh`.

The fallback sentiment score is counted in integer tenths. It is +2 for each listed positive word and -2 for each listed negative word, clamped to [-10, 10]. The label thresholds ±0.3 fall between tenths the score can take, so the labels are the ones the floating-point code gives.

### Behaviour of the code worth noting

- `retrieveContext` copies a match's score into `relevanceScore` as it is, with no clamping (`ContextMemory.ts:131`). See `Memory.RelevanceIsNotClamped`.
- `processMessage` rewrites the cached session first (`AURAOrchestrator.ts:184`) and runs `UPDATE sessions SET last_activity` after it (`AURAOrchestrator.ts:187-190`). A failure of that update reaches the `catch`, which rethrows it (`AURAOrchestrator.ts:200-203`). See `Orchestrator.PersistOrder`.
- `endSession` sets `end_time` with no condition on the session's status (`AURAOrchestrator.ts:281-284`). A second call therefore overwrites the first end time. See `Orchestrator.EndSessionTwice`.
- The metadata `storeMessage` writes has the keys `sessionId`, `sender`, `content` and `timestamp`, plus the message's own (`ContextMemory.ts:89-95`). The query in `retrieveContext` filters on `customerId` (`ContextMemory.ts:122-124`). The vectors a turn stores, whose messages carry no metadata, are therefore never selected by that filter. See `Orchestrator.TurnVectorsLackCustomerId`.

## Model

| member | source | states |
|---|---|---|
| EmotionEngine.Label | backend/src/services/EmotionEngine.ts:54-57 | positive exactly above 0.3, negative exactly below -0.3, neutral exactly in [-0.3, 0.3]; the same thresholds as the fallback at EmotionEngine.ts:86-89 |
| EmotionEngine.ProbabilityOf | backend/src/services/EmotionEngine.ts:48-49 | the score of the first result carrying the wanted label, 0 when none does |
| EmotionEngine.ProbabilityBounds | backend/src/services/EmotionEngine.ts:48-49 | a probability picked from scores in [0, 1] lies in [0, 1] |
| EmotionEngine.AnalyzeSentiment | backend/src/services/EmotionEngine.ts:33-69 | a failed classifier call gives exactly the fallback result; otherwise the score is P(POSITIVE) - P(NEGATIVE), the confidence max(P(POSITIVE), P(NEGATIVE)) and the label the threshold label of the score |
| EmotionEngine.HostedSentimentBounds | backend/src/services/EmotionEngine.ts:47-63 | on the hosted path the score lies in [-1, 1], its magnitude is bounded by the confidence max(P+, P-), and a non-neutral label needs confidence above 0.3 |
| EmotionEngine.Hits | backend/src/services/EmotionEngine.ts:77-82 | the number of listed words occurring as substrings is at most the list's length (each word counts once) |
| EmotionEngine.FallbackTenths | backend/src/services/EmotionEngine.ts:76-84 | the fallback score is 2 tenths per matched positive word minus 2 per matched negative word, clamped to [-10, 10] tenths |
| EmotionEngine.FallbackSentiment | backend/src/services/EmotionEngine.ts:84-91 | the fallback score is the clamped tenths count of `FallbackTenths` (0.2 per positive word, -0.2 per negative word, within [-1, 1]); the label is the threshold label of that score; the confidence is 0.7 |
| EmotionEngine.FallbackSentimentAnalysis | backend/src/services/EmotionEngine.ts:71-92 | the two accumulation loops and the clamp compute the fallback result |
| EmotionEngine.FallbackLabelByNetCount | backend/src/services/EmotionEngine.ts:76-91 | fallback label positive iff net matched words >= 2, negative iff <= -2, neutral iff in [-1, 1]; score in [-1, 1]; confidence 0.7 |
| EmotionEngine.FallbackExample | backend/src/services/EmotionEngine.ts:72-91 | the fallback on "I love this, it's amazing!" is positive with score 0.4 and confidence 0.7: of the listed words exactly "love" and "amazing" occur (its `LoveText` helper lemmas) |
| EmotionEngine.FirstMatch | backend/src/services/EmotionEngine.ts:98-132 | first-match-wins over ordered rules: the verdict of the first rule that fires, with no earlier rule firing, else the default |
| EmotionEngine.DetectTone | backend/src/services/EmotionEngine.ts:94-133 | the intensity is the tone's fixed intensity; frustrated needs "!" or "??", excited needs "!", confused needs "?" |
| EmotionEngine.DetectToneIsFirstMatch | backend/src/services/EmotionEngine.ts:98-132 | the tone is the first-match-wins result of the rules frustrated, excited, confused, satisfied, else neutral 0.5 |
| EmotionEngine.ToneExample | backend/src/services/EmotionEngine.ts:98-104 | "this is a problem!! thanks" is frustrated although it also thanks |
| EmotionEngine.ConfusedBySubstring | backend/src/services/EmotionEngine.ts:116-122 | "how" inside "show" makes "Can you show me?" confused |
| EmotionEngine.IntentVerdict | backend/src/services/EmotionEngine.ts:162-183 | the confidence is the intent's fixed confidence (0.9, 0.85, 0.9, 0.7) |
| EmotionEngine.IntentVerdictIsFirstMatch | backend/src/services/EmotionEngine.ts:162-183 | the intent is the first-match-wins result of ready_to_buy, comparing, seeking_support, else browsing |
| EmotionEngine.IntentExample | backend/src/services/EmotionEngine.ts:162-167 | a text with both "compare" and "buy" is ready_to_buy |
| EmotionEngine.TrackOrderIsReadyToBuy | backend/src/services/EmotionEngine.ts:162-167 | "order" makes "Track my order" ready_to_buy |
| EmotionEngine.DigitRunEnd | backend/src/services/EmotionEngine.ts:140 | the end of the maximal digit run from a position (`\d+` is greedy) |
| EmotionEngine.WordRunEnd | backend/src/services/EmotionEngine.ts:149 | the end of the maximal word-character run from a position |
| EmotionEngine.PriceIndex | backend/src/services/EmotionEngine.ts:140 | the leftmost position where `/\$(\d+)/` matches, none when it matches nowhere |
| EmotionEngine.FindPrice | backend/src/services/EmotionEngine.ts:140-147 | no price iff no "$" is followed by a digit; otherwise the whole digit run after the leftmost such "$" |
| EmotionEngine.SizeTokenIsWord | backend/src/services/EmotionEngine.ts:149 | a size token consists of word characters only |
| EmotionEngine.NoMatchAtNonWord | backend/src/services/EmotionEngine.ts:149 | no size match starts at a non-word character |
| EmotionEngine.MatchInRun | backend/src/services/EmotionEngine.ts:149 | a size match starting inside a word run is that whole run (the `\b` on both sides) |
| EmotionEngine.SizeSpan | backend/src/services/EmotionEngine.ts:149 | the leftmost span matching `/\b(XS\|S\|M\|L\|XL\|XXL\|\d+)\b/i`, none when there is none |
| EmotionEngine.FindSize | backend/src/services/EmotionEngine.ts:149-156 | no size iff the regex matches nowhere; otherwise the text (original casing) of its leftmost match |
| EmotionEngine.EntityExample | backend/src/services/EmotionEngine.ts:140-156 | "$50" yields both price "50" and size "50" |
| EmotionEngine.ClassifyIntent | backend/src/services/EmotionEngine.ts:135-186 | the primary intent and confidence are the ordered verdict; at most one price then at most one size entity, with confidences 0.9 and 0.85 |
| Text.IndexOf | backend/src/services/ContextMemory.ts:59 | the leftmost occurrence of the pattern at or after a position, none when it does not occur |
| Text.ReplacePrefix | backend/src/services/ContextMemory.ts:56-59 | replacing the first occurrence of a prefix by "" drops the prefix |
| Model.CacheKeysDistinct | backend/src/services/AURAOrchestrator.ts:95 | `session:<id>` and `profile:<id>` keys never collide, and each names one id |
| Model.Stores.ExpireSession | backend/src/services/AURAOrchestrator.ts:95 | the session key's expiry removes only that cached session and keeps the invariant |
| Model.Stores.ExpireProfile | backend/src/services/ContextMemory.ts:210 | the profile key's expiry removes only that cached profile and keeps the invariant |
| Memory.KeyFromEnvironment | backend/src/services/ContextMemory.ts:44-46 | the key is never empty: it is the environment's value whenever that is set and non-empty, and the default key otherwise |
| Memory.Encrypt | backend/src/services/ContextMemory.ts:48-53 | the output starts with "encrypted:" |
| Memory.Decrypt | backend/src/services/ContextMemory.ts:55-64 | input without the "encrypted:" prefix is returned unchanged |
| Memory.DecryptEncrypt | backend/src/services/ContextMemory.ts:48-64 | decrypting an encryption gives the text back whenever the cipher pair round-trips |
| Memory.VectorMetadata | backend/src/services/ContextMemory.ts:88-95 | the keys are sessionId, sender, content, timestamp (ms) plus the message's own; the message's keys override |
| Memory.StoreMessageStep | backend/src/services/ContextMemory.ts:66-103 | the state change and result of `storeMessage`; what it does is stated by `StoreMessageOutcome` and `StoreMessageKeepsConsistency` |
| Memory.StoreMessageOutcome | backend/src/services/ContextMemory.ts:66-103 | a refused insert changes nothing; later failures keep the row but not a vector; success adds row and vector under the message id; cache untouched |
| Memory.GivenEmbeddingIgnoresService | backend/src/services/ContextMemory.ts:76-82 | the embedding service is consulted only when no embedding is given |
| Memory.StoreMessageKeepsConsistency | backend/src/services/ContextMemory.ts:69-96 | storing a message keeps the foreign keys and the index-has-rows invariant |
| Memory.ContextItemOf | backend/src/services/ContextMemory.ts:127-133 | id, score (0 when missing) and metadata (`{}` when missing) pass through; content and timestamp are the metadata's when truthy, else "" and the current time |
| Memory.RetrieveContext | backend/src/services/ContextMemory.ts:105-143 | `[]` when the embedding or the query fails, otherwise one item per match |
| Memory.RetrievedItems | backend/src/services/ContextMemory.ts:105-143 | one item per match in match order, id and score passed through (missing score 0), falsy content as ""; `[]` when a call fails |
| Memory.RelevanceIsNotClamped | backend/src/services/ContextMemory.ts:131 | a score of 1.5 is kept as 1.5 |
| Memory.ProfileRowOf | backend/src/services/ContextMemory.ts:147-169 | falsy price bounds become NULL, absent lists and maps NULL, absent lifetime value 0; everything else is written as given |
| Memory.UpdateProfileStep | backend/src/services/ContextMemory.ts:145-180 | the state change and result of `updateProfile`; stated by `UpdateProfileOutcome` and `UpdateProfileKeepsConsistency` |
| Memory.UpdateProfileOutcome | backend/src/services/ContextMemory.ts:145-180 | a refused write changes nothing; a write overwrites every column; the cached profile goes only when the delete succeeds, a failed delete is reported |
| Memory.UpdateProfileKeepsConsistency | backend/src/services/ContextMemory.ts:151-173 | the upsert and invalidation keep the invariant |
| Memory.GetProfileStep | backend/src/services/ContextMemory.ts:182-217 | the state change and result of `getProfile`; stated by `GetProfileOutcome`, `CacheHitIgnoresTables` and `GetProfileKeepsConsistency` |
| Memory.GetProfileOutcome | backend/src/services/ContextMemory.ts:182-217 | hit returns the cached profile; miss without row gives null; miss with row reads, caches and returns it; failures give null and change nothing |
| Memory.CacheHitIgnoresTables | backend/src/services/ContextMemory.ts:185-188 | a cache hit does not depend on the tables |
| Memory.GetProfileKeepsConsistency | backend/src/services/ContextMemory.ts:201-210 | caching a read profile keeps the invariant |
| Memory.UpdateThenGet | backend/src/services/ContextMemory.ts:147-204 | after a successful update the next read returns the written preferences (or `{}`) and lifetime value (or 0) |
| Memory.FailedInvalidationServesStaleProfile | backend/src/services/ContextMemory.ts:172-173 | when the delete fails, the next read serves the profile cached before the update |
| Memory.ContextMemory.constructor | backend/src/services/ContextMemory.ts:44-46 | the encryption key is taken from the environment or defaulted |
| Memory.ContextMemory.StoreMessage | backend/src/services/ContextMemory.ts:66-103 | insert, embed when needed, upsert, as `StoreMessageStep`, keeping the invariant |
| Memory.ContextMemory.UpdateProfile | backend/src/services/ContextMemory.ts:145-180 | upsert then invalidate, as `UpdateProfileStep`, keeping the invariant |
| Memory.ContextMemory.GetProfile | backend/src/services/ContextMemory.ts:182-217 | cache-first read-through, as `GetProfileStep`, keeping the invariant |
| Orchestrator.ToneClause | backend/src/services/AURAOrchestrator.ts:212-218 | a tone clause is present exactly for frustrated, excited and confused |
| Orchestrator.PreferencesClause | backend/src/services/AURAOrchestrator.ts:221-223 | the preferences clause is present exactly when some preference is set |
| Orchestrator.IntentClause | backend/src/services/AURAOrchestrator.ts:226-232 | an intent clause is present exactly for ready_to_buy, comparing and seeking_support |
| Orchestrator.BuildSystemPrompt | backend/src/services/AURAOrchestrator.ts:206-237 | the prompt is the persona preamble, then the tone, preferences and intent clauses in that order, then the closing directive; each clause is empty exactly when its condition does not hold |
| Orchestrator.PromptReadsToneIntentPreferences | backend/src/services/AURAOrchestrator.ts:207-234 | the prompt depends only on the tone, the intent and the preferences |
| Orchestrator.PlainPrompt | backend/src/services/AURAOrchestrator.ts:209-236 | with no special tone, no preferences and browsing, the prompt is persona plus closing |
| Orchestrator.GenerateSuggestions | backend/src/services/AURAOrchestrator.ts:239-264 | three suggestions: the table entry of a known intent, else the browsing entry |
| Orchestrator.EachIntentHasOwnSuggestions | backend/src/services/AURAOrchestrator.ts:240-263 | every intent's name is in the table and distinct intents get distinct suggestions |
| Orchestrator.InitializeSessionStep | backend/src/services/AURAOrchestrator.ts:59-103 | the state change and result of `initializeSession`; stated by `NewSessionShape` and `InitializeSessionKeepsConsistency` |
| Orchestrator.NewSessionShape | backend/src/services/AURAOrchestrator.ts:59-103 | empty history, profile preferences or `{}`, neutral/neutral/browsing at 0.5, start = last activity; row inserted before the cache write; success exactly when both succeed |
| Orchestrator.InitializeSessionKeepsConsistency | backend/src/services/AURAOrchestrator.ts:87-95 | session start keeps the invariant |
| Orchestrator.ChatOf | backend/src/services/AURAOrchestrator.ts:149-151 | role "user" is a human turn, every other role an AI turn, with the same text |
| Orchestrator.Window | backend/src/services/AURAOrchestrator.ts:149 | `slice(-10)`: the last min(10, n) turns in order |
| Orchestrator.ChatTurns | backend/src/services/AURAOrchestrator.ts:149-151 | each turn becomes its chat message, in order |
| Orchestrator.GenerationRequest | backend/src/services/AURAOrchestrator.ts:147-152 | the system prompt first, then the window's turns |
| Orchestrator.ModelSeesLatestTurns | backend/src/services/AURAOrchestrator.ts:138-152 | the model sees the prompt and the last min(10, n) turns, ending with the new message as a human turn |
| Orchestrator.ProcessMessageStep | backend/src/services/AURAOrchestrator.ts:105-204 | the state change and result of `processMessage`; stated by the turn lemmas below |
| Orchestrator.Persist | backend/src/services/AURAOrchestrator.ts:157-199 | the persistence stage of a turn; stated by `PersistSucceeded`, `PersistedSession`, `PersistOrder` and `PersistKeepsConsistency` |
| Orchestrator.RewriteSession | backend/src/services/AURAOrchestrator.ts:176-199 | the cache rewrite, `last_activity` update and answer of a turn; stated through `Persist` |
| Orchestrator.MissingSessionChangesNothing | backend/src/services/AURAOrchestrator.ts:110-113 | an absent session key fails with "Session not found" and changes nothing |
| Orchestrator.PersistSucceeded | backend/src/services/AURAOrchestrator.ts:157-199 | a successful persistence stores both messages, caches the session with the assistant's turn and the new activity time, and answers |
| Orchestrator.PersistedSession | backend/src/services/AURAOrchestrator.ts:176-184 | persisting a reply keeps every session field except history (gains user then assistant turn), emotional state (the analysis) and last activity |
| Orchestrator.SuccessfulTurn | backend/src/services/AURAOrchestrator.ts:123-184 | history grows by exactly the user's then the assistant's turn; the emotional state is replaced by the analysis; other session fields are kept |
| Orchestrator.SuccessfulTurnAnswer | backend/src/services/AURAOrchestrator.ts:158-199 | both messages are stored; the answer carries the detected tone and the intent's suggestions |
| Orchestrator.ReceivedFields | backend/src/services/AURAOrchestrator.ts:123-141 | the session seen by the prompt differs from the cached one only in its analysed state and the appended user turn |
| Orchestrator.PersistOrder | backend/src/services/AURAOrchestrator.ts:157-190 | the cache is rewritten only after both messages are stored (rows and vectors); the reply's row only after the customer's vector; a failure other than a database error leaves the cache unchanged |
| Orchestrator.PersistenceOrder | backend/src/services/AURAOrchestrator.ts:105-204 | the same order holds for the whole turn, from the lookup to the answer |
| Orchestrator.TurnVectorsLackCustomerId | backend/src/services/AURAOrchestrator.ts:159-174 | the vectors a turn stores carry no `customerId` key |
| Orchestrator.CacheSessionKeepsConsistency | backend/src/services/AURAOrchestrator.ts:184 | caching a session under its own id with its row's customer keeps the invariant |
| Orchestrator.TouchSessionKeepsConsistency | backend/src/services/AURAOrchestrator.ts:187-190 | the `last_activity` update keeps the invariant |
| Orchestrator.PersistKeepsConsistency | backend/src/services/AURAOrchestrator.ts:157-190 | persisting a turn keeps the invariant |
| Orchestrator.ProcessMessageKeepsConsistency | backend/src/services/AURAOrchestrator.ts:105-204 | a turn keeps the invariant, whatever fails |
| Orchestrator.EndSessionStep | backend/src/services/AURAOrchestrator.ts:279-291 | the state change and result of `endSession`; stated by `EndSessionTwice`, `EndedSessionNotFound` and `EndSessionKeepsConsistency` |
| Orchestrator.EndSessionTwice | backend/src/services/AURAOrchestrator.ts:279-291 | a second end succeeds, leaves status ended and no cached session, and overwrites `end_time` |
| Orchestrator.EndedSessionNotFound | backend/src/services/AURAOrchestrator.ts:110-113 | after an end or an expiry the next message finds no session |
| Orchestrator.EndSessionKeepsConsistency | backend/src/services/AURAOrchestrator.ts:281-285 | ending a session keeps the invariant |
| Orchestrator.Reverse | backend/src/services/AURAOrchestrator.ts:272 | the rows in reverse order |
| Orchestrator.GetHistory | backend/src/services/AURAOrchestrator.ts:266-277 | the query's rows in reverse order, `[]` when the query fails |
| Orchestrator.HistoryIsNewestOldestFirst | backend/src/services/AURAOrchestrator.ts:266-277 | the history is the session's `limit` newest messages (or all), in ascending time, and no omitted message is newer than any returned one |
| Orchestrator.FailedHistoryIsEmpty | backend/src/services/AURAOrchestrator.ts:273-276 | a failed query gives `[]` |
| Orchestrator.ZeroLimitHistory | backend/src/services/AURAOrchestrator.ts:268-271 | `LIMIT 0` answered with no rows is a valid answer of the history query |
| Orchestrator.AuraOrchestrator.constructor | backend/src/services/AURAOrchestrator.ts:49-57 | the orchestrator works on the given context memory |
| Orchestrator.AuraOrchestrator.InitializeSession | backend/src/services/AURAOrchestrator.ts:59-103 | profile read, retrieval, row insert, cache write, as `InitializeSessionStep`, keeping the invariant |
| Orchestrator.AuraOrchestrator.ProcessMessage | backend/src/services/AURAOrchestrator.ts:105-204 | lookup, analysis, prompt, generation and persistence, as `ProcessMessageStep`, keeping the invariant |
| Orchestrator.AuraOrchestrator.PersistTurn | backend/src/services/AURAOrchestrator.ts:157-199 | both stores, then the cache rewrite, as `Persist` |
| Orchestrator.AuraOrchestrator.RewriteTurn | backend/src/services/AURAOrchestrator.ts:176-199 | the cache write and the `last_activity` update, as `RewriteSession` |
| Orchestrator.AuraOrchestrator.EndSession | backend/src/services/AURAOrchestrator.ts:279-291 | end the row, then delete the cached session, as `EndSessionStep`, keeping the invariant |

## Left out

- The external services are not modelled internally. These are the OpenAI chat and embedding calls, the Hugging Face classifier, the Pinecone query and upsert, and the MySQL and Redis clients. Each is a function parameter or a success flag per call.
- `Memory.RetrieveContext`: the vector query is an unconstrained oracle. The model does not capture `topK`, the ranking, or how the `customerId` filter selects vectors.
- Clocks and uuids are inputs. Logging and the timing measurement are left out.
- Redis expiry is modelled as the explicit `ExpireSession` and `ExpireProfile` actions, not as time.
- The JSON encoding and decoding of cached values is left out. A cached value is what was written.
- `Memory.GetProfileStep` assumes that `JSON.parse(row.style_preferences)` (`ContextMemory.ts:203`) returns the preferences that were written. The driver's own decoding of JSON columns is not modelled. If `mysql2` hands the column over already decoded, that `JSON.parse` throws, and `getProfile` returns null on every cache miss for a profile with preferences. This has not been executed. `Memory.UpdateThenGet` and the miss-with-row case of `Memory.GetProfileOutcome` hold only under this assumption.
- Cipher internals (`crypto.createCipher`) are left out. Only the `encrypted:` framing is modelled, around an abstract cipher pair.
- `Promise.all` in `processMessage` is modelled as three sequential calls, because the model has no concurrency. Concurrent messages on one session are not modelled.
- The `retrieveContext` call inside `processMessage` is left out. Its result is never used, and it changes no state.
- Floating point is not modelled:
  - fallback scores are exact tenths, and probabilities are reals;
  - `NaN` is not modelled;
  - `DECIMAL(10,2)` rounding of prices and lifetime values is not modelled.
- `createdAt` and `updatedAt` of a profile are left out. Three things about the database's clocks are not modelled:
  - the `ON UPDATE CURRENT_TIMESTAMP` clocks of `customer_profiles`;
  - the `created_at` column the code reads, which that table does not have;
  - the `ON UPDATE CURRENT_TIMESTAMP` of `sessions.last_activity` (config/database.ts:45). Because of it, the `UPDATE` in `endSession` also moves `last_activity` in the row, and `Orchestrator.EndRow` leaves `last_activity` as it was.
- `Memory.MessageRowOf` and `Orchestrator.GetHistory`: a message row keeps the message's millisecond timestamp. The `messages.timestamp` column is a `TIMESTAMP` without fractional seconds (config/database.ts:62), so the database keeps whole seconds. A customer's message and its reply written within the same second are tied in the database, and `ORDER BY timestamp DESC LIMIT ?` may return them in either order or cut either of them at the limit. The model orders them by their milliseconds, so `Orchestrator.HistoryIsNewestOldestFirst` does not capture that tie.
- The database's case-insensitive collation is not modelled. Keys compare exactly.
- Lower-casing is ASCII only. Unicode case mapping is not modelled.
- `Date` conversion of metadata timestamps in retrieved items is left out. The stored value is kept as it is.
- The `suggestions[intent]` lookup is a finite map. Prototype keys of a JavaScript object lookup are not modelled.
- A `ContextItem`'s content and timestamp are the metadata values as found. The source's `as string` and `as number` casts convert nothing.
- `Orchestrator.GetHistory` takes the query's answer as input. `NewestFirst` states what the `ORDER BY timestamp DESC LIMIT ?` query returns; the SQL engine itself is not modelled.
- `EmotionEngine.FindSize` requires a start position outside any word run. The source always searches from the start of the text, which satisfies this.
- The HTTP routes, socket wiring, authentication middleware, configuration and front end are outside this model.
