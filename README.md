# RagFlowMini core, modelled in Dafny

RagFlowMini is a retrieval-augmented chat backend for a book knowledge base.
A chat turn passes a per-user rate gate. It picks the previous question of a follow-up from the Redis
cache, or from the conversation store when the cache is cold. Then it runs the query orchestration:
- When an LLM is configured, a classifier call decides whether the question needs book context.
- If it does, the contexts are retrieved from the vector store, and the query embedding is cached in Redis.
- A two-message prompt is built with a section-marker output protocol.
- The LLM is called, and its raw text is parsed into a main answer and a list of follow-up options.
- Without an LLM, or when generation fails, the answer is a fixed text around the first 1000 characters of the contexts.

The turn is then persisted: the user message first, then the assistant message, each stored and
appended to the cached conversation, which is trimmed to its newest 50 entries.

Ingestion is modelled only in its text-processing core: Vietnamese text normalisation, the grouping
of CSV columns under a header row of group names, and the guard of the chunker. The normaliser is
modelled as written (`NormalizeTextVi`) and as its comments intend (`NormalizeKeepingDecimals`,
which keeps decimal numbers whole). The CSV chunks go through the one as written; see Findings.

Modules, one per file:
- `Common` (common.dfy): `Option`, `Result` and chat `Message`.
- `Text` (text.dfy): Python's `str.strip`, `split`, `join` and `int()` on text, with their algebra.
- `Tokenizer` (tokenizer.dfy): `normalize_text_vi`, `extract_text_from_csv`, `chunk_text`.
- `ResponseParser` (response_parser.dfy): `_parse_response`.
- `Prompt` (prompt.dfy): `build_prompt`, the context text and `_fallback_response`.
- `Cache` (cache.dfy): the `RedisConnection` class as a class over maps, with its key scheme.
- `Llm` (llm.dfy): the `LLMService` settings, URL and key rules, and the generation calls.
- `Rag` (rag.dfy): `retrieve_context`, `generate_response` and `decide_and_generate`.
- `Chat` (chat.dfy): the conversation store and the `chat` endpoint.

The imperative parts are methods proved against specification functions. These are the Redis
class, the loops of the CSV grouping, the option and previous-question loops, and the chat handler.
The properties are proved about those functions.

## Model

| member | source | states |
|---|---|---|
| Text.Strip | api/Ingest/utils/tokenizer.py:175 | the result has no whitespace at either end, is no longer than the input, and is empty exactly when the input is blank |
| Text.ParseIntRoundTrip | utils/redis_conn.py:28-31 | `int()` applied to the decimal text of any integer gives that integer back |
| Tokenizer.LetterIsNotDigitOrSpace | api/Ingest/utils/tokenizer.py:156-160 | the Vietnamese letters the substitutions separate from digits are never digits or whitespace, so the two rules cannot overlap |
| Tokenizer.SpaceBetweenSeparates | api/Ingest/utils/tokenizer.py:152-164 | for two disjoint classes without the space, after the substitution no character of the first is directly followed by one of the second |
| Tokenizer.SpaceBetweenKeeps | api/Ingest/utils/tokenizer.py:152-164 | a later substitution never makes adjacent again a pair that an earlier one separated |
| Tokenizer.CollapseSingleSpaced | api/Ingest/utils/tokenizer.py:172 | after whitespace runs collapse, every whitespace character is a single space with no whitespace beside it |
| Tokenizer.CollapseKeeps | api/Ingest/utils/tokenizer.py:172 | collapsing whitespace keeps every separation made by the substitutions |
| Tokenizer.StripKeeps | api/Ingest/utils/tokenizer.py:175 | the final strip keeps the separations and the single spacing |
| Tokenizer.NormalizeTextViProperties | api/Ingest/utils/tokenizer.py:146-177 | as written: empty text is returned unchanged. The output is trimmed and single-spaced. No letter touches a digit, in either order. No punctuation mark of `,.!?:;` is directly followed by a digit |
| Tokenizer.DecimalPointSpaced | api/Ingest/utils/tokenizer.py:164 | as written, "3.14" normalises to "3. 14" (see Findings) |
| Tokenizer.SpaceLoosePunctSeparates | api/Ingest/utils/tokenizer.py:164-169 | after the intended fourth substitution, a mark directly before a digit is always directly after a digit |
| Tokenizer.SpaceLoosePunctKeeps | api/Ingest/utils/tokenizer.py:164 | the intended fourth substitution never makes adjacent a pair that an earlier substitution separated |
| Tokenizer.CollapseKeepsDigitsAroundPunct | api/Ingest/utils/tokenizer.py:172 | collapsing whitespace keeps every mark that precedes a digit between two digits |
| Tokenizer.StripKeepsDigitsAroundPunct | api/Ingest/utils/tokenizer.py:175 | the final strip keeps that property |
| Tokenizer.CollapseOfSingleSpaced | api/Ingest/utils/tokenizer.py:172 | collapsing whitespace leaves a single-spaced text unchanged |
| Tokenizer.NormalizeKeepingDecimalsProperties | api/Ingest/utils/tokenizer.py:146-177 | corrected: the same guarantees as written, except that a mark of `,.!?:;` may stay directly before a digit exactly when a digit precedes it, as the comment at lines 166-169 intends |
| Tokenizer.DecimalPointKept | api/Ingest/utils/tokenizer.py:166-169 | corrected: "3.14" normalises to itself |
| Tokenizer.NormalizeNonBlank | api/Ingest/utils/tokenizer.py:146-177 | a text that is not blank, once stripped, normalises to a non-empty text |
| Tokenizer.KeepingDecimalsNonBlank | api/Ingest/utils/tokenizer.py:146-177 | corrected: the same holds for the normaliser that keeps decimal numbers whole |
| Tokenizer.PutGet | api/Ingest/utils/tokenizer.py:40 | after `d[k] = v`, `d[k]` reads `v` and every other key reads as before |
| Tokenizer.PutKeys | api/Ingest/utils/tokenizer.py:40 | `d[k] = v` keeps the key order when `k` is present, and appends `k` last otherwise |
| Tokenizer.PutDistinct | api/Ingest/utils/tokenizer.py:40 | assignment never duplicates a key |
| Tokenizer.MapHeadersToGroups | api/Ingest/utils/tokenizer.py:31-40 | the header loop computes the carried group and the header-to-group dictionary of `ScanHeaders` |
| Tokenizer.ScanCarriesGroup | api/Ingest/utils/tokenizer.py:32-37 | the group carried after the loop is the nearest non-blank group cell at or left of the last column, or the empty name |
| Tokenizer.ScanHeadersKeys | api/Ingest/utils/tokenizer.py:38-40 | a text is a key of the header dictionary exactly when it is the stripped form of some non-blank header; blank headers are skipped |
| Tokenizer.ScanHeadersMapping | api/Ingest/utils/tokenizer.py:31-40 | a non-blank header that does not recur later maps to the group carried at its column, so the last occurrence of a repeated header wins |
| Tokenizer.ScanHeadersDistinct | api/Ingest/utils/tokenizer.py:31-40 | the header dictionary has no duplicate keys |
| Tokenizer.AddToGroup | api/Ingest/utils/tokenizer.py:44-47 | the group's list gains the header at its end; a new group is created with that one header and goes last; other groups are untouched; keys stay distinct |
| Tokenizer.CollectGroups | api/Ingest/utils/tokenizer.py:43-47 | the grouping loop computes `GroupHeaders` |
| Tokenizer.GroupHeadersKeys | api/Ingest/utils/tokenizer.py:43-47 | the groups appear once each, in the order of their first header in the dictionary |
| Tokenizer.GroupHeadersLists | api/Ingest/utils/tokenizer.py:43-47 | each group's list is exactly its headers, in dictionary order |
| Tokenizer.ColumnOf | api/Ingest/utils/tokenizer.py:57-58 | the column of a header is the first column whose raw header equals it; there is none exactly when the header is absent |
| Tokenizer.BuildGroupText | api/Ingest/utils/tokenizer.py:55-61 | the inner loop computes `GroupText`, the `header: value` lines of one group |
| Tokenizer.GroupTextBlank | api/Ingest/utils/tokenizer.py:55-63 | a group's text is blank exactly when none of its headers has a non-blank value in the row |
| Tokenizer.ChunkRow | api/Ingest/utils/tokenizer.py:53-65 | the per-row loop computes `RowChunks`, whose chunks are `normalize_text_vi` as written of the stripped group text |
| Tokenizer.RowChunksAppend | api/Ingest/utils/tokenizer.py:62-65 | one more group adds one chunk at the end, `NormalizeTextVi` of its stripped text, exactly when one of its headers has a value in the row |
| Tokenizer.RowChunksNormalized | api/Ingest/utils/tokenizer.py:62-65 | every chunk of a row, normalised as written, is non-empty and normalised |
| Tokenizer.DataChunksNormalized | api/Ingest/utils/tokenizer.py:52-65 | every chunk of every data row is non-empty and normalised |
| Tokenizer.CsvChunksNormalized | api/Ingest/utils/tokenizer.py:17-67 | every chunk of the file is non-empty and normalised |
| Tokenizer.ExtractTextFromCsv | api/Ingest/utils/tokenizer.py:17-67 | the method returns `CsvChunks`. Fewer than two rows give no chunks. Every chunk is non-empty and normalised |
| Tokenizer.ChunkText | api/Ingest/utils/tokenizer.py:133-143 | blank text gives no chunks; other text is handed to the splitter unchanged |
| ResponseParser.FindMarker | services/rag_service.py:306-317 | the position found is the first at or after the start where a marker matches; none is found exactly when no such position exists |
| ResponseParser.RunEnd | services/rag_service.py:307 | the greedy `[=-]+` run ends at the first character after the start that is not `=` or `-` |
| ResponseParser.BodyStart | services/rag_service.py:307 | the body starts after the label and at least one `=` or `-` character |
| ResponseParser.MainEnd | services/rag_service.py:307-308 | the lazy body ends at the first position at or after the body start where the lookahead (a more marker or `$`) holds |
| ResponseParser.DollarEnd | services/rag_service.py:314 | `$` ends the section at the end of the text, or just before a final line break |
| ResponseParser.MainEndBeforeMore | services/rag_service.py:307-308 | when the first more marker after the body start is at `m`, the main body ends there, less the whitespace before it |
| ResponseParser.MainEndWithoutMore | services/rag_service.py:307-308 | without a later more marker, the main body ends where `$` matches |
| ResponseParser.ParseResponse | services/rag_service.py:293-353 | the result is the response text and the option list, and every option is clean |
| ResponseParser.CollectOptions | services/rag_service.py:336-348 | the option loop computes `OptionsFrom` of the section's lines |
| ResponseParser.MainSectionIs | services/rag_service.py:320-321 | with a main marker, the response comes from the text between its body start and its body end |
| ResponseParser.MainResponseUpToMore | services/rag_service.py:306-333 | with a main marker followed by a more marker, the response is the stripped text between the main body start and that marker, less a leading main marker |
| ResponseParser.MainResponseToEnd | services/rag_service.py:306-333 | with a main marker and no later more marker, the response is the stripped rest of the text, less a leading main marker |
| ResponseParser.MoreOnlyResponse | services/rag_service.py:322-326 | with only a more marker, the response is the stripped text before it |
| ResponseParser.NoMarkerResponse | services/rag_service.py:327-337 | with no marker at all, the response is the whole text stripped, and there are no options |
| ResponseParser.DropLeadingMainOfUnmarked | services/rag_service.py:333 | a stripped text that does not start with a main marker is not changed by the leading-marker removal |
| ResponseParser.DropLeadingMainOfPlain | services/rag_service.py:322-333 | when the text has no main marker anywhere, the leading-marker removal leaves any stripped prefix of it unchanged |
| ResponseParser.OptionsSection | services/rag_service.py:313-340 | with a more marker, the options come from the lines of the stripped text after its body start |
| ResponseParser.OptionsFromClean | services/rag_service.py:340-348 | every option taken from lines without line breaks is clean |
| ResponseParser.OptionsClean | services/rag_service.py:336-348 | every option of any reply is non-empty, stripped and without a line break |
| ResponseParser.OptionOfClean | services/rag_service.py:341-348 | an option taken from a line without line breaks is non-empty, stripped and a single line |
| ResponseParser.DropBullet | services/rag_service.py:345 | the result is a suffix of the line |
| ResponseParser.DropOrdinal | services/rag_service.py:346 | the result is a suffix of the line |
| ResponseParser.CleanOption | services/rag_service.py:341-346 | the cleaned option is a stripped suffix of the stripped line |
| ResponseParser.PlainLineKept | services/rag_service.py:341-348 | a non-blank line whose stripped form starts with neither a bullet nor a digit is kept, stripped |
| ResponseParser.DropBulletOf | services/rag_service.py:345 | a bullet and the spaces after it are removed, and the rest is kept |
| ResponseParser.DropOrdinalOf | services/rag_service.py:346 | digits followed by `.` or `)` and spaces are removed, and the rest is kept |
| ResponseParser.BulletThenOrdinal | services/rag_service.py:345-346 | "- 1. text" cleans to "text": the bullet goes first, then the ordinal |
| Prompt.BuildPrompt | services/rag_service.py:204-291 | the method returns `PromptMessages`: exactly two messages, the system prompt then the user prompt |
| Prompt.BuildQueryPart | services/rag_service.py:242-262 | the first user part is `QueryPart` |
| Prompt.BuildPreviousContext | services/rag_service.py:236-240 | the previous-question loop computes `PreviousBlock` |
| Prompt.PreviousQuestionsNumbered | services/rag_service.py:236-240 | for questions without line breaks, the lines of the block are the questions numbered 1 to n in the given order, followed by an empty last line |
| Prompt.PreviousLinesJoined | services/rag_service.py:238-240 | the numbered lines are the joined numbered questions, each ended by a line break |
| Prompt.PreviousBlockIffQuestions | services/rag_service.py:236-257 | the user prompt opens with the introduction directly followed by the previous-question header exactly when there are previous questions |
| Prompt.IntroMentionsContextIffNonBlank | services/rag_service.py:245-248 | the user prompt opens with the introduction that mentions the context exactly when the context text is not blank |
| Prompt.QueryPartEnding | services/rag_service.py:251-262 | the query part ends with the context section when the context is not blank, and with the question otherwise |
| Prompt.UserPromptLayout | services/rag_service.py:255-285 | the user prompt is the query part, the main template, then the more template when it is requested, each separated by a blank line |
| Prompt.UserPromptStartsWithQueryPart | services/rag_service.py:255-285 | the user prompt starts with the query part |
| Prompt.MainMarkerPresent | services/rag_service.py:265-285 | the main-response marker always occurs in the user prompt, right after the query part and a blank line |
| Prompt.MoreTemplateIffRequested | services/rag_service.py:273-285 | the user prompt ends with the more-option template exactly when options are requested |
| Prompt.ContextEntries | services/rag_service.py:366-368 | there is one numbered entry per context, in order |
| Prompt.ContextTextBlankIffEmpty | services/rag_service.py:366-368 | the context text is empty exactly when there are no contexts |
| Prompt.Take | services/rag_service.py:436 | `s[:n]` is the prefix of length `min(n, len(s))` |
| Prompt.FallbackResponse | services/rag_service.py:432-438 | the fallback is the fixed head, the first 1000 characters of the context text, then the fixed configuration hint |
| Cache.KeysDisjoint | utils/redis_conn.py:58-122 | conversation, embedding and rate-limit keys never collide |
| Cache.ConversationKeyInjective | utils/redis_conn.py:58 | distinct conversation ids have distinct keys |
| Cache.EmbeddingKeyInjective | utils/redis_conn.py:112 | distinct query hashes have distinct keys |
| Cache.PyTail | utils/redis_conn.py:94 | `s[-n:]` is a suffix of `s` |
| Cache.Trimmed | utils/redis_conn.py:93-94 | a positive bound keeps exactly the newest `min(n, len)` messages. A bound of 0 keeps all. A negative bound drops that many of the oldest |
| Cache.Limited | utils/redis_conn.py:70-73 | the result is a suffix. A limit between 1 and the length keeps exactly that many. No limit, a limit of 0 or a limit at least the length keeps all |
| Cache.NegativeLimitDropsOldest | utils/redis_conn.py:70-72 | a negative limit drops that many of the oldest messages |
| Cache.LimitedNewest | utils/redis_conn.py:70-72 | a limit below the length returns exactly the newest `limit` messages |
| Cache.AddKeepsNewest | utils/redis_conn.py:90-94 | after an append and trim, the appended message is the newest entry, and at most `max_messages` remain |
| Cache.ParsePort | utils/redis_conn.py:28-31 | an integer port text gives its value; anything else gives 6379 |
| Cache.ParseDb | utils/redis_conn.py:33-36 | a blank or non-integer database text gives 0; an integer gives its value |
| Cache.ClientConfigOf | utils/redis_conn.py:20-47 | a non-empty URI wins and is carried as given. Otherwise the host defaults to localhost; the port is `ParsePort` of `REDIS_PORT` (6379 when unset or not an integer) and the database `ParseDb` of `REDIS_DB` (0 when unset, blank or not an integer); a non-empty password is carried as given and an empty one counts as none |
| Cache.DefaultsParse | utils/redis_conn.py:28-36 | the default texts "6379" and "0" parse to 6379 and 0 |
| Cache.RedisConnection.CacheConversationMessages | utils/redis_conn.py:51-59 | online, the list under the conversation key is replaced and its TTL is set to the given or configured context TTL. Offline, it fails and nothing changes |
| Cache.RedisConnection.CacheConversationContext | utils/redis_conn.py:100-102 | the same effect as `CacheConversationMessages` |
| Cache.RedisConnection.GetConversationMessages | utils/redis_conn.py:61-74 | online, a missing key gives none and a stored list gives its `Limited` view. Offline, it fails |
| Cache.RedisConnection.GetConversationContext | utils/redis_conn.py:104-106 | the stored list, unlimited, or none when the key is missing |
| Cache.RedisConnection.AddMessageToConversationCache | utils/redis_conn.py:76-97 | online, the message is appended to the stored list (or to an empty one), the list is trimmed, and the TTL is refreshed; nothing else changes |
| Cache.RedisConnection.CacheQueryEmbedding | utils/redis_conn.py:109-113 | online, the vector is stored under the embedding key with the given or configured embedding TTL |
| Cache.RedisConnection.GetQueryEmbedding | services/rag_service.py:43-46 | online, the stored vector or none exactly when the key is missing |
| Cache.RedisConnection.CheckRateLimit | utils/redis_conn.py:116-126 | online, the counter goes up by one and the TTL is set only on the first request of a window. The request is allowed exactly when the new count is within the limit. Offline, it fails with no change |
| Llm.LowerText | services/llm_service.py:21 | lower-casing keeps the length and maps each character |
| Llm.NormalizeOllamaUrl | services/llm_service.py:29-34 | the URL always ends with `/v1`. Without a base URL it is the default. A given URL already ending in `/v1` is kept whole; otherwise `v1` is appended to one ending in `/` and `/v1` to any other |
| Llm.NormalizeIdempotent | services/llm_service.py:29-34 | normalising a normalised URL changes nothing |
| Llm.NewLlmService | services/llm_service.py:17-54 | construction succeeds exactly when the token bound parses and the provider is Ollama or a key is set. Provider, model, temperature and token bound follow the settings and defaults. Ollama gets the fixed key and the normalised URL; another provider gets its key and the given or OpenAI URL. With a valid token bound, the error is the missing-key error |
| Llm.ConstructsIsRequested | services/llm_service.py:159-164 | an LLM can only be built when the provider is Ollama or an OpenAI key is set |
| Llm.GetLlmService | services/llm_service.py:150-175 | the factory returns a service exactly when construction succeeds, and none otherwise. An Ollama service has the fixed key and a `/v1` URL; any other has a non-empty key |
| Llm.ZeroTemperatureOverridden | services/llm_service.py:93 | as written, a requested temperature of 0.0 is replaced by the configured one (see Findings) |
| Llm.RequestAsWritten | services/llm_service.py:90-95 | the request carries the service's model and the messages. A temperature or token bound given and non-zero is sent; a missing or zero one is replaced by the configured value |
| Llm.RequestFor | services/llm_service.py:90-95 | corrected: a given temperature is sent as is, and only a missing one takes the configured value. The token bound keeps the source rule, and the request equals the as-written one whenever the temperature is not 0.0 |
| Llm.Generate | services/llm_service.py:56-112 | the endpoint is called with the request as written (`RequestAsWritten`). The call succeeds exactly when the endpoint does. A failure is a message starting with "LLM generation error: " and ending with the endpoint's detail |
| Llm.PromptMessageList | services/llm_service.py:135-143 | a system message comes first when the system prompt is non-empty, then the history unchanged, then the user prompt last |
| Llm.FromPromptMessages | services/llm_service.py:135-143 | the method builds `PromptMessageList` |
| Llm.GenerateFromPrompt | services/llm_service.py:114-145 | the result is `Generate` on those messages with the given parameters |
| Rag.CollectContexts | services/rag_service.py:75-85 | pairing succeeds exactly when the three lists are aligned; then context `i` is document, metadata and distance `i` |
| Rag.RetrieveContext | services/rag_service.py:31-85 | the result is `Retrieval` with the cached vector before the call. A miss on a live cache stores the new embedding. A hit or an offline cache changes nothing |
| Rag.HitSkipsEncoder | services/rag_service.py:52-58 | on a cache hit the result does not depend on the encoder |
| Rag.Answer | services/rag_service.py:355-430 | options are always clean and only come from an LLM reply. Without an LLM, or when generation fails, the answer is `FallbackResponse` of the numbered context text (head, its first 1000 characters, tail) with no options; when the LLM replies, the answer is the parsed reply (`ResponseText`, `OptionsText`) |
| Rag.GenerationFailureFallsBack | services/rag_service.py:413-422 | a failing generation gives exactly `FallbackResponse` of the numbered context text (head, its first 1000 characters, tail) and no options |
| Rag.GenerateResponse | services/rag_service.py:355-430 | the method computes `Answer` with the modelled prompt builder |
| Rag.DecideAndGenerate | services/rag_service.py:87-202 | the method computes `Decision` with the cached vector before the call. The embedding is stored exactly when retrieval runs on a live cache and misses |
| Rag.RouteAndGenerate | services/rag_service.py:172-202 | the second half computes `Routed` for the two flags, with the same cache effect |
| Rag.WithoutLlmAlwaysRetrieves | services/rag_service.py:110-126 | without an LLM, retrieval always runs and its error propagates. The answer is `FallbackResponse` of the retrieved contexts' numbered text (head, its first 1000 characters, tail), with no options and `used_context` true |
| Rag.ClassifierRequest | services/rag_service.py:154-158 | the classifier's request goes out at the configured temperature, not 0.0, with at most 256 tokens, and the call's outcome is the endpoint's reply to it |
| Rag.ClassifierErrorPropagates | services/rag_service.py:154-158 | a failing classifier call fails the whole step with the wrapped generation error, and nothing is retrieved |
| Rag.ClassificationFailsOpen | services/rag_service.py:160-170 | an unreadable classifier reply leaves both flags true, so retrieval runs |
| Rag.RetrievalGatedOnFlags | services/rag_service.py:173-198 | retrieval runs exactly when both flags are true. Otherwise there are no contexts and `used_context` is false. `used_context` is whether any context came back |
| Rag.DecisionOptionsClean | services/rag_service.py:189-197 | every option of a decision is clean and only comes from an LLM |
| Chat.RecentMessages | services/conversation_service.py:71-76 | the newest `limit` messages of the conversation, oldest first |
| Chat.ConversationStore.AddMessage | services/conversation_service.py:30-69 | the message is appended to the store and its id is its position. On a live cache it is also appended to the cached conversation, trimmed to 50 |
| Chat.LastUserIndex | api/chat/chat.py:57-65 | the index found is a user message with no user message after it, or -1 when there is none |
| Chat.PreviousQueryIsLastUser | api/chat/chat.py:57-65 | the previous question is the content of the last user message, if there is one |
| Chat.SelectPreviousQueries | api/chat/chat.py:45-66 | no follow-up gives none. For a follow-up: the cache list if the key is present; otherwise the store's newest 5 messages, written back to the cache. At most one question, the last user one. An offline cache fails |
| Chat.ContextsUsed | api/chat/chat.py:121 | one preview per context, in order, each the prefix of exactly min(100, length) characters of its context |
| Chat.ConversationMessages | services/conversation_service.py:71-76 | the conversation's messages are exactly those the store logged under its id |
| Chat.UserQueries | api/chat/chat.py:58-62 | the queries are exactly the contents of the `user` messages |
| Chat.TwoAddsKeepOrder | api/chat/chat.py:90-104 | two appends, each trimmed to at least two, leave the user message then the reply as the newest two entries |
| Chat.TurnCached | api/chat/chat.py:90-104 | the two cache additions of a turn leave the cached conversation ending with the user message then the reply |
| Chat.PersistTurn | api/chat/chat.py:89-104 | the user message and then the assistant message are stored with consecutive ids and, on a live cache, end the cached conversation in that order |
| Chat.AnswerTurn | api/chat/chat.py:42-126 | after the gate, the reply follows the orchestration outcome. An error stores nothing. A success stores the turn and bounds each preview |
| Chat.HandleChat | api/chat/chat.py:22-126 | an offline cache fails the turn. A count above 20 in the window gives the 429 error and changes no conversation or embedding; otherwise the turn runs. The reply mirrors the orchestration outcome, errors store nothing, and a success stores and caches the turn in order |

## Left out

- Document I/O is not modelled: PDF and TXT extraction, file reading, `chardet` encoding detection and the CSV cleaning pass. The CSV core works on rows already split into cells.
- The LangChain text splitter is a parameter of `ChunkText`. Only the blank guard in front of it is modelled.
- Network and stores are not modelled: Redis, MongoDB, ChromaDB, the embedding model and the LLM endpoints. They are maps in the `RedisConnection` class, a log in `ConversationStore`, and function-valued parameters (`query`, `encode`, the endpoint).
- Redis TTLs are recorded but never expire, because there is no clock. The incr-then-expire pair is treated as atomic, and concurrent requests are not modelled.
- Python's `hash()` of the query is a parameter (`queryHash`).
- The cache stores of the three key families are kept as three maps. `Cache.KeysDisjoint` shows that they cannot collide.
- `socket_timeout`, `ping`, `check_connection` and the generic `set`/`delete` wrappers of the Redis class are not modelled. No core path uses them. The generic `get` is used once, by `retrieve_context` on the query-embedding key (services/rag_service.py:43); that use is modelled as `GetQueryEmbedding`.
- A Redis connection that fails is the `online` flag. Every operation on an offline connection returns an error; the source raises it.
- `LLM_TEMPERATURE` is read as a number. Python's float parsing is not modelled.
- `CACHE_CONTEXT_TTL`, `CACHE_EMBEDDING_TTL`, `RATE_LIMIT_REQUESTS` and `RATE_LIMIT_WINDOW` are plain integers in `Settings`, fixed when the connection is made. The source parses them with `int()` at each call (utils/redis_conn.py:57, 96, 111, 118, 120), so a non-integer value raises `ValueError` there; for example a bad `CACHE_CONTEXT_TTL` fails the chat turn that caches the conversation without a TTL (api/chat/chat.py:53). That error path and a change of the environment between calls are not modelled.
- `LLM_MAX_TOKENS` is parsed with `int()`, and a bad value is the construction error.
- `int()` is modelled on ASCII digits with an optional sign and surrounding whitespace. Underscores and non-ASCII digits are not accepted.
- Character classes are approximations:
  - whitespace is a fixed set of characters;
  - digits are ASCII;
  - `lower()` folds ASCII only;
  - the Vietnamese letters are the explicit accented set of the source's character class plus ASCII letters.
- Section markers match case-insensitively on ASCII only. The `re.IGNORECASE` flag on those labels also folds a few non-ASCII letters (ſ, the Kelvin sign K, İ, ı), which the model does not.
- JSON decoding of the classifier reply is an abstract function `readClassification` on the service. Its result is either the two flags or `Malformed`.
- Message ids are positions in the log, not `uuid4` values. Timestamps are not modelled.
- The conversation counters and `update_one` of the store are not modelled. Neither are the `create_conversation` and `get_messages` endpoints.
- Logging, `print` and timing code are left out, as is the `lru_cache` singleton of `get_llm_service`.
- The `system_prompt` parameter of `generate_response` is not modelled, because the source never uses it.
- The `Rag` lemmas take the prompt builder as a parameter (`PromptBuilder`). The methods use `Prompt.PromptMessages`.
- ConversationStore.AddMessage and the `encode` parameter never fail. In the source, `insert_one` and `update_one` (services/conversation_service.py:47-52), `get_recent_messages` and `encode_single` (services/rag_service.py:56) can raise, and the endpoint then answers with a server error. A raise between the two `add_message` calls (api/chat/chat.py:90-104) would leave the user message stored without its reply; the model does not capture that partial write.
- Where the written description and the code differ, the code is followed. Without an LLM, `used_context` is true even when no context came back. The two Findings below are modelled as written in the operational model (`Generate`, `RowChunks`); their corrected definitions stand beside it with their own lemmas.

## Findings

| source | as written | input that shows it | evidently intended | confidence | as-written member | corrected member |
|---|---|---|---|---|---|---|
| services/llm_service.py:93 | `temperature or self.temperature` | the classifier asks for `temperature=0.0` (services/rag_service.py:156) with `LLM_TEMPERATURE=0.7`: 0.0 is falsy, so 0.7 is sent | fall back to the configured value only when no temperature is given (`is None`) | not executed | Llm.ZeroTemperatureOverridden | Llm.RequestFor |
| api/Ingest/utils/tokenizer.py:164 | the fourth substitution puts a space between any mark of `,.!?:;` and a following digit | "3.14" normalises to "3. 14", and "1,234" to "1, 234" | keep a mark that sits between two digits, as the comment at lines 166-169 says the substitutions already do | not executed | Tokenizer.DecimalPointSpaced | Tokenizer.NormalizeKeepingDecimalsProperties |
