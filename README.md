# Telegram AI translation relay: a Dafny model

The system is a translation relay for a Telegram client. A Python service accepts a chat message with a direction:

- `incoming` messages go from German to English;
- `outgoing` messages go from English to German.

The service builds a system prompt and a user prompt and asks an upstream chat-completion API (OpenRouter) for the translation. It retries empty replies, timeouts, rate limiting and billing problems under separate capped counters. When a failure is not retried, or its retries are used up, it falls back to the original text, so the caller always gets text back. The service also counts requests for its health and stats endpoints.

On the device, the Swift side decides from the user's settings whether a chat and direction are translated. It sends outgoing text to the relay with optional conversation context, and it caches incoming translations.

The model has one Dafny module per source file:

| module | file |
|---|---|
| `Models` | `models.py` |
| `PromptBuilder` | `prompt_builder.py` |
| `ErrorPolicy` | `error_policy.py` |
| `OpenRouterClient` | `openrouter_client.py` |
| `Translator` | `translator.py` |
| `Stats` | `stats.py` |
| `TranslationConfig` | `AITranslationConfig.swift` |
| `TranslationService` | `AITranslationService.swift` |

Three helper modules support them:

- `Wrappers`: `Option` and `Result`.
- `Text`: Python's `strip`, `lower`, `in`, `startswith`, `join` and `str(int)`.
- `Json`: decoded JSON values, with `dict.get`, truthiness, `str()` and `repr()`.

Modelling choices:

- **Upstream client, seen by the retry loop.** The client is a function from the call number to that call's result. The message list is the same on every call of one request, so indexing by call number loses nothing.
- **Sleeps.** They are recorded as a sequence of delays instead of being taken.
- **Retry loop.** It is an imperative `while` loop in `Translator.RetryLoop`. That method is proved equal to the recursive specification `Translator.Run`, and the retry properties are lemmas about `Run`.
- **Abstract parsers.** The JSON decoder and the float parser are parameters.
- **Stats and client settings.** The stats tracker, the client settings store and the client service are classes whose fields the methods update in place.

## Model

| member | source | states |
|---|---|---|
| Models.ParseDirection | server/app/models.py:15 | only "incoming" and "outgoing" are accepted, and an accepted name is the direction's own name |
| Models.DirectionRoundTrip | server/app/models.py:15 | every direction's name parses back to that direction |
| Models.ParseRole | server/app/models.py:9 | only "me" and "them" are accepted as a context role |
| Models.RoleRoundTrip | server/app/models.py:9 | every role's name parses back to that role |
| Models.ValidateContextSize | server/app/models.py:19-24 | a context passes unchanged exactly when it has at most 100 entries; otherwise it is refused with "context may contain at most 100 items" |
| Models.NewRequest | server/app/models.py:13-17 | a request given only text and direction has no chat id and an empty context |
| Models.ParseContext | server/app/models.py:8-10 | raw entries decode exactly when every role is valid, one message per entry in order, each with its role and text |
| Models.ParseRequest | server/app/models.py:13-24 | a body is accepted exactly when the direction, every role and the context size are valid; an accepted request keeps the text, chat id and direction, and its context is the decoded context; a refusal names the first failing field, checked in the order direction, role, context size |
| PromptBuilder.LanguagePairByDirection | server/app/prompt_builder.py:6-9 | "outgoing" is English to German; every other direction name, "incoming" included, is German to English |
| PromptBuilder.LanguagePair | server/app/prompt_builder.py:6-9 | source and target differ, and the target is German exactly for "outgoing" |
| PromptBuilder.ContextBlock | server/app/prompt_builder.py:15-20 | "(none)" exactly when there is no context; otherwise the block starts with the context header |
| PromptBuilder.ContextLines | server/app/prompt_builder.py:16-20 | one line "- role: text" per context entry, in order |
| PromptBuilder.BuildMessages | server/app/prompt_builder.py:12-39 | exactly two messages: the system prompt verbatim, then the user prompt; the loop that gathers the context lines is proved against `ContextLines` |
| PromptBuilder.UserPromptEndsWithText | server/app/prompt_builder.py:32-33 | the user prompt ends with "CURRENT_TEXT:\n" followed by the text to translate |
| PromptBuilder.UserPromptNamesTarget | server/app/prompt_builder.py:30 | the user prompt contains rule 5, which names the target language of the request's direction |
| PromptBuilder.UserPromptStatesRule | server/app/prompt_builder.py:26 | the user prompt contains "Translate ONLY the CURRENT_TEXT" |
| PromptBuilder.PreambleInPrompt | server/app/prompt_builder.py:22-34 | whatever the lines before the context block contain, the whole user prompt contains |
| PromptBuilder.UserPromptShowsContext | server/app/prompt_builder.py:16-20 | every context entry appears in the user prompt as its own line |
| ErrorPolicy.BillingClassification | server/app/error_policy.py:34-38 | status 402 is billing-related whatever the message; a non-402 error is billing-related exactly when its lower-cased message contains "billing", "payment", "insufficient", "balance" or "credits" |
| ErrorPolicy.LooksLikeUpstreamErrorText | server/app/error_policy.py:41-63 | after stripping and lower-casing, text is suspicious exactly when it is empty, starts with one of the six prefixes or contains one of the six fragments |
| ErrorPolicy.BlankIsSuspicious | server/app/error_policy.py:42-44 | empty or whitespace-only text is suspicious |
| ErrorPolicy.SuspicionIgnoresCase | server/app/error_policy.py:42 | lower-casing the text first does not change the verdict |
| ErrorPolicy.SuspicionIgnoresPadding | server/app/error_policy.py:42 | surrounding whitespace does not change the verdict |
| ErrorPolicy.SuspicionOfStripped | server/app/error_policy.py:42 | stripping the text first does not change the verdict |
| OpenRouterClient.ParseRetryAfter | server/app/openrouter_client.py:82-91 | Retry-After gives a delay exactly when the header is present, non-empty, parses and is not negative; the delay is the parsed value |
| OpenRouterClient.MessageOrCode | server/app/openrouter_client.py:98 | the error's "message" when that is truthy, otherwise its "code" |
| OpenRouterClient.TakeAtMost | server/app/openrouter_client.py:109 | a prefix of the string whose length is the smaller of the string's length and the bound |
| OpenRouterClient.ExtractErrorMessage | server/app/openrouter_client.py:94-112 | the nested error's message or code when the error is an object and that is truthy; else a string error as it stands; in every other object case (no error, a falsy message and code, an error of another type) the object's repr; a string body that is not JSON is its first 500 characters; a string body that is JSON is read through its decoding; any other value is its repr |
| OpenRouterClient.WrappedMessageReadsBack | server/app/openrouter_client.py:94-99 | an error in the usual nested shape with a non-empty message reads back as that message, whatever its code |
| Json.Get | server/app/openrouter_client.py:96 | a value exactly when the key is bound, and then one of the key's bindings |
| Json.ToStr | server/app/openrouter_client.py:99 | a string is itself, any other value its repr |
| Json.FirstBinding | server/app/openrouter_client.py:103 | the position of the first binding of a key: it binds the key and no earlier field does |
| Json.Keys | server/app/openrouter_client.py:103 | the keys of an object, each once, exactly those bound in it |
| Json.KeysInBindingOrder | server/app/openrouter_client.py:103 | the keys come in the order of their first bindings, as a dict filled by `json.loads` shows them |
| Json.LastBinding | server/app/openrouter_client.py:96 | the last binding of a key is the one lookup returns |
| Json.ReprRepeatedKey | server/app/openrouter_client.py:103 | an object with a repeated key is rendered with that key once and its last value |
| OpenRouterClient.ErrorTextIsDecoded | server/app/openrouter_client.py:105-110 | a string body that decodes is read through the decoded document |
| OpenRouterClient.PartText | server/app/openrouter_client.py:135-138 | a list part contributes the string "text" of an object part or a bare string part, and nothing otherwise |
| OpenRouterClient.ChunksAppend | server/app/openrouter_client.py:133-138 | gathering the chunks distributes over concatenation of the parts |
| OpenRouterClient.ChunksEmptyIff | server/app/openrouter_client.py:133-139 | no chunk is gathered exactly when no part contributes |
| OpenRouterClient.ContentTextInOrder | server/app/openrouter_client.py:139 | the joined text of a list content is the texts of its pieces, in order |
| OpenRouterClient.ChunksOfOne | server/app/openrouter_client.py:135-138 | the chunks of one part are its contribution, if any |
| OpenRouterClient.FirstMessage | server/app/openrouter_client.py:115-127 | the first choice's "message" object is found exactly when "choices" is a non-empty list whose first element is an object with an object "message" |
| OpenRouterClient.MessageContent | server/app/openrouter_client.py:128-140 | a string content as it stands; a list content as its joined chunks, or nothing when no part contributes; nothing without a message, without a content or with a content of any other type |
| OpenRouterClient.ExtractMessageContent | server/app/openrouter_client.py:115-140 | the append loop over the content parts computes `MessageContent` |
| OpenRouterClient.MissingKey | server/app/openrouter_client.py:30-31 | without an API key the call fails with status 401 and "OpenRouter API key missing", whatever the network does |
| OpenRouterClient.TransportFailures | server/app/openrouter_client.py:48-53 | a timeout is the timeout error; any other transport failure is an HTTP error with status 0 and the failure's message |
| OpenRouterClient.ErrorStatus | server/app/openrouter_client.py:55-64 | a status of 400 or more is an HTTP error carrying that status, the extracted message, the raw body and the parsed Retry-After |
| OpenRouterClient.BodyErrors | server/app/openrouter_client.py:66-73 | below 400, an undecodable body is malformed, and a decoded object with a truthy "error" is an HTTP error with the response's status, the message extracted from the decoded body, that body and no Retry-After |
| OpenRouterClient.SuccessIsClean | server/app/openrouter_client.py:75-79 | a successful call returns the stripped reply content, which is non-empty, already stripped and not suspicious |
| OpenRouterClient.CleanContentSucceeds | server/app/openrouter_client.py:66-79 | conversely, below 400 a decoded body without an error whose content is neither blank nor suspicious gives exactly the stripped content |
| OpenRouterClient.ReceivedBelow400 | server/app/openrouter_client.py:29-64 | with a key and a status below 400, the call's result is the interpretation of the body |
| OpenRouterClient.Interpret | server/app/openrouter_client.py:66-79 | a result it accepts is non-empty, already stripped and not suspicious |
| OpenRouterClient.InterpretClean | server/app/openrouter_client.py:75-79 | a decoded body without an error whose content is neither blank nor suspicious is interpreted as the stripped content |
| OpenRouterClient.EmptyResponseIff | server/app/openrouter_client.py:75-77 | the empty-response error happens exactly when a decoded body without an error has missing, blank or suspicious content |
| Translator.SystemPrompt | server/app/translator.py:160-167 | the prompt file's stripped text when it is readable and not blank, otherwise the default prompt; never empty |
| Translator.IdeographicSpacePromptIsBlank | server/app/translator.py:162-167 | a prompt file holding only an ideographic space gives the default prompt |
| Text.StripsIdeographicSpace | server/app/openrouter_client.py:76-79 | `strip()` removes whitespace beyond Latin-1: an ideographic space alone strips to nothing, and a trailing one is removed |
| Translator.Succeeded | server/app/translator.py:86-94 | a success keeps the translation, the original and the direction, its flags agree, and it has no reason |
| Translator.FallbackOutcome | server/app/translator.py:169-186 | a fallback returns the original text, with agreeing failure flags and the given reason |
| Translator.Translate | server/app/translator.py:52-158 | the flags agree; original text and direction are kept; a fallback returns the original text with a reason; a success has no reason; at most 15 calls; empty text succeeds with 0 attempts and no call; otherwise the messages are built once and the outcome, attempts and sleeps are those of `Run` |
| Translator.RetryLoop | server/app/translator.py:69-158 | the `while` loop with its four counters produces the verdict, the number of calls and the delays of `Run` from fresh counters |
| Translator.Run | server/app/translator.py:90-157 | a run from call number `k` makes at least one call; its shape, verdict, counters and delays are the lemmas below |
| Translator.Decide | server/app/translator.py:95-158 | a retry leaves the counters within their caps with one retry fewer remaining |
| Translator.DecideRetries | server/app/translator.py:95-151 | a call is retried exactly when its kind of failure has retries left; a retry raises that counter and waits that kind's delay |
| Translator.DecideStops | server/app/translator.py:86-158 | a call that is not retried ends the run with the reply, or with the failure's fallback reason |
| Translator.RetryUsed | server/app/translator.py:96-141 | a retry raises exactly the counter of the call's own kind and leaves the others alone |
| Translator.RetryWaits | server/app/translator.py:97-149 | a retry waits its kind's delay and counts an empty reply exactly when the call was one |
| Translator.RunShape | server/app/translator.py:76-77 | a run makes at least one call and at most one more per remaining retry, and sleeps once between consecutive calls |
| Translator.RunLast | server/app/translator.py:76-158 | the last call decides the run under the final counters |
| Translator.RunRetriedBefore | server/app/translator.py:95-151 | every call before the last was a retryable failure, never a reply or a final error |
| Translator.RunVerdict | server/app/translator.py:86-158 | a run translates exactly when its last call returned a reply, with that reply's text; otherwise it falls back with the last failure's reason |
| Translator.RunCounts | server/app/translator.py:96-141 | each counter ends raised by the number of retried calls of its kind |
| Translator.CountsAfterRetry | server/app/translator.py:96-141 | one retried call adds its own kind to the counts that the rest of the run adds |
| Translator.RunDelays | server/app/translator.py:97-149 | the delays slept are, call after call, the delays each retried failure calls for |
| Translator.DelaysAfterRetry | server/app/translator.py:97-149 | one retried call puts its own delay in front of the delays of the rest of the run |
| Translator.ExpectedDelayAt | server/app/translator.py:97-149 | the i-th delay is the one the (k+i)-th call's failure calls for, with the empty replies before it counted |
| Translator.EmptyBackoffsArePowers | server/app/translator.py:69 | the empty-reply backoffs are 2^0 .. 2^4 seconds |
| Translator.EmptyRetriesDouble | server/app/translator.py:95-107 | the n-th retried empty reply is followed by a sleep of 2^n seconds |
| Translator.RetriesWithinCaps | server/app/translator.py:96-151 | from fresh counters no kind of failure is retried more than its cap (5, 3, 3, 3), and a fallback on a retryable failure has used all of that kind's retries |
| Translator.CallsBounded | server/app/translator.py:76-158 | a request makes at most 1 + 5 + 3 + 3 + 3 calls |
| Translator.FinalCallStops | server/app/translator.py:153-158 | a reply, a non-retryable HTTP error, any other upstream error or an unexpected failure ends the run at that call with no further sleep |
| Translator.RateLimitBeforeBilling | server/app/translator.py:122-139 | a 429 is handled as rate limiting, waiting its Retry-After or 2 seconds, and never falls back as "billing" whatever its message |
| Translator.EmptyRepliesThenSuccess | server/tests/test_retry_empty.py:53-56 | two empty replies then a reply: sleeps 1 and 2, three calls, the reply's text |
| Translator.SixEmptyRepliesFallBack | server/tests/test_retry_empty.py:81-85 | six empty replies: sleeps 1, 2, 4, 8, 16, six calls, fallback "empty_response" |
| Translator.TimeoutsFallBack | server/tests/test_timeout_fallback.py:43-47 | constant timeouts: three one-second sleeps, four calls, fallback "timeout" |
| Translator.RateLimitRespectsRetryAfter | server/tests/test_rate_limit_retry_after.py:47-50 | two 429s with Retry-After 7 and 1.5 then a reply: those sleeps, three calls, the reply's text |
| Translator.PaymentRequiredFallsBack | server/tests/test_billing_error_fallback.py:44-49 | constant 402s: three five-second sleeps, four calls, fallback "billing" |
| Translator.OtherStatusFallsBackAtOnce | server/app/translator.py:153 | a non-billing status 500 falls back at once as "http_500", after one call and no sleep |
| Stats.Step | server/app/stats.py:26-41 | a start counts the request and puts it in flight; an end takes one out of flight but never below zero, counts a fallback and a success as flagged, records the success time, and leaves the total alone |
| Stats.StatsTracker.constructor | server/app/stats.py:15-24 | a new tracker has every counter at zero and no last success |
| Stats.StatsTracker.RecordStart | server/app/stats.py:26-30 | total and in-flight grow by one; nothing else changes; the handle carries the start reading |
| Stats.StatsTracker.RecordEnd | server/app/stats.py:32-41 | in-flight drops by one, but not below zero; the fallback count grows exactly when the end used the fallback; the success count and the last-success time change exactly when it succeeded; the total is unchanged |
| Stats.StatsTracker.StatsSnapshot | server/app/stats.py:53-67 | reports the counters; the success rate is 0 while the total is 0 and successes over total otherwise |
| Stats.StatsTracker.HealthSnapshot | server/app/stats.py:43-51 | status "ok"; the last success time reported is the one recorded, if any |
| Stats.ReplayCounts | server/app/stats.py:26-41 | from a new tracker, events whose every end follows a start leave the total at the number of starts, the successes and fallbacks at the flagged ends, and in-flight at the starts not yet ended |
| Stats.LastSuccessIff | server/app/stats.py:39-45 | a last success time is reported exactly when some end succeeded |
| Stats.CompletedRequests | server/tests/test_stats_health.py:100-117 | n successful and m fallback requests, paired in any order, leave n + m requests, n successes, m fallbacks and none in flight |
| Stats.Replay | server/app/stats.py:26-41 | calling the tracker's methods for each event leaves its counters at those events' replay |
| TranslationConfig.IsEnabled | telegram_overlay/files/submodules/AITranslation/Sources/AITranslationConfig.swift:56-63 | off while the global switch is off or the direction's switch is off; past those, on for no chat and otherwise the chat's own switch, on when there is no entry |
| TranslationConfig.PerChatOverride | telegram_overlay/files/submodules/AITranslation/Sources/AITranslationConfig.swift:65-69 | nothing for no chat; otherwise exactly the stored entry, absent when there is none |
| TranslationConfig.WithPerChatEnabled | telegram_overlay/files/submodules/AITranslation/Sources/AITranslationConfig.swift:74-80 | the chat's effective switch becomes the requested value; on removes the entry, off stores false; other chats' entries and every other setting are unchanged |
| TranslationConfig.DefaultsHaveNoTrueEntries | telegram_overlay/files/submodules/AITranslation/Sources/AITranslationConfig.swift:8-19 | the defaults store no `true` per-chat entry and translate nothing |
| TranslationConfig.SwitchKeepsNoTrueEntries | telegram_overlay/files/submodules/AITranslation/Sources/AITranslationConfig.swift:72-82 | switching chats keeps every stored per-chat entry false |
| TranslationConfig.SwitchDecides | telegram_overlay/files/submodules/AITranslation/Sources/AITranslationConfig.swift:61-62 | with the global and direction switches on, a chat is translated exactly when it was last switched on |
| TranslationConfig.SwitchIsLocal | telegram_overlay/files/submodules/AITranslation/Sources/AITranslationConfig.swift:72-82 | switching one chat leaves every other chat's decision unchanged |
| TranslationConfig.Toggled | telegram_overlay/files/submodules/AITranslation/Sources/AITranslationConfig.swift:85-91 | a toggle answers the flipped effective switch, and the chat's effective switch becomes that answer |
| TranslationConfig.ToggleTwice | telegram_overlay/files/submodules/AITranslation/Sources/AITranslationConfig.swift:85-91 | two toggles restore the chat's effective switch exactly; when no entry is true they restore all the settings |
| TranslationConfig.AITranslationConfig.constructor | telegram_overlay/files/submodules/AITranslation/Sources/AITranslationConfig.swift:32-41 | an empty store reads back the defaults |
| TranslationConfig.AITranslationConfig.Update | telegram_overlay/files/submodules/AITranslation/Sources/AITranslationConfig.swift:50-54 | the stored settings become what the mutator makes of them, and nothing else changes |
| TranslationConfig.AITranslationConfig.SetPerChatEnabled | telegram_overlay/files/submodules/AITranslation/Sources/AITranslationConfig.swift:72-82 | answers its argument; no chat leaves the settings unchanged; otherwise the chat switch is applied, keeping every stored entry false |
| TranslationConfig.AITranslationConfig.TogglePerChatEnabled | telegram_overlay/files/submodules/AITranslation/Sources/AITranslationConfig.swift:85-91 | no chat answers true and changes nothing; otherwise the chat's effective switch is flipped and the new value is the answer |
| TranslationService.ContextLimit | telegram_overlay/files/submodules/AITranslation/Sources/AITranslationService.swift:87 | the requested number of context messages always lies in [2, 100], and equals the configured count when that already does |
| TranslationService.BuildContext | telegram_overlay/files/submodules/AITranslation/Sources/AITranslationService.swift:79-89 | no context unless conversation mode is on, there is a chat and at least two messages are configured; then the chat's recent messages, asked for with a limit in [2, 100]: the configured count when it is at most 100, and 100 above that |
| TranslationService.IncomingDisplay | telegram_overlay/files/submodules/AITranslation/Sources/AITranslationService.swift:58-72 | the original is always the input, and the result counts as translated exactly when its text differs. Empty or switched-off text comes back unchanged, with no request and no cache change. A cached translation is used without a request. Otherwise the relay is asked with no context and its answer is cached under the key |
| TranslationService.RepeatIsCached | telegram_overlay/files/submodules/AITranslation/Sources/AITranslationService.swift:62-70 | asking again for the same message gives the same result, with no request and no cache change |
| TranslationService.SentDirectionsParse | telegram_overlay/files/submodules/AITranslation/Sources/AITranslationService.swift:68 | every incoming request names a direction the relay accepts |
| TranslationService.AITranslationService.TranslateOutgoing | telegram_overlay/files/submodules/AITranslation/Sources/AITranslationService.swift:47-56 | empty or switched-off text comes back unchanged with no request; otherwise the relay is asked with direction "outgoing" and the built context, and its answer is the result; the direction always parses on the relay |
| TranslationService.AITranslationService.TranslateIncomingDisplayText | telegram_overlay/files/submodules/AITranslation/Sources/AITranslationService.swift:58-72 | result, request and new cache are those of `IncomingDisplay`; the cache changes only when a request is sent |

## Left out

- Network I/O. That covers the POST, its headers and payload, closing the HTTP client, the URLSession calls and the health check. The outcome of a POST, the relay's answer and the context provider are inputs.
- JSON decoding and `float()`. Both are parameters, and the decoder is assumed to map a string document to a shorter string. Non-finite Retry-After values ("nan", "inf") are up to that parameter.
- Json.Repr: JSON numbers are integers, and strings are always shown in single quotes with no escaping. Python's `repr()` switches to double quotes for a string holding a single quote, and escapes backslashes, `\n`, `\t` and other control characters; the model does none of this.
- Concurrency: the asyncio lock, `await` points and `DispatchQueue.sync`. Everything is sequential.
- Clocks. `perf_counter`, wall-clock times, uptime, `round` and the cumulative response time with its average are left out. Clock readings are plain parameters.
- Stats.StatsTracker.StatsSnapshot: the success rate is exact division, not floating point, and the average response time is not reported.
- Logging. It has no effect on outcomes.
- Service settings, environment loading and FastAPI wiring, including the per-request pairing of start and end calls, which appears only as the `Paired` precondition.
- ErrorPolicy.BillingClassification: Python's `lower()` is modelled as ASCII lower-casing.
- ErrorPolicy.LooksLikeUpstreamErrorText: Python's `lower()` is modelled as ASCII lower-casing. A text such as "API \u212AEY" (with a Kelvin sign) is therefore suspicious in Python but not in the model.
- TranslationService.IncomingDisplay: `wasTranslated` compares code points. Swift's `String !=` compares by canonical equivalence, so a relay answer that differs from the input only in Unicode normalisation counts as translated here and as not translated in Swift.
- TranslationService.AITranslationService.TranslateIncomingDisplayText: inherits the code-point comparison of `IncomingDisplay` for `wasTranslated`, where Swift compares by canonical equivalence.
- Translator.Translate: for empty text, the `messages` out-parameter is `[]` because no messages are built. The source builds none either.
- UserDefaults persistence. `load`/`save` are the `stored` field, and the decode failure that falls back to the defaults is left out.
- Eviction from the NSCache-backed `TranslationCache`. The cache is a map that never forgets.
- `text.hashValue` in the cache key. The key is the pair (message key, text), so hash collisions are not modelled.
- The UI files and the placeholder context provider, which always returns no messages.
