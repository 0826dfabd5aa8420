# A verified model of an OpenAI-compatible API gateway

This project models the rule logic of a self-hosted gateway in Dafny. The gateway forwards OpenAI-style chat requests to configured upstream providers. Its admin console, a small Vue application, manages providers, models, upstream keys and settings. The model follows the Go backend and the console's client code file by file:

- **Gateway admission** (`Gateway`): the global sliding-window rate limiter, the per-provider/per-model custom rate-limit rules with one window per rule, and the concurrency counter. It also covers keyword-based custom error substitution, system-prompt injection, the stream-mode override, the fake-stream framing, the Vertex `google/` rewrite and the prefix stripping in `findModel`.
- **Upstream key rotation** (`ApiKeys`): the round-robin choice among a provider's active keys through the per-provider position map, default key naming, and the partial-update statement of a key.
- **Token statistics** (`TokenStats`): the 15:00 Beijing period boundary, the 20-minute slots (72 per day), the 17-slot window that wraps around midnight, HHMM labels and the next reset.
- **Settings** (`Settings`): validation and defaulting of every setting over the key-to-value settings table.
- **Catalogue** (`Catalog`): provider creation, partial update and the resync of model display names (`prefix/original` or `original`). It also covers cascade deletion, the fetch-and-reconcile of a provider's model list with its summary message, duplicate checks, custom-name flags and batch toggles.
- **Upstream client** (`Upstream`): chat and models URLs, headers, query parameters, and the get-or-create client pool with its invalidation.
- **Token counting** (`Tokenizer`): the model-to-encoding lookup, the encoder cache, and the structure of message token counting over an abstract encoder length.
- **Request log** (`Logger`): the 100-line buffer trimmed from the front, and the request counters.
- **Authentication** (`Auth`, `Accounts`): the JWT and API-key middleware chains, the admin gate, token expiry, the login status chain, and the password, username and API-key updates.
- **Routing and configuration** (`Router`, `Config`): CORS, the route table with its guards, the SPA fallback classification, and environment defaults.
- **Console** (`ApiClient`, `SessionStore`, `ThemeStore`, `Navigation`): the HTTP interceptors, the session store, the theme store and the route guard.

Modelling choices:

- The SQLite tables (`settings`, `providers`, `models`, `provider_api_keys`, `users`) are maps from row id to row, or sequences in table order.
- Package-level mutable state (`requestTimes`, `customRequestTimes`, `currentConcurrency`, `keyIndexMap`, `clientPool`, `encoderCache`, the log buffer) lives in fields of classes whose methods change them.
- The clock is an integer number of nanoseconds passed in.
- Outcomes of code outside the model are parameters: upstream HTTP results, the JWT library's verdict, bcrypt comparisons, the encoder's token length, JSON decoding and random key generation.
- In the console, the browser state (localStorage, the location, the toasts, the `dark` class and the colour-scheme preference) is one `Browser` object shared by the stores. Each asynchronous call is a sequential method whose outcome is a parameter and passes through the client's interceptors.

Code behaviours worth noting, all of which the model keeps:

- A failed login answered with 401 passes through the response interceptor. The stored token is removed and the location is set to /login, while the store's in-memory token and user stay as they were.
- A failure of `loadTheme` or `setTheme` is reported by the interceptor as a toast. It is not silent.
- `router.go` registers no routes for the system-prompt, custom-error, rate-limit, concurrency or custom-rate-limit-rule settings, even though `settings.go` has their handlers. `Router` states the table as registered.
- The WebSocket route `/v1/chat/completions/ws` carries no `APIKeyAuth` middleware.
- Opening /login with a session redirects to `/`, and the layout's empty child then redirects on to `/dashboard`.
- vue-router matches paths ignoring case and one trailing `/`, but the guard compares the raw `to.path` with `'/login'`. Another spelling of /login, such as `/Login`, is therefore shown even with a session (`Navigation.LoginVariantShownWithSession`).
- Concurrency enforcement treats an enabled non-positive limit as unlimited, while the settings page reports 10 for it (`Gateway.ConcurrencyDisplayDiffers`). An unparsable retry count is used as 3 by the gateway but shown as 0 (`Gateway.MaxRetriesVsDisplay`).

## Model

| member | source | states |
|---|---|---|
| Sql.BuildUpdateQuery | backend/internal/handlers/api_keys.go:232-239 | the statement is the head, the clauses joined by ", " and " WHERE id = ?", as the concatenation loop builds it |
| Wrappers.Get | backend/internal/handlers/settings.go:17-20 | a settings read (and, in the console, `localStorage.getItem`) yields the stored value exactly when the key is present, and nothing (null) otherwise |
| Settings.BoolRoundTrip | backend/internal/handlers/settings.go:221-228 | a flag written as "true"/"false" is read back (value == "true") as the same boolean |
| Settings.StreamMode | backend/internal/handlers/settings.go:14-22 | the stored stream mode, or "auto" when the row is missing |
| Settings.RetrySettings | backend/internal/handlers/settings.go:54-63 | 3 when the row is missing, the parsed number when it parses, 0 when it does not |
| Settings.ThemeSetting | backend/internal/handlers/settings.go:95-103 | the stored theme, or "light" when the row is missing |
| Settings.SystemPrompt | backend/internal/handlers/settings.go:136-148 | enabled exactly when the flag row reads "true"; the prompt is the stored text or "" |
| Settings.CustomErrorResponse | backend/internal/handlers/settings.go:189-208 | the flag as stored, and the rules decoded from the stored JSON or from "[]" when missing |
| Settings.PositiveOr | backend/internal/handlers/settings.go:261-266 | a positive count is kept; zero, negative or unparsable gives the fallback |
| Settings.RateLimitSettings | backend/internal/handlers/settings.go:250-273 | both numbers reported are positive, with 60 for a missing, unparsable or non-positive value |
| Settings.ConcurrencySettings | backend/internal/handlers/settings.go:299-316 | the limit reported is positive, 10 when missing or non-positive; the live count is passed through |
| Settings.CustomRateLimitRules | backend/internal/handlers/settings.go:341-364 | an empty list when the row is missing or empty; otherwise the decoded rules, each with provider_name added exactly when provider_id > 0 |
| Settings.RateLimitRoundTrip | backend/internal/handlers/settings.go:276-296 | what SetRateLimitSettings stores, GetRateLimitSettings reads back, with 60 for a non-positive value |
| Settings.ConcurrencyRoundTrip | backend/internal/handlers/settings.go:319-338 | what SetConcurrencySettings stores, GetConcurrencySettings reads back, with 10 for a non-positive limit |
| Settings.RetryRoundTrip | backend/internal/handlers/settings.go:74-83 | a retry count in 0..10 is read back unchanged |
| Settings.SettingsTable.SetStreamMode | backend/internal/handlers/settings.go:24-51 | 200 exactly for a bound request naming auto, force_stream or force_non_stream, which is then stored; otherwise 400 and nothing changes |
| Settings.SettingsTable.SetRetrySettings | backend/internal/handlers/settings.go:66-92 | 200 exactly for a bound count in 0..10, stored in decimal; otherwise 400 and nothing changes |
| Settings.SettingsTable.SetThemeSettings | backend/internal/handlers/settings.go:106-133 | 200 exactly for light, dark or auto, which is then stored; otherwise 400 and nothing changes |
| Settings.SettingsTable.SetSystemPrompt | backend/internal/handlers/settings.go:151-186 | any bound request stores the prompt and the flag, without validation; otherwise 400 |
| Settings.SettingsTable.SetCustomErrorResponse | backend/internal/handlers/settings.go:211-247 | any bound request stores the flag and the encoded rules; otherwise 400 |
| Settings.SettingsTable.SetRateLimitSettings | backend/internal/handlers/settings.go:276-296 | all three values are stored with no range check; otherwise 400 |
| Settings.SettingsTable.SetConcurrencySettings | backend/internal/handlers/settings.go:319-338 | the flag and the limit are stored with no range check; otherwise 400 |
| Settings.SettingsTable.SetCustomRateLimitRules | backend/internal/handlers/settings.go:367-391 | the encoded rule list replaces the stored one; otherwise 400 |
| Settings.SettingsTable.constructor | backend/internal/handlers/settings.go:14-22 | the settings table holds the given key/value rows |
| Gateway.Prune | backend/internal/handlers/openai.go:110-117 | the cleaned log is no longer than before and holds only timestamps strictly after the window start |
| Gateway.PruneMembers | backend/internal/handlers/openai.go:110-117 | a timestamp survives the cleaning exactly when it was logged and is strictly after the window start (`t.After`) |
| Gateway.PruneInside | backend/internal/handlers/openai.go:110-117 | a log already inside the window is kept as it is, in order |
| Gateway.PruneTimes | backend/internal/handlers/openai.go:111-116 | the cleaning loop computes exactly the pruned log |
| Gateway.Admit | backend/internal/handlers/openai.go:107-126 | an admitted request leaves at most maxRequests entries; a refusal happens only with at least maxRequests left in the window |
| Gateway.AdmitRecordsOnlyAdmitted | backend/internal/handlers/openai.go:119-126 | the request is admitted iff the pruned count is below maxRequests; only then is `now` appended, otherwise the log is the pruned one |
| Gateway.AdmitKeepsWindow | backend/internal/handlers/openai.go:107-126 | after a check no stored timestamp is at or before the window start |
| Gateway.AdmitPreservesBound | backend/internal/handlers/openai.go:119-126 | a log of at most maxRequests entries stays within that bound |
| Gateway.AdmitWhenRoom | backend/internal/handlers/openai.go:119-126 | for a log inside the window, admission happens exactly when it holds fewer than maxRequests entries |
| Gateway.RateLimitConfig | backend/internal/handlers/openai.go:72-95 | unlimited exactly when the flag is not "true"; when limited, both numbers are positive (60 for a non-positive or unparsable value) |
| Gateway.RateLimitConfigAgrees | backend/internal/handlers/openai.go:72-95 | the enforced limit equals what GetRateLimitSettings reports whenever limiting is on |
| Gateway.ConcurrencyLimit | backend/internal/handlers/openai.go:215-231 | 0 (no limit) when disabled, and when enabled with the limit missing or parsing to a non-positive number; otherwise the stored limit |
| Gateway.ConcurrencyDisplayDiffers | backend/internal/handlers/openai.go:227-229 | an enabled non-positive limit is enforced as unlimited while the settings page reports 10 |
| Gateway.MaxRetries | backend/internal/handlers/openai.go:261-273 | 3 for a missing or unparsable value, otherwise the parsed value |
| Gateway.MaxRetriesVsDisplay | backend/internal/handlers/openai.go:261-273 | an unparsable stored value is used as 3 by the gateway but shown as 0 by GetRetrySettings; otherwise both agree |
| Gateway.RuleKey | backend/internal/handlers/openai.go:162-187 | a rule yields a bucket key only if it names a provider or a model, and only when every criterion it names matches the request |
| Gateway.RuleKeyMatches | backend/internal/handlers/openai.go:165-183 | a rule matches exactly when it names a provider or a model and every criterion it names matches the request (both directions) |
| Gateway.RuleKeysSeparate | backend/internal/handlers/openai.go:169-181 | a provider bucket and a model-only bucket never share a key |
| Gateway.RuleStep | backend/internal/handlers/openai.go:156-208 | a refusal names the rule and happens only for an enabled matching rule; a rule that does not apply changes no bucket |
| Gateway.CustomRefusalNamesRule | backend/internal/handlers/openai.go:156-211 | a refusal names an enabled rule of the list that applies to the request |
| Gateway.CustomNoRuleApplies | backend/internal/handlers/openai.go:156-211 | with no applying enabled rule the request passes and every bucket is unchanged |
| Gateway.CustomOtherBucketsUnchanged | backend/internal/handlers/openai.go:190-208 | buckets whose key no applying rule uses keep their contents |
| Gateway.CustomSingleRule | backend/internal/handlers/openai.go:190-208 | for one applying rule: refused iff its pruned bucket holds maxRequests or more; otherwise `now` is appended to that bucket |
| Gateway.CustomRules | backend/internal/handlers/openai.go:130-141 | no rules when the row is missing or empty, else the decoded list |
| Gateway.Gateway.CheckRateLimit | backend/internal/handlers/openai.go:98-127 | off: passes and records nothing; on: the result and the new log are those of Admit; the other limiter state is untouched |
| Gateway.Gateway.CheckCustomRateLimit | backend/internal/handlers/openai.go:145-212 | the verdict and the new buckets are those of the rule-by-rule check; nothing else changes |
| Gateway.Gateway.ApplyRule | backend/internal/handlers/openai.go:156-208 | one loop iteration computes exactly RuleStep over the buckets |
| Gateway.Gateway.AcquireConcurrency | backend/internal/handlers/openai.go:234-248 | with limit 0 always succeeds; otherwise succeeds iff in-flight < limit; the counter grows by one exactly on success; verdict and new counter are the step `Acquire` on the old counter, so under a positive limit a counter within the limit stays within it |
| Gateway.Gateway.ReleaseConcurrency | backend/internal/handlers/openai.go:251-253 | the counter drops by exactly one and nothing else changes |
| Gateway.Acquire | backend/internal/handlers/openai.go:234-248 | the slot is granted exactly when there is no limit or fewer than the limit are in flight, and the new count is the old one plus one exactly when it is granted |
| Gateway.AcquireBounded | backend/internal/handlers/openai.go:241-247 | under a positive limit a count within the limit stays within it, and the slot is granted iff the count is below the limit |
| Gateway.CustomErrorRules | backend/internal/handlers/openai.go:282-297 | rules are present exactly when the flag reads "true" and the rules row exists, and are then the decoded row |
| Gateway.CheckCustomError | backend/internal/handlers/openai.go:300-313 | a substitute comes only with the feature enabled and rules stored, and is the response of a rule that fires; with the feature on and no rule firing the original error stands |
| Gateway.FirstFiringIsFirst | backend/internal/handlers/openai.go:306-312 | nothing fires iff no rule's non-empty keyword occurs in the message, ignoring ASCII case; otherwise the response is that of the first rule that fires |
| Gateway.CustomErrorOff | backend/internal/handlers/openai.go:300-304 | with the feature off or no rules the original error stands |
| Gateway.FirstFiringIgnoresCase | backend/internal/handlers/openai.go:306-308 | matching gives the same answer for a message and its lower-cased form |
| Gateway.UpstreamModelId | backend/internal/handlers/openai.go:664-671 | other provider types and empty ids pass unchanged; a vertex_express id always ends up starting with "google/" |
| Gateway.UpstreamModelIdOnce | backend/internal/handlers/openai.go:666-670 | the prefix is added at most once: rewriting twice equals rewriting once, and an unprefixed id gets exactly "google/" in front |
| Gateway.AfterFirstSlash | backend/internal/handlers/openai.go:1024-1048 | a fallback name exists exactly when the name contains '/' |
| Gateway.AfterFirstSlashSplits | backend/internal/handlers/openai.go:1025-1027 | the fallback is the name minus its first segment and first '/' only; later slashes stay |
| Gateway.FirstRow | backend/internal/handlers/openai.go:984-994 | a found row is an active model of an active provider with the wanted name; none found means no such row exists |
| Gateway.FindModel | backend/internal/handlers/openai.go:980-1052 | the model found is a usable row answering to the name by display name, original id, or original id after the first '/' |
| Gateway.FindModelResolves | backend/internal/handlers/openai.go:980-1052 | a usable display-name match always wins, and an original-id match wins over the prefix-stripped lookup; a miss means none of the three lookups has a usable row |
| Gateway.Injected | backend/internal/handlers/openai.go:416-448 | when enabled with a non-empty prompt and a `messages` list, exactly one system message is put first and the original messages follow in order; otherwise the payload is unchanged |
| Gateway.EffectiveStream | backend/internal/handlers/openai.go:573-583 | force_stream forces streaming, force_non_stream forbids it, any other mode keeps the request's flag |
| Gateway.StreamModeAsReported | backend/internal/handlers/openai.go:573-583 | reading the mode with a missing row as "" decides the same as the "auto" the settings page reports |
| Gateway.StreamPayloadShape | backend/internal/handlers/openai.go:577-592 | a forced mode writes `stream`; a streaming request gains `stream_options.include_usage` only when it had no `stream_options`; other fields stay |
| Gateway.ChatRequest.constructor | backend/internal/handlers/openai.go:505-520 | the payload is the body and the stream flag the body's boolean `stream` (false otherwise) |
| Gateway.ChatRequest.ApplyStreamMode | backend/internal/handlers/openai.go:573-592 | the payload and flag become those of StreamPayload and EffectiveStream for the stored mode |
| Gateway.ChatRequest.InjectSystemPrompt | backend/internal/handlers/openai.go:416-448 | the payload becomes the injected one and the stream flag is untouched |
| Gateway.ParseFrame | backend/internal/handlers/openai.go:365-367 | a `data: ...\n\n` event with no line break in its data is read back as that data, in front of whatever follows |
| Gateway.FakeStream | backend/internal/handlers/openai.go:341-413 | the substitute stream is exactly four events, role chunk, content chunk, finish chunk, then [DONE], when the chunks hold no raw line break |
| Gateway.FramesRoundTrip | backend/internal/handlers/openai.go:365-410 | any sequence of events without line breaks parses back to itself |
| Gateway.Gateway.constructor | backend/internal/handlers/openai.go:24-57 | at start-up nothing is in flight and both limiters' request logs are empty |
| ApiKeys.ModSucc | backend/internal/handlers/api_keys.go:72 | `(i+1) % n` for a position inside the list is the position after it, wrapped to 0 at the end |
| ApiKeys.NextKey | backend/internal/handlers/api_keys.go:22-85 | an error ("no active api keys") exactly when the provider has no active key; otherwise one of its keys; with one key the index map is untouched; with two or more the stored position stays inside [0, n) |
| ApiKeys.NextKeyLeavesOthers | backend/internal/handlers/api_keys.go:66-73 | a call for one provider leaves every other provider's stored position as it was |
| ApiKeys.Picks | backend/internal/handlers/api_keys.go:22-85 | `count` consecutive calls return `count` keys |
| ApiKeys.PicksRotate | backend/internal/handlers/api_keys.go:66-73 | with two or more keys the j-th of consecutive calls returns row `s + j` wrapped around, `s` being the stored position reset to 0 when it is past the end |
| ApiKeys.RotationPointwise | backend/internal/handlers/api_keys.go:66-73 | reading a list cyclically from `s` for one full round gives the rotation `keys[s..] + keys[..s]` |
| ApiKeys.RoundIsRotation | backend/internal/handlers/api_keys.go:49-73 | one round of n calls returns the active keys rotated to start at the current slot |
| ApiKeys.RoundPermutes | backend/internal/handlers/api_keys.go:26-73 | one round returns every active key as often as it is listed (a permutation of the list) |
| ApiKeys.RotatedRound | backend/internal/handlers/api_keys.go:66-73 | with two or more keys a round is the rotation starting at the stored slot |
| ApiKeys.SingleKeyRound | backend/internal/handlers/api_keys.go:53-63 | with exactly one active key the call returns that key |
| ApiKeys.FirstRoundInOrder | backend/internal/handlers/api_keys.go:26-73 | a provider with no stored position is served its keys in id order |
| ApiKeys.KeyRotator.GetNextAPIKey | backend/internal/handlers/api_keys.go:22-85 | the result and the new index map are those of NextKey |
| ApiKeys.IncreasingOnce | backend/internal/handlers/api_keys.go:26-30 | in a list ordered by strictly increasing id every row occurs once |
| ApiKeys.RoundCoversActiveKeys | backend/internal/handlers/api_keys.go:26-73 | over the table's active rows of a provider, one round hands out each of its active keys exactly once |
| ApiKeys.KeysOf | backend/internal/handlers/api_keys.go:113-118 | exactly the keys whose provider_id is the provider, unchanged |
| ApiKeys.CountFor | backend/internal/handlers/api_keys.go:174-175 | the number of keys the provider has |
| ApiKeys.KeyName | backend/internal/handlers/api_keys.go:172-177 | a requested name is kept; an empty one becomes the numbered default |
| ApiKeys.DefaultKeyNameRoundTrip | backend/internal/handlers/api_keys.go:176 | the default name is "密钥 " followed by the decimal of count+1, read back exactly |
| ApiKeys.DefaultKeyNamesDiffer | backend/internal/handlers/api_keys.go:176 | different key counts give different default names |
| ApiKeys.KeyAssignments | backend/internal/handlers/api_keys.go:215-229 | no clause exactly when neither field is given; at most two clauses, none touching a timestamp |
| ApiKeys.ApplyKeyUpdate | backend/internal/handlers/api_keys.go:218-229 | the given fields are replaced and every other column kept |
| ApiKeys.KeyStatementImplementsUpdate | backend/internal/handlers/api_keys.go:215-242 | executing the built clauses (is_active as 0/1, read back as == 1) writes exactly the requested update |
| ApiKeys.KeyUpdateStatement | backend/internal/handlers/api_keys.go:231-241 | with clauses, the query joins them with ", " between "UPDATE provider_api_keys SET " and " WHERE id = ?", arguments in order with the id last; with none, no statement |
| ApiKeys.KeyStore.ListAPIKeys | backend/internal/handlers/api_keys.go:88-145 | 400 for a non-numeric id, 404 for an unknown provider, else 200 with that provider's keys |
| ApiKeys.KeyStore.AddAPIKey | backend/internal/handlers/api_keys.go:148-197 | 400 for a bad id or body, 404 for an unknown provider, else a new active key with the next id under the requested or default name, and nothing else changes |
| ApiKeys.KeyStore.UpdateAPIKey | backend/internal/handlers/api_keys.go:200-250 | 400 for a bad id or body; otherwise 200 even with no field, and the key (if it exists) gets exactly the requested update |
| ApiKeys.KeyStore.DeleteAPIKey | backend/internal/handlers/api_keys.go:253-268 | 400 for a bad id; otherwise 200 and the row is gone, a missing id included |
| ApiKeys.KeyRotator.constructor | backend/internal/handlers/api_keys.go:16-19 | the rotation starts with no provider position recorded |
| ApiKeys.KeyStore.constructor | backend/internal/handlers/api_keys.go:148-197 | the key table starts empty, with the first id 1 |
| TokenStats.Today3PM | backend/internal/handlers/token_stats.go:35 | 15:00 Beijing of the day of the instant: a 15:00 instant no later than one day after the day's start |
| TokenStats.PeriodStart | backend/internal/handlers/token_stats.go:32-43 | the period start is a 15:00 instant at or before now and less than a day before it |
| TokenStats.PeriodStartUnique | backend/internal/handlers/token_stats.go:32-43 | any 15:00 instant within the day ending at now is the period start, so the period is well defined |
| TokenStats.ResetTimesApart | backend/internal/handlers/token_stats.go:38-42 | two 15:00 instants less than a day apart coincide |
| TokenStats.NextReset | backend/internal/handlers/token_stats.go:173-176 | the next reset is a 15:00 instant at or after now and less than a day ahead (now itself at exactly 15:00, since only After moves it) |
| TokenStats.NextResetEndsPeriod | backend/internal/handlers/token_stats.go:173-176 | the next reset is the end of the current period, except at exactly 15:00 where it is the period start |
| TokenStats.HourOf | backend/internal/handlers/token_stats.go:81 | the Beijing hour is in 0..23 |
| TokenStats.MinuteOf | backend/internal/handlers/token_stats.go:82 | the Beijing minute is in 0..59 |
| TokenStats.CurrentSlot | backend/internal/handlers/token_stats.go:84 | the slot is in 0..71 and decodes back to the hour and the minute's twenty-minute third |
| TokenStats.SlotAt | backend/internal/handlers/token_stats.go:89-90 | the slot of an instant, as the grouping query computes it, is in 0..71 |
| TokenStats.SlotAtCountsSpans | backend/internal/handlers/token_stats.go:89-90 | the slot is the number of whole twenty-minute spans since midnight |
| TokenStats.SlotAtMonotone | backend/internal/handlers/token_stats.go:84 | later instants of one day never fall in an earlier slot |
| TokenStats.WrapSlot | backend/internal/handlers/token_stats.go:121-127 | the ±72 correction yields a slot in 0..71 equal to the slot modulo 72 |
| TokenStats.HHMM | backend/internal/handlers/token_stats.go:131-136 | the label's hour is in 0..23 and its minutes are 00, 20 or 40 |
| TokenStats.HHMMRoundTrip | backend/internal/handlers/token_stats.go:131-136 | the HHMM label decodes back to its slot, so no two slots share a label |
| TokenStats.Since | backend/internal/handlers/token_stats.go:72 | the rows of the period: every one created at or after the period start, no more rows than the table |
| TokenStats.Before | backend/internal/handlers/token_stats.go:197 | the rows before the period: every one created before the period start |
| TokenStats.SinceBeforePartition | backend/internal/handlers/token_stats.go:191-217 | the two DELETE conditions split the table: every row lands on exactly one side (as multisets) |
| TokenStats.SinceMembers | backend/internal/handlers/token_stats.go:72 | a row is counted in the period exactly when it is in the table and created at or after the start |
| TokenStats.BeforeMembers | backend/internal/handlers/token_stats.go:197 | a row is removed by the cleanup exactly when it is in the table and created before the start |
| TokenStats.ResetClearsPeriod | backend/internal/handlers/token_stats.go:210 | after the manual reset nothing of the current period remains and the totals read zero |
| TokenStats.SinceAllBefore | backend/internal/handlers/token_stats.go:210 | a table whose rows all precede the start has no rows in the period |
| TokenStats.CleanKeepsPeriod | backend/internal/handlers/token_stats.go:197 | cleaning old rows leaves the period's rows and totals unchanged |
| TokenStats.PeriodTotals | backend/internal/handlers/token_stats.go:66-73 | the three COALESCE sums are zero when every row precedes the period |
| TokenStats.RecordAddsToPeriod | backend/internal/handlers/token_stats.go:46-53 | a row inserted during the period adds exactly its three token counts to the period totals |
| TokenStats.SlotUsage | backend/internal/handlers/token_stats.go:87-97 | a slot's request count is non-negative, and a slot without requests has no tokens |
| TokenStats.SlotUsageCounts | backend/internal/handlers/token_stats.go:87-97 | every row of the period is counted in its own slot |
| TokenStats.SlotRowsFrom | backend/internal/handlers/token_stats.go:87-97 | the grouped rows carry an hour in 0..23 and a minute slot in 0..2, in ascending slot order |
| TokenStats.BuildSlotMap | backend/internal/handlers/token_stats.go:110-116 | the cursor loop builds the slot map in which later rows for a key win |
| TokenStats.SlotMapOfRows | backend/internal/handlers/token_stats.go:105-116 | the slot map holds exactly the period's usage of every slot with rows, and nothing for slots without |
| TokenStats.SlotMapPrepend | backend/internal/handlers/token_stats.go:114-115 | a row's slot is overridden only by a later row for the same slot |
| TokenStats.SlotMapAvoids | backend/internal/handlers/token_stats.go:114-115 | rows for other slots never put a key in the map |
| TokenStats.Entry | backend/internal/handlers/token_stats.go:129-139 | an entry is labelled by its slot's HHMM and carries the map's tokens and requests, or zeros for a missing slot |
| TokenStats.WindowSlot | backend/internal/handlers/token_stats.go:120-127 | position j of the window shows slot (current - 8 + j) mod 72 |
| TokenStats.Window | backend/internal/handlers/token_stats.go:118-140 | the window has 17 entries and the middle one is the current slot |
| TokenStats.WindowSlotsDistinct | backend/internal/handlers/token_stats.go:120-127 | the 17 entries show 17 different slots and labels |
| TokenStats.HourlyWindow | backend/internal/handlers/token_stats.go:119-140 | the loop from current-8 to current+8 appends exactly the window |
| TokenStats.WindowReportsUsage | backend/internal/handlers/token_stats.go:86-140 | each window entry reports the period's usage of the slot it is labelled with |
| TokenStats.LaterSlotsAreYesterday | backend/internal/handlers/token_stats.go:32-43 | before 15:00, a period row in a slot after the current one was written on the previous day: the window mixes days |
| TokenStats.UsageTable.constructor | backend/internal/handlers/token_stats.go:46-53 | the table starts empty |
| TokenStats.UsageTable.RecordTokenUsage | backend/internal/handlers/token_stats.go:46-53 | one row with the given model, provider and counts is appended, stamped with the database clock |
| TokenStats.UsageTable.GetTodayTokenStats | backend/internal/handlers/token_stats.go:56-188 | the reply holds the period totals, the 17-slot window over the grouped rows and the next reset |
| TokenStats.UsageTable.CleanOldTokenRecords | backend/internal/handlers/token_stats.go:191-199 | exactly the rows before the period start are deleted |
| TokenStats.UsageTable.ResetTodayTokenStats | backend/internal/handlers/token_stats.go:202-217 | exactly the rows of the current period are deleted |
| Upstream.VertexLocationOrGlobal | backend/internal/proxy/client.go:74-77 | the configured Vertex location, or "global" when it is empty |
| Upstream.ChatUrl | backend/internal/proxy/client.go:72-84 | Vertex providers get the aiplatform URL with their project and location; others the base URL without a trailing slash plus /chat/completions |
| Upstream.ModelsUrl | backend/internal/proxy/client.go:86-91 | the models URL is empty exactly for Vertex providers, otherwise the trimmed base URL plus /models |
| Upstream.TrailingSlashInsensitive | backend/internal/proxy/client.go:83-90 | one trailing slash on the base URL changes neither URL |
| Upstream.Headers | backend/internal/proxy/client.go:93-107 | Content-Type always, a bearer Authorization unless Vertex, extra headers override and nothing else is added |
| Upstream.QueryParams | backend/internal/proxy/client.go:109-115 | the only query parameter is key, present with the API key exactly for Vertex providers |
| Upstream.BuildRequest | backend/internal/proxy/client.go:170-182 | verb, URL and body as given; the API key travels as the `key` query parameter for Vertex and as a bearer header otherwise, never both unless configured |
| Upstream.StatusError | backend/internal/proxy/client.go:145-148 | the non-200 error reads "status <code>: <body>" |
| Upstream.StatusErrorDistinguishesCodes | backend/internal/proxy/client.go:145-148 | different status codes never give the same error text |
| Upstream.Answer | backend/internal/proxy/client.go:139-157 | a transport error is returned as is, a non-200 status becomes the status error, a 200 yields the decoded body |
| Upstream.ListingData | backend/internal/proxy/client.go:150-157 | decoding into the data list: null, no key spelled "data" in any case, or a null value give no entries; otherwise the value read (exact "data" first, else a case variant) must be an array of objects or nulls and is returned whole |
| Upstream.DataField | backend/internal/proxy/client.go:150-152 | the value for the field tagged `json:"data"`: the exact key when present; absent exactly when no key equals "data" up to ASCII case; otherwise the value of such a key |
| Upstream.DataSpellingsComplete | backend/internal/proxy/client.go:150-152 | a key fills the field exactly when it is one of the sixteen case spellings of "data" |
| Upstream.SoleDataKeyRead | backend/internal/proxy/client.go:150-152 | a single key spelled "data" in another case is the one read |
| Upstream.CapitalisedDataListed | backend/internal/proxy/client.go:150-157 | a listing under "Data" is returned like one under "data" |
| Upstream.ChatObject | backend/internal/proxy/client.go:194-199 | a chat answer decodes exactly when it is an object or null, and is returned unchanged |
| Upstream.Listing | backend/internal/proxy/client.go:118-158 | Vertex providers list nothing, transport and status errors are passed on |
| Upstream.HttpClient.constructor | backend/internal/proxy/client.go:45-60 | a 300 s timeout, 100/20 idle connections, 90 s idle timeout, and the proxy only when the URL is non-empty and parses |
| Upstream.ClientPool.constructor | backend/internal/proxy/client.go:15 | the pool starts empty |
| Upstream.ClientPool.GetClient | backend/internal/proxy/client.go:29-64 | the cached client for the proxy URL when there is one, else a fresh client that is added to the pool |
| Upstream.ClientPool.InvalidateClient | backend/internal/proxy/client.go:66-70 | exactly that proxy URL's entry is removed |
| Upstream.ClientPool.ListModels | backend/internal/proxy/client.go:118-158 | Vertex: no request and an unchanged pool; otherwise a GET of the models URL with the provider's headers, whose answer is the listing |
| Upstream.ClientPool.ChatCompletion | backend/internal/proxy/client.go:161-200 | a POST of the body to the chat URL with the provider's headers, answered as a chat object or the error |
| Catalog.DisplayName | backend/internal/handlers/providers.go:290-293 | the bare original id without a prefix; under a prefix, the prefix, a '/' and the id |
| Catalog.DisplayNameShape | backend/internal/handlers/providers.go:290-293 | a derived name ends with the original id, is the id itself without a prefix and starts with "prefix/" under one |
| Catalog.OriginalFromDisplay | backend/internal/handlers/providers.go:290-293 | the recovered original id is a suffix of the display name, and the name itself without a prefix |
| Catalog.DisplayNameRoundTrip | backend/internal/handlers/providers.go:290-293 | the original id is recovered from its derived display name |
| Catalog.DisplayNameInjective | backend/internal/handlers/providers.go:195-198 | under one prefix different original ids never share a derived name |
| Catalog.NewProvider | backend/internal/handlers/providers.go:59-72 | the inserted provider carries the request's fields, with "standard" for an empty type, "global" for an empty location, and is active |
| Catalog.ApplyProviderUpdate | backend/internal/handlers/providers.go:119-165 | every present field is written (api_key only when non-empty), absent ones kept, updated_at set exactly when some field was given |
| Catalog.LeadingAssignments | backend/internal/handlers/providers.go:119-138 | the first five checks add a text clause each for name, base_url, a non-empty api_key, model_prefix and provider_type |
| Catalog.TrailingAssignments | backend/internal/handlers/providers.go:139-162 | the last five add clauses for vertex_project, vertex_location, extra_headers, proxy_url and is_active |
| Catalog.ProviderFieldAssignments | backend/internal/handlers/providers.go:116-162 | no clause is added exactly when no field is given |
| Catalog.ProviderAssignments | backend/internal/handlers/providers.go:164-174 | with any field, the clause list ends with updated_at = CURRENT_TIMESTAMP, which takes no argument |
| Catalog.ArgsAppendStamp | backend/internal/handlers/providers.go:164-174 | the timestamp clause adds no argument |
| Catalog.LeadingColumns | backend/internal/handlers/providers.go:119-138 | the first five clauses write exactly the first five columns, each only when given |
| Catalog.TrailingColumns | backend/internal/handlers/providers.go:139-162 | the last five clauses write exactly the last five data columns, each only when given |
| Catalog.ApplyOptional | backend/internal/handlers/providers.go:119-162 | applying zero or one clause changes the row by at most that clause |
| Catalog.ProviderStatementImplementsUpdate | backend/internal/handlers/providers.go:116-181 | the UPDATE statement the handler builds performs exactly the promised partial update |
| Catalog.ProviderUpdateStatement | backend/internal/handlers/providers.go:164-174 | the statement is "UPDATE providers SET " + the clauses joined by ", " + " WHERE id = ?", arguments then the id; none without fields |
| Catalog.ProviderConfigOf | backend/internal/handlers/providers.go:251-260 | the client configuration copies base URL, key, type and proxy, with no extra headers for an empty column |
| Catalog.Renamed | backend/internal/handlers/providers.go:195-199 | a renamed row gets the derived display name and nothing else changes |
| Catalog.ResyncProvider | backend/internal/handlers/providers.go:184-205 | every model of the provider, custom names included, is renamed under the new prefix; other rows are untouched |
| Catalog.RenameRows | backend/internal/handlers/providers.go:188-201 | the row-by-row rename loop yields the prefix resync |
| Catalog.WithoutProvider | backend/internal/handlers/providers.go:226 | exactly the provider's models are deleted |
| Catalog.ResyncAll | backend/internal/handlers/models.go:17-26 | rows with a custom name are kept, all others get the name derived from their provider's prefix |
| Catalog.ResyncAllIdempotent | backend/internal/handlers/models.go:17-26 | running the resync twice gives the same table as once |
| Catalog.ApplyModelUpdate | backend/internal/handlers/models.go:78-101 | a non-empty display name is stored and flagged custom, an empty one ignored; is_active is set independently |
| Catalog.CustomNameSticky | backend/internal/handlers/models.go:17-26 | a name set by UpdateModel survives every later ListAllModels resync |
| Catalog.ResetRow | backend/internal/handlers/models.go:129-136 | the reset row has the derived name, the custom flag cleared and nothing else changed |
| Catalog.ResetAgreesWithResync | backend/internal/handlers/models.go:129-136 | after a reset the ListAllModels resync leaves the row as it is |
| Catalog.ToggleAll | backend/internal/handlers/models.go:191-192 | exactly the listed rows that exist get the new is_active |
| Catalog.ListView | backend/internal/handlers/models.go:28-51 | the join lists exactly the rows whose provider exists, each with its provider's name |
| Catalog.FetchedId | backend/internal/handlers/providers.go:284-287 | an entry contributes its id exactly when it is an object with a non-empty string id |
| Catalog.FetchedIds | backend/internal/handlers/providers.go:283-288 | the usable ids are non-empty and no more than the entries |
| Catalog.FetchedIdsExact | backend/internal/handlers/providers.go:283-288 | an id is fetched exactly when some listed entry carries it |
| Catalog.FreshIds | backend/internal/handlers/providers.go:295-306 | the ids to insert are exactly the fetched ids without an existing row |
| Catalog.Inserted | backend/internal/handlers/providers.go:301-305 | the inserted rows take consecutive ids from the counter, one per new id |
| Catalog.InsertedAt | backend/internal/handlers/providers.go:301-305 | the j-th new id is inserted as an inactive row with id start + j |
| Catalog.ExistingModels | backend/internal/handlers/providers.go:270-278 | the existingModels loop maps each original id of the provider to one of its rows |
| Catalog.StaleIdsExact | backend/internal/handlers/providers.go:310-315 | a row is deleted exactly when it is claimed for an original id that was not fetched |
| Catalog.ReconciledOld | backend/internal/handlers/providers.go:283-315 | rows that existed stay unless stale, with refreshed names where fetched |
| Catalog.ReconciledNew | backend/internal/handlers/providers.go:299-306 | the rows that did not exist before are exactly the inserted ones |
| Catalog.ReconciledDomain | backend/internal/handlers/providers.go:299-306 | no other new row ids appear |
| Catalog.ReconcileKeepsOtherProviders | backend/internal/handlers/providers.go:310-315 | a fetch leaves other providers' rows untouched |
| Catalog.ReconcileCoversFetched | backend/internal/handlers/providers.go:283-307 | every fetched id ends up with a row of the provider carrying its derived name |
| Catalog.ReconcileDropsStale | backend/internal/handlers/providers.go:310-315 | a row claimed for an id that is no longer listed is removed |
| Catalog.ReconcileInsertsInactive | backend/internal/handlers/providers.go:301-305 | rows a fetch adds are inactive, uncustomised rows of the provider for fetched ids |
| Catalog.EmptyListingDeletesAll | backend/internal/handlers/providers.go:310-315 | an empty listing deletes every model of the provider when its original ids are unique |
| Catalog.ReconciledBelow | backend/internal/handlers/providers.go:301-305 | ids stay positive and below the advanced counter |
| Catalog.FetchFold | backend/internal/handlers/providers.go:283-307 | the listing loop keeps every existing row |
| Catalog.FetchFoldCounts | backend/internal/handlers/providers.go:280-307 | the loop's counters are the fetched ids as a set, one added per new id, one updated per existing id |
| Catalog.FetchFoldClosed | backend/internal/handlers/providers.go:283-307 | the listing loop ends with the refreshed table plus the inserted rows |
| Catalog.ApplyFetched | backend/internal/handlers/providers.go:280-307 | the loop over the listing, as the handler runs it, computes the fold |
| Catalog.DeleteStale | backend/internal/handlers/providers.go:309-315 | the deletion loop removes exactly the stale rows and counts each stale original id once |
| Catalog.ReconcileModels | backend/internal/handlers/providers.go:269-332 | a successful fetch reconciles the table, advances the counter past the new rows and reports the three counts |
| Catalog.FetchOutcomeCounts | backend/internal/handlers/providers.go:269-332 | a successful fetch inserts at most one row per listed id, so the id counter advances by at most that many |
| Catalog.SummaryParts | backend/internal/handlers/providers.go:317-329 | the parts are the non-zero counts in order added, updated, deleted, or only "没有变化" |
| Catalog.Summary | backend/internal/handlers/providers.go:332 | with nothing added, updated or deleted the message is "没有变化" |
| Catalog.AddModelKeepsUnique | backend/internal/handlers/providers.go:353-359 | AddModel's duplicate check keeps original ids unique per provider |
| Catalog.ToggleStatement | backend/internal/handlers/models.go:177-191 | the statement has one "?" per id inside IN (...), and the arguments are the flag followed by the ids |
| Catalog.Catalog.constructor | backend/internal/handlers/providers.go:67-79 | empty tables whose counters start at 1 |
| Catalog.Catalog.CreateProvider | backend/internal/handlers/providers.go:52-92 | 400 and nothing changes without a valid body; otherwise one new row with the defaults, under the next id |
| Catalog.Catalog.UpdateProvider | backend/internal/handlers/providers.go:94-212 | 400 for a bad body, 404 for an unknown id, else the partial update, the prefix resync when the prefix changes, and the pool entry dropped |
| Catalog.Catalog.DeleteProvider | backend/internal/handlers/providers.go:214-233 | 404 for an unknown id, else the provider and all its models deleted and its pool entry dropped |
| Catalog.Catalog.FetchModels | backend/internal/handlers/providers.go:235-333 | 404 for an unknown provider, 500 with the error when the listing fails, otherwise the reconciled table and the summary |
| Catalog.Catalog.AddModel | backend/internal/handlers/providers.go:335-377 | 400 for a bad body or a duplicate, 404 for an unknown provider, otherwise one active row with the derived name |
| Catalog.Catalog.ListAllModels | backend/internal/handlers/models.go:14-54 | the non-custom names are resynced first, then the joined rows are listed |
| Catalog.Catalog.UpdateModel | backend/internal/handlers/models.go:56-104 | 400 for a bad id or body, 404 for a missing row, else the name and flag updates |
| Catalog.Catalog.ResetModelDisplayName | backend/internal/handlers/models.go:107-140 | 400 / 404, else the derived name restored, the custom flag cleared and the name returned |
| Catalog.Catalog.DeleteModel | backend/internal/handlers/models.go:142-161 | 400 for a bad id, 404 for a missing row, else exactly that row deleted |
| Catalog.Catalog.BatchToggleModels | backend/internal/handlers/models.go:163-200 | 400 for a bad body or no ids, else the listed rows toggled and the count reported |
| Tokenizer.MessagesSum | backend/internal/tokenizer/tokenizer.go:99-140 | a list of message objects costs at least 3 tokens per message |
| Tokenizer.MessagesTokens | backend/internal/tokenizer/tokenizer.go:91-149 | at least the 3 tokens of the request itself, exactly 3 for no messages, and 3 more per message object |
| Tokenizer.EncodingAlwaysCl100k | backend/internal/tokenizer/tokenizer.go:16-49 | whatever order the encoding map is visited in, every model name gets cl100k_base |
| Tokenizer.TableNamesCl100k | backend/internal/tokenizer/tokenizer.go:16-35 | every entry of the model-to-encoding table names cl100k_base |
| Tokenizer.EncodingOfUniform | backend/internal/tokenizer/tokenizer.go:38-49 | when every visited entry names cl100k_base, so does the lookup, the default fallback included |
| Tokenizer.DefaultOfTable | backend/internal/tokenizer/tokenizer.go:48 | the "default" entry names cl100k_base |
| Tokenizer.DefaultAfter | backend/internal/tokenizer/tokenizer.go:48 | the "default" entry is found past entries with other keys |
| Tokenizer.ItemTokens | backend/internal/tokenizer/tokenizer.go:120-132 | a content item that is not an object adds nothing |
| Tokenizer.MessageTokens | backend/internal/tokenizer/tokenizer.go:104-142 | a non-object message adds nothing, an object message at least its 3 tokens of overhead |
| Tokenizer.CountMessagesTokens | backend/internal/tokenizer/tokenizer.go:91-149 | the nested accumulation loops compute the per-message sum plus 3 for the request |
| Tokenizer.EmptyConversation | backend/internal/tokenizer/tokenizer.go:145-146 | an empty conversation costs 3 tokens |
| Tokenizer.AppendMessage | backend/internal/tokenizer/tokenizer.go:104-143 | appending a message adds exactly that message's tokens |
| Tokenizer.NonObjectsIgnored | backend/internal/tokenizer/tokenizer.go:105 | messages that are not objects add nothing |
| Tokenizer.OverheadLowerBound | backend/internal/tokenizer/tokenizer.go:98-148 | whatever the encoder says, the total is at least 3 plus 3 per object message |
| Tokenizer.PlainMessage | backend/internal/tokenizer/tokenizer.go:104-117 | a role-and-content message costs 3 + its role + its content |
| Tokenizer.ImageItem | backend/internal/tokenizer/tokenizer.go:129-131 | an image_url item costs 85 whatever else it carries |
| Tokenizer.EncoderCache.constructor | backend/internal/tokenizer/tokenizer.go:11 | the cache starts empty |
| Tokenizer.EncoderCache.GetEncoder | backend/internal/tokenizer/tokenizer.go:52-75 | the answer and the new cache are exactly the get-or-load step `Lookup` on the old cache |
| Tokenizer.Lookup | backend/internal/tokenizer/tokenizer.go:52-75 | a cached encoder is answered without regard to the load; a miss answers the load's outcome; a successful lookup leaves the encoder in the cache, cached entries are never dropped or changed, and the only entry added is the looked-up name, on success |
| Tokenizer.SecondLookupCached | backend/internal/tokenizer/tokenizer.go:54-57 | a second lookup of the same name returns the first one's encoder and loads nothing |
| Tokenizer.NameAddsOne | backend/internal/tokenizer/tokenizer.go:137-141 | a string name adds its tokens plus one to its message, and nothing else changes |
| Tokenizer.TextItem | backend/internal/tokenizer/tokenizer.go:122-127 | a text item costs its text's tokens |
| Logger.LineShape | backend/internal/logger/logger.go:26 | a line is "[timestamp] [LEVEL] " followed by the message |
| Logger.LevelAtLine | backend/internal/logger/logger.go:24-48 | the level can be read back from the line it was written into |
| Logger.LineInjective | backend/internal/logger/logger.go:26 | with one timestamp, different levels or messages never give the same line |
| Logger.Push | backend/internal/logger/logger.go:29-32 | the buffer stays within 100 lines and ends with the new line; at the limit the oldest is dropped |
| Logger.Newest | backend/internal/logger/logger.go:9-32 | the newest lines of a history number min(history, 100) |
| Logger.PushKeepsNewest | backend/internal/logger/logger.go:29-32 | one push keeps the buffer equal to the newest 100 lines of the whole history |
| Logger.PushAll | backend/internal/logger/logger.go:29-32 | any sequence of pushes keeps the buffer within 100 lines |
| Logger.PushAllNewest | backend/internal/logger/logger.go:29-32 | after any sequence of pushes the buffer is the newest 100 lines of the history |
| Logger.PushAllFromEmpty | backend/internal/logger/logger.go:11-32 | from an empty buffer the buffer holds the newest 100 of the lines written |
| Logger.Log.constructor | backend/internal/logger/logger.go:11-15 | no lines, counters at zero, stamped with the start time |
| Logger.Log.Write | backend/internal/logger/logger.go:24-36 | the formatted line is pushed and the counters are untouched |
| Logger.Log.Info | backend/internal/logger/logger.go:38-40 | an INFO line is pushed |
| Logger.Log.Warn | backend/internal/logger/logger.go:42-44 | a WARN line is pushed |
| Logger.Log.Error | backend/internal/logger/logger.go:46-48 | an ERROR line is pushed |
| Logger.Log.RequestStart | backend/internal/logger/logger.go:50-54 | the request total goes up by one and nothing else changes |
| Logger.Log.RequestSuccess | backend/internal/logger/logger.go:56-60 | the success count goes up by one and nothing else changes |
| Logger.Log.RequestError | backend/internal/logger/logger.go:62-66 | the error count goes up by one and nothing else changes |
| Logger.Log.GetLogs | backend/internal/logger/logger.go:68-74 | the copy holds the buffer's lines in order |
| Logger.Log.GetStats | backend/internal/logger/logger.go:76-80 | the counters and reset time as they stand; nothing changes |
| Logger.Log.ClearLogs | backend/internal/logger/logger.go:82-86 | no lines are left and the counters are untouched |
| Logger.Log.ResetStats | backend/internal/logger/logger.go:88-92 | every counter is back to zero, stamped with the new time; the lines are untouched |
| Auth.JwtAuth | backend/internal/auth/auth.go:103-130 | an empty header is refused, every refusal is 401, and a request let through carries an active user of the table |
| Auth.TokenClaims | backend/internal/auth/auth.go:42-48 | a console token carries exactly sub = the username and exp = issue time + 7 days in seconds |
| Auth.ParseToken | backend/internal/auth/auth.go:50-64 | a name comes back exactly when the library accepts the token and its sub claim is a string |
| Auth.GeneratedTokenParses | backend/internal/auth/auth.go:42-64 | an accepted generated token parses back to the username it was made for |
| Auth.UserByName | backend/internal/auth/auth.go:66-82 | the user found has that name and is a row of the table; none is found exactly when no row has the name |
| Auth.UserByApiKey | backend/internal/auth/auth.go:84-100 | the user found holds the key and is active; none exactly when no active row holds it |
| Auth.Credential | backend/internal/auth/auth.go:112 | one leading "Bearer " is removed; a header without it is the token itself |
| Auth.JwtAuthDecision | backend/internal/auth/auth.go:103-130 | JWTAuth continues exactly for a non-empty header whose token names an existing active user, with that user; every refusal is 401 |
| Auth.GeneratedTokenAdmitted | backend/internal/auth/auth.go:42-130 | a freshly generated token of an active user, with or without "Bearer ", gets through JWTAuth |
| Auth.ApiKeyAuth | backend/internal/auth/auth.go:133-153 | APIKeyAuth continues exactly when the header is non-empty and its key belongs to an active user; otherwise 401 |
| Auth.AdminRequired | backend/internal/auth/auth.go:156-173 | 401 "未认证" without a user, 403 for a non-admin, otherwise continue |
| Accounts.Login | backend/internal/handlers/auth.go:13-44 | the only failures are 400 (exactly for a body that does not bind), 401, 403 and 500; a token answer is a "bearer" token for a bound body naming an active user whose password checks |
| Accounts.LoginSucceedsIff | backend/internal/handlers/auth.go:13-44 | a login answers a bearer token exactly for a bound body naming an existing active user with the right password and a token that signs |
| Accounts.LoginHidesUnknownUsers | backend/internal/handlers/auth.go:20-25 | an unknown name and a wrong password get the same 401 with the same detail |
| Accounts.DisabledAccountNeedsPassword | backend/internal/handlers/auth.go:20-31 | a disabled account answers 403 only to the right password and 401 to any other |
| Accounts.UpdateWhere | backend/internal/handlers/auth.go:78 | UPDATE ... WHERE id = ? changes exactly the rows with that id and keeps the table's length and order |
| Accounts.RenameKeepsUnique | backend/internal/handlers/auth.go:98-107 | a rename that passed the duplicate check keeps usernames and ids unique |
| Accounts.RenamedUserFound | backend/internal/handlers/auth.go:98-107 | after a rename the user is found under the new name and no longer under the old one |
| Accounts.FoundInUnique | backend/internal/handlers/auth.go:20 | in a table with unique names, lookup by name finds the row holding it |
| Accounts.UserTable.constructor | backend/internal/handlers/auth.go:77 | the table holds the given rows |
| Accounts.UserTable.ChangePassword | backend/internal/handlers/auth.go:56-86 | 200 exactly for a bound body with the right old password and a hash; then only the caller's row gets the new hash; nothing is written on 400 or 500 |
| Accounts.UserTable.ChangeUsername | backend/internal/handlers/auth.go:88-115 | 200 exactly for a bound body whose name no other user holds; then only the caller's row is renamed; 400 otherwise with nothing written |
| Accounts.UserTable.RegenerateAPIKey | backend/internal/handlers/auth.go:117-130 | the caller's row gets the new key, which is returned |
| Config.GetEnv | backend/internal/config/config.go:41-46 | the variable's value when set and non-empty, otherwise the default |
| Config.GetEnvInt | backend/internal/config/config.go:48-55 | the variable's decimal value when it parses, otherwise the default |
| Config.PortFromEnv | backend/internal/config/config.go:48-55 | a port written into PORT is read back as that port |
| Config.HostPortSplits | backend/internal/config/config.go:37-39 | for a host without ':' the address splits back into the host and the port |
| Config.HostPortInjective | backend/internal/config/config.go:37-39 | distinct ports on one host give distinct addresses |
| Config.Config.Load | backend/internal/config/config.go:20-30 | every field comes from its variable or its shipped default |
| Config.Config.SetSecretKey | backend/internal/config/config.go:33-35 | the secret is replaced and nothing else changes |
| Config.DefaultsWithEmptyEnv | backend/internal/config/config.go:20-39 | with an empty environment the defaults apply and the address is 0.0.0.0:8050 |
| Router.CorsHeaders | backend/internal/router/router.go:15-26 | exactly the five CORS headers, with the request's origin or "*" for none, and credentials allowed |
| Router.CorsAbort | backend/internal/router/router.go:28-33 | the middleware answers by itself exactly for OPTIONS, with 204 |
| Router.Run | backend/internal/router/router.go:28-41 | a chain answers by itself only with 204, 401 or 403; a user it puts in the context is an active user of the table |
| Router.GroupFacts | backend/internal/router/router.go:55-136 | exactly the providers, models, logs, tokens and settings groups are management groups, each guarded by JWTAuth and AdminRequired with nothing inline |
| Router.ManagementGroupShape | backend/internal/router/router.go:68-122 | each management group has an admin base, the guard on the group and no inline middleware |
| Router.OtherGroupBase | backend/internal/router/router.go:47-136 | the engine routes, the auth group, the version check and /v1 lie outside the management bases |
| Router.AdminGroupsGuarded | backend/internal/router/router.go:40-122 | every management route runs Recovery, CORS, JWTAuth and AdminRequired, in that order |
| Router.LoginIsPublic | backend/internal/router/router.go:58-60 | POST /api/auth/login runs only Recovery and CORS |
| Router.VersionCheckIsPublic | backend/internal/router/router.go:125 | GET /api/version/check runs only Recovery and CORS |
| Router.EngineRoutesArePublic | backend/internal/router/router.go:47-136 | /health and the WebSocket chat route carry no authentication middleware |
| Router.V1RoutesNeedApiKey | backend/internal/router/router.go:129-133 | every /v1 group route runs Recovery, CORS and APIKeyAuth |
| Router.PreflightNeverAuthenticated | backend/internal/router/router.go:28-41 | an OPTIONS request is answered 204 on every route before any authentication |
| Router.AdminRouteDecision | backend/internal/router/router.go:68-122 | a management handler runs exactly for an active admin with a valid console token; otherwise 401, or 403 for a non-admin |
| Router.AdminChainDecision | backend/internal/router/router.go:68 | the JWTAuth-then-AdminRequired chain reaches its handler exactly for an admin user, as that user |
| Router.V1RouteDecision | backend/internal/router/router.go:129-133 | a /v1 handler runs exactly for a key held by an active user, as that user; otherwise 401 |
| Router.NoRouteClassifies | backend/internal/router/router.go:148-160 | the JSON 404 goes exactly to paths longer than their "/api" or "/v1" prefix; "/api", "/v1" and the console routes get index.html, while "/apix" and "/v10" get the 404 |
| ApiClient.Browser.constructor | frontend/src/api/index.js:11-26 | the browser state the client reads and changes: storage, location, preference; no toasts, no dark class |
| ApiClient.WithBearer | frontend/src/api/index.js:10-16 | a truthy stored token sets Authorization to "Bearer " + token; without one the request is unchanged |
| ApiClient.WithBearerTouchesOnlyAuthorization | frontend/src/api/index.js:12-14 | the request interceptor changes no header but Authorization |
| ApiClient.BearerCarriesToken | frontend/src/api/index.js:13 | the header carries exactly the stored token after "Bearer " |
| ApiClient.NoBearerAfterUnauthorized | frontend/src/api/index.js:10-26 | after the 401 branch removes the token, requests carry no credential |
| ApiClient.ErrorMessage | frontend/src/api/index.js:22 | the toast is the server's detail, else the error message, else "请求失败", and never empty |
| ApiClient.Client.constructor | frontend/src/api/index.js:4-7 | same-origin base URL and a 30 s timeout |
| ApiClient.Client.OnError | frontend/src/api/index.js:21-29 | every failure adds its toast; a 401 also removes the token and goes to /login; nothing else changes |
| ApiClient.Client.Settle | frontend/src/api/index.js:19-30 | a success passes through untouched; a failure is rejected as is, after the error interceptor's effects |
| SessionStore.InitialToken | frontend/src/stores/user.js:6 | the stored token, or "" when none is stored |
| SessionStore.ReloadAfterUnauthorizedIsLoggedOut | frontend/src/stores/user.js:6-9 | a page loaded after a forced logout starts logged out |
| SessionStore.UserStore.State | frontend/src/stores/user.js:9 | logged out exactly when the token is empty |
| SessionStore.UserStore.constructor | frontend/src/stores/user.js:6-37 | the token from storage and no profile; with a token, the profile fetch succeeds or logs out |
| SessionStore.UserStore.Logout | frontend/src/stores/user.js:28-32 | token and profile cleared, the token removed from storage, nothing else changed; the state reached does not depend on the state before, so a second logout changes nothing |
| SessionStore.UserStore.FetchUser | frontend/src/stores/user.js:18-26 | nothing without a token; otherwise the profile on success, a logout (after the interceptor's toast and 401 redirect) on failure |
| SessionStore.UserStore.Login | frontend/src/stores/user.js:11-16 | a failed POST leaves token and profile alone and propagates after the interceptor (toast; on 401 token removed and /login); otherwise the token is stored before the profile fetch, which ends logged in (nothing else changed) or logged out (toast, token removed, /login only on 401); an empty access token is stored and fetches nothing, with no toast and no navigation; the theme state is never touched |
| ThemeStore.InitialTheme | frontend/src/stores/theme.js:6 | the stored theme when non-empty, else "light"; the theme key is not the token key |
| ThemeStore.IndexOf | frontend/src/stores/theme.js:62 | the first position of the value, or -1 exactly when it is absent |
| ThemeStore.NextTheme | frontend/src/stores/theme.js:60-64 | the next theme is always one of light, dark, auto |
| ThemeStore.NextThemeCycle | frontend/src/stores/theme.js:61-64 | light goes to dark, dark to auto, auto to light, and anything else to light |
| ThemeStore.ThreeTogglesIdentity | frontend/src/stores/theme.js:60-65 | three toggles bring any of the three themes back to itself |
| ThemeStore.ThemeStore.constructor | frontend/src/stores/theme.js:6-27 | the initial theme (stored value or light) is applied at once and stored; no toast, no navigation, and the system preference is untouched |
| ThemeStore.ThemeStore.ApplyTheme | frontend/src/stores/theme.js:10-22 | the dark class follows the system for "auto" and is set only for "dark" otherwise; the raw value is stored |
| ThemeStore.ThemeStore.SystemPreferenceChanged | frontend/src/stores/theme.js:30-34 | the document follows a system change only under "auto"; nothing is stored |
| ThemeStore.ThemeStore.LoadTheme | frontend/src/stores/theme.js:37-46 | the server's theme is adopted and applied with nothing else changed; on failure the current one is re-applied after the interceptor's toast, storage and location unchanged except that a 401 removes the token and goes to /login; the system preference is untouched |
| ThemeStore.ThemeStore.SetTheme | frontend/src/stores/theme.js:49-57 | the theme changes and is applied before the PUT; a successful PUT changes nothing else; a failed PUT is only reported (toast; on 401 token removed and /login, otherwise location kept), never rolled back; the system preference is untouched |
| ThemeStore.ThemeStore.ToggleTheme | frontend/src/stores/theme.js:60-65 | setTheme with the next theme in the cycle: applied and stored, with the same toast, token and location outcome of the PUT |
| ThemeStore.OnlyAutoFollowsSystem | frontend/src/stores/theme.js:13-19 | the system preference changes the page exactly under "auto" |
| ThemeStore.UnknownThemeIsLight | frontend/src/stores/theme.js:13-19 | any value other than the three themes shows light |
| Navigation.Entries | frontend/src/router/index.js:4-24 | a record without children is matched itself, otherwise each child, all with the record's requiresAuth |
| Navigation.Key | frontend/src/router/index.js:26-29 | the matcher's key (letters folded to lower case, one trailing '/' dropped) is never longer than the path |
| Navigation.KeyOfCanonical | frontend/src/router/index.js:26-29 | a path without capitals or trailing '/' is its own key |
| Navigation.KeyFacts | frontend/src/router/index.js:6-16 | /login and /dashboard are their own keys; "/" has the empty key |
| Navigation.PageKeys | frontend/src/router/index.js:16-21 | each of the six page paths is its own key |
| Navigation.PagesApart | frontend/src/router/index.js:6-21 | no page path is /login or "/", so each page is found under its own path |
| Navigation.RecordKeysAreKeys | frontend/src/router/index.js:4-29 | every resolved record is found under the key the matcher gives its full path |
| Navigation.FindEntry | frontend/src/router/index.js:26-29 | the entry found answers to the key; none exactly when no entry does |
| Navigation.FindEntryFirst | frontend/src/router/index.js:26-29 | the first entry answering to the key is the one found |
| Navigation.Lookup | frontend/src/router/index.js:26-29 | the route a path resolves to answers to that path's key |
| Navigation.TableContents | frontend/src/router/index.js:4-24 | the resolved table is /login (public), "/" redirecting to /dashboard, and the six protected pages |
| Navigation.TableAt | frontend/src/router/index.js:4-24 | the resolved table entry by entry: /login, then "/", then the pages in order |
| Navigation.LookupLogin | frontend/src/router/index.js:5-9 | every spelling of /login resolves to the public login route |
| Navigation.LookupRoot | frontend/src/router/index.js:10-15 | every spelling of "/" resolves to the layout's redirect to /dashboard |
| Navigation.LookupPage | frontend/src/router/index.js:16-21 | every spelling of a page resolves to that page, which requires authentication |
| Navigation.LookupNone | frontend/src/router/index.js:4-29 | a path whose key is none of the routes matches nothing |
| Navigation.LookupCases | frontend/src/router/index.js:4-29 | every path, matched case-insensitively and with an optional trailing '/', resolves to /login, the redirecting "/", one of the pages, or nothing |
| Navigation.VariantResolvesAlike | frontend/src/router/index.js:16 | "/Dashboard/" resolves to the /dashboard route |
| Navigation.Guard | frontend/src/router/index.js:31-40 | to /login exactly for a protected route without a session; to "/" exactly for the literal path /login with a session; otherwise proceed |
| Navigation.NavigationStep | frontend/src/router/index.js:15-40 | one navigation either shows the path asked for or redirects to /login, "/" or /dashboard |
| Navigation.Navigate | frontend/src/router/index.js:15-40 | a page shown after the redirects is one where the next step stays put |
| Navigation.OnlyLayoutRequiresAuth | frontend/src/router/index.js:13 | a matched route requires authentication exactly when it is not a spelling of /login |
| Navigation.RootRedirectsToDashboard | frontend/src/router/index.js:15 | every spelling of "/" is sent on to /dashboard before any guard, with or without a session |
| Navigation.LoginStep | frontend/src/router/index.js:33-38 | /login is shown without a session and sent to "/" with one |
| Navigation.DashboardStep | frontend/src/router/index.js:33-38 | /dashboard is shown with a session and sent to /login without one |
| Navigation.LoginWhileLoggedInLandsOnDashboard | frontend/src/router/index.js:15-36 | /login with a session goes to "/", which ends on /dashboard |
| Navigation.LoginVariantShownWithSession | frontend/src/router/index.js:35 | another spelling of /login (say "/Login") is shown even with a session, because the guard compares the raw path |
| Navigation.LoggedOutEndsOnLogin | frontend/src/router/index.js:33-34 | without a session every path that resolves to a protected route, in any spelling, "/" included, ends on /login |
| Navigation.DashboardVariantNeedsSession | frontend/src/router/index.js:16-34 | any spelling of /dashboard, without a session, ends on /login |
| Navigation.DashboardVariants | frontend/src/router/index.js:16-34 | "/dashboard/" and "/Dashboard" without a session both end on /login |
| Navigation.NavigationTerminates | frontend/src/router/index.js:4-40 | from any path in any spelling, logged in or not, navigation shows a page the visitor may see within three steps: no redirect loop |

## Left out

- Streaming and WebSocket forwarding (`handleStreamResponse`, `OpenAIChatCompletionsWS`, `ChatCompletionStream` in `proxy/client.go`): network I/O driven by goroutines, with SSE chunks decoded by a library. Only the framing of the fake stream is modelled.
- The ids and `created` times of `buildFakeResponse`: they come from `time.Now()` and are not deterministic.
- The request orchestration of `OpenAIChatCompletions`, `handleNonStreamResponse` and `OpenAIListModels`: the retry loop over upstream calls, response copying and token recording around the modelled admission, rewriting and error-substitution steps. These are HTTP and database plumbing.
- Mutexes, read-write locks with double-checked locking, and atomics in the gateway, key rotation, client pool, encoder cache and logger. Every operation is modelled as one sequential step.
- The goroutines in `GetNextAPIKey` that bump `usage_count` and `last_used_at`: fire-and-forget database writes whose outcome no caller sees.
- Database failures, and the 500 answers they cause (for example a UNIQUE violation racing `ChangeUsername`). Every statement in the model succeeds.
- `database/database.go`: opening SQLite, PRAGMAs, table definitions, migrations and random key generation are I/O.
- `models/models.go` holds only struct declarations. They appear as datatypes.
- bcrypt hashing and comparison, HS256 signing and verification, `GenerateAPIKey` and `generateSecretKey`: they enter the model as parameters.
- The real tiktoken encoder and the floating-point fallback `estimateTokens`/`estimateMessagesTokens` (used when no encoder loads): the encoder's length is an uninterpreted function, and the fallback path is not modelled.
- `CountTokens` for a single text is not modelled separately: it is the encoder length, or the floating-point fallback.
- TokenStats.UsageTable.GetTodayTokenStats: the per-model statistics in its answer are not modelled; the period totals, the slot window and the next reset are.
- `ListProviders`, `ListProviderModels` and `GetMe`: read-only projections of rows with no rule beyond what `Catalog` and `Auth` already state.
- `handlers/logs.go`, `handlers/version.go`, `handlers/test_connection.go`, `scheduler/scheduler.go`, `main.go` and the front end's build configuration: thin wrappers over the logger, file reads and a Docker Hub call, a live upstream call, a sleeping loop repeating the next-15:00 arithmetic of `TokenStats.NextReset`, and start-up wiring.
- The log lines the handlers write, and the logger's echo to standard output.
- Go's 64-bit `int`: integers are unbounded. `strconv.Atoi` is modelled on decimal digits with an optional sign, without its overflow error.
- `Config.Addr` is stated only through `Config.HostPortSplits` and `Config.HostPortInjective`, not as a parsed host and port.
- The never-read variable `customConcurrencyCurrent` in `openai.go`.
- The browser's DOM class list, `matchMedia`, Element Plus toasts, the axios transport and the full-page reload: the `Browser` object keeps only the state they observe or change. The reload after a forced logout is `SessionStore.ReloadAfterUnauthorizedIsLoggedOut`.
- Vue reactivity (`watch`, `computed`, Pinia): a watcher is an explicit call after the change it watches.
- Gateway.FirstFiringIsFirst: letters are folded to lower case as ASCII only. Go's `strings.ToLower` also folds non-ASCII letters (for example "Ä" to "ä"), so a keyword that differs from the message only in the case of such letters fires in the gateway but not in the model. The same holds for `Gateway.CheckCustomError` and `Gateway.FirstFiringIgnoresCase`.
- Navigation.Key: vue-router's matcher is reduced to case folding (ASCII only) and one optional trailing `/`. Its other normalisations, such as percent-decoding and repeated slashes, are not modelled.
- Catalog.Catalog.ListAllModels: the model assumes the `models.custom_name` column exists. `database.go` never creates it: neither the table definition (lines 80-88) nor `migrateAddMissingColumns` (lines 133-138) adds it. As written, against a fresh database, the listing query (`models.go` line 28) fails with 500. The model states the behaviour the handler is evidently written for.
- Catalog.Catalog.UpdateModel: for the same missing column, the UPDATE of `models.go` line 83 fails and its error is unchecked, so the display name stays as it was while the handler answers success. The model writes the new name and sets the custom flag, as the statement intends.
- Catalog.Catalog.ResetModelDisplayName: for the same missing column, the UPDATE of `models.go` line 136 fails unchecked, so the display name is not restored while the handler answers success. The model restores the derived name and clears the flag, as the statement intends.
- Upstream.ListingData: a `map<string, Json>` holds one value per distinct key and no key order. encoding/json lets the last key matching the field tag win, and carries on past a type error in one of several matching keys. The model reads the exact "data" key when present, otherwise the first present of the sixteen case spellings in a fixed order, so a body with several spellings of "data" may be read differently.
- Gateway.FindModel: in `findModel` each successful lookup also calls `GetNextAPIKey`, swapping in the provider's next active key and advancing the rotation. The model keeps that rotation separate, in `ApiKeys`. It does not state that a model lookup advances the key index.
- Upstream.Headers: Go's `Header.Set` canonicalises header names (`content-type` becomes `Content-Type`), so an extra header differing from `Content-Type` or `Authorization` only in case replaces the default in the gateway. The model compares names exactly, and both such entries stay.
