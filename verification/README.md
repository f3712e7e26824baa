# Voice AI: a verified model of the request-handling core

This project models the core of the Voice AI repository in Dafny:

- **Client and domain allow-listing.** `lib/security.ts` and the CORS
  `middleware.ts` read the environment as a string map. `ALLOWED_CLIENTS` and
  `CLIENT_<id>_DOMAINS` are comma-separated lists.
- **In-memory stores.** The session table of `lib/sessions.ts` has inactivity
  expiry, refresh on read, merge on update, delete and sweep. There is also
  the OpenAI session table and the memoising storage factory.
- **API route handlers** for sessions, tokens, voice processing, text logs,
  client validation, instructions and the debug logs. Each is modelled as a
  decision over the parsed request and the store, with the status codes and
  error bodies the handlers return.
- **The browser SDK's `VoiceAI` widget**: its session, mode and flag
  transitions.
- **The Python analysis helpers**: `get_env_var` lookup, default and error;
  the `.env` path choice; and the masking rule of the environment listing.

JavaScript values are one datatype (`Js.Value`). It carries JavaScript
truthiness, `String(x)`, strict equality, and the TypeError thrown when a
handler destructures `null` or `undefined`. In the handlers that TypeError
becomes status 500.

Three things become parameters:

- the clock (milliseconds, or ISO strings);
- `JSON.parse` (an `Option`, with None when it throws) and `JSON.stringify`
  (a function parameter);
- the outcomes of network calls.

Code that works by updating state keeps that form as a Dafny class with
`modifies` clauses:

- the session stores;
- the storage factory;
- the log files;
- the SDK widget;
- the process environment.

The pure decisions are functions. Lemmas state the properties that relate
several of them.

## Model

| member | source | states |
|---|---|---|
| Url.ExtractDomain | lib/security.ts:10-17 | the domain is `""` exactly when the URL does not parse, and otherwise a host name holding no scheme, port, path, query or fragment characters |
| Url.Hostname | lib/security.ts:10-17 | `new URL(s).hostname`: None where the constructor throws, otherwise a host free of delimiters, separators and forbidden domain code points |
| Url.ForbiddenHostCharRejected | lib/security.ts:10-17 | a host holding `|` does not parse, so its domain is `""` |
| Url.HostnameOfBuiltUrl | lib/security.ts:10-17 | for every URL `scheme://host[:port]<path/query/fragment>`, the extracted host is exactly `host` |
| Url.SchemeSplit | lib/security.ts:10-17 | the scheme ends at the first colon, and `://` follows it |
| Url.HostPortSplit | lib/security.ts:10-17 | host and port separate at the first colon of the authority |
| Url.AuthorityEnd | lib/security.ts:10-17 | the authority ends where the path, query or fragment begins |
| Url.NoColonNoDomain | lib/security.ts:10-17 | a string with no colon has no scheme, so its domain is `""` |
| Url.ExtractDomainInvalidExamples | tests/unit/lib/security.test.ts:16-29 | `"not-a-url"`, `""`, `"null"` and `"undefined"` all give `""` |
| Text.SplitMembership | lib/security.ts:27-41 | `x` is an element of `s.split(',')` iff `x` is a whole comma-delimited field of `s` |
| Text.JoinSplit | lib/security.ts:27 | joining the pieces of a split with the separator gives back the original string |
| Security.EnvList | lib/security.ts:27-35 | an unset variable gives the empty list, and a set one gives pieces that re-join to its value |
| Security.EnvListMembership | lib/security.ts:27-41 | list membership is exact field membership of the variable's value: no trimming, no case folding |
| Security.DomainsVariable | lib/security.ts:35 | the per-client variable is `CLIENT_` + id + `_DOMAINS` |
| Security.ValidateClient | lib/security.ts:25-42 | a client is accepted only when both `ALLOWED_CLIENTS` and its `CLIENT_<id>_DOMAINS` are set |
| Security.ValidateClientValue | lib/security.ts:25-42 | `validateClient` as the routes call it, on any JSON value: it accepts only a string client id, and only when both `ALLOWED_CLIENTS` and `CLIENT_<id>_DOMAINS` are set |
| Security.ValidateClientFields | lib/security.ts:25-42 | `validateClient` holds iff the client is a field of `ALLOWED_CLIENTS` and the referer's domain is a field of `CLIENT_<id>_DOMAINS` |
| Security.UnsetAllowListRejects | lib/security.ts:27-32 | with `ALLOWED_CLIENTS` unset, every client is rejected |
| Security.UnlistedClientRejected | lib/security.ts:30-32 | a client that is not listed is rejected, whatever the referer |
| Security.NonStringClientRejected | lib/security.ts:30 | a client id that is not a string never equals a listed string |
| Security.UnparsableRefererRejected | lib/security.ts:35-41 | an unparsable referer is rejected unless `""` is itself a listed domain |
| Security.DomainOfOtherClientRejected | tests/unit/lib/security.test.ts:59-62 | a domain registered only for another client is rejected |
| Security.ValidateSessionId | lib/security.ts:49-52 | a valid session id is a truthy string |
| Security.ValidateSessionIdTruthy | lib/security.ts:49-52 | a session id is valid iff it is a non-empty string |
| Middleware.IsDomainAllowed | middleware.ts:23-38 | the loop answers true iff some allowed client lists the domain |
| Middleware.ValidClientDomainAllowed | middleware.ts:23-38 | a referer that `validateClient` accepts has a domain the middleware allows |
| Middleware.DomainAllowedIffSomeClient | middleware.ts:23-38 | the middleware allows a referer's domain iff `validateClient` accepts the referer for some client |
| Middleware.CorsHeaders | middleware.ts:74-78 | the four CORS headers, with Allow-Origin echoing the request origin |
| Middleware.PreflightHeaders | middleware.ts:55-60 | the CORS headers plus `Access-Control-Max-Age: 86400` |
| Middleware.HandleRequest | middleware.ts:40-90 | non-API paths pass untouched; `OPTIONS` gets 204, with preflight headers only for an allowed origin; other API requests pass, with CORS headers only for an allowed origin |
| Sessions.TrimStart | lib/sessions.ts:21 | `parseInt` skips leading white space: the result is a suffix of the input that starts with no space, and everything it drops is white space |
| Sessions.DigitPrefix | lib/sessions.ts:21 | the longest digit prefix |
| Sessions.ParseInt | lib/sessions.ts:21 | `parseInt` is NaN exactly when no digit follows the leading white space and an optional sign; without a minus sign the value is not negative |
| Sessions.ParseIntDigits | lib/sessions.ts:21 | a digit run followed by a non-digit parses to its decimal value |
| Sessions.ParseDefaultWindow | lib/sessions.ts:21 | `parseInt('30')` is 30 |
| Sessions.ExpiryMinutes | lib/sessions.ts:21 | an unset or empty variable gives the 30-minute window |
| Sessions.DefaultExpiryMinutes | lib/sessions.ts:21 | an unset or empty `SESSION_EXPIRY_MINUTES` gives a 30-minute window |
| Sessions.Expired | lib/sessions.ts:59-66 | a NaN window expires nothing, and a session is never expired at or before its last activity |
| Sessions.ExpiryIsPermanent | lib/sessions.ts:59-66 | once a session is past its window, it stays expired at every later time |
| Sessions.LiveOnly | lib/sessions.ts:112-124 | the sweep keeps exactly the sessions that have not expired, unchanged |
| Sessions.Get | lib/sessions.ts:51-73 | a session is found iff it is present and not expired; a found session has `lastActiveAt` refreshed; an expired one is removed; other entries are untouched |
| Sessions.GetResultIsLive | lib/sessions.ts:51-73 | a session that was returned is live at the moment it was read |
| Sessions.CleanupInvisibleToGet | lib/sessions.ts:112-124 | sweeping never changes what `getSession` returns |
| Sessions.CleanupIdempotent | lib/sessions.ts:112-124 | sweeping twice at the same moment equals sweeping once |
| Sessions.Merge | lib/sessions.ts:88 | `{...old, ...data}`: new keys win, and old keys that are not overridden survive |
| Sessions.SessionStore.CreateSession | lib/sessions.ts:30-44 | stores a fresh session under its id, with both timestamps set to now, replacing any earlier one |
| Sessions.SessionStore.DeleteSession | lib/sessions.ts:99-107 | answers whether the id was present, and removes it |
| Sessions.SessionStore.GetSession | lib/sessions.ts:51-73 | returns the lookup result and leaves the table of `Sessions.Get` |
| Sessions.SessionStore.UpdateSession | lib/sessions.ts:81-92 | a live session gets the merged data; a missing or expired one gives null |
| Sessions.SessionStore.CleanupExpiredSessions | lib/sessions.ts:112-124 | the loop over the keys leaves exactly `LiveOnly` of the old table |
| OpenAISessions.RtcSession.Initialize | lib/openai-webrtc.ts:18-31 | success iff initialisation does not fail, and the session is active iff it succeeded |
| OpenAISessions.RtcSession.Close | lib/openai-webrtc.ts:91-94 | the session is inactive |
| OpenAISessions.OpenAISessionStore.GetOpenAISession | lib/openai-sessions.ts:17-28 | an unknown id gives null; a known one returns its session and refreshes `lastActive` |
| OpenAISessions.OpenAISessionStore.CreateOpenAISession | lib/openai-sessions.ts:33-64 | a missing key and a failed initialisation each throw their own message and store nothing; a configured key with a successful initialisation always stores and returns a fresh active session under the id, and other sessions are untouched |
| OpenAISessions.OpenAISessionStore.DeleteOpenAISession | lib/openai-sessions.ts:69-85 | answers whether the id was present; removes it, closing its session |
| Storage.StorageFactory.GetStorage | lib/storage/index.ts:18-34 | the Supabase provider is created once and then shared; an unknown type throws `Unknown storage type: <type>` |
| Storage.StorageFactory.RepeatedRequestsShareInstance | lib/storage/index.ts:20-21 | two requests return the same instance |
| SessionsRoute.SessionInfo | app/api/v1/sessions/route.ts:37-42 | the body of the corrected handlers holds exactly the session's id, client id and creation time (as written, the id is missing; see "## Findings") |
| SessionsRoute.HandleGet | app/api/v1/sessions/route.ts:11-76 | a lookup gives 404 with `valid:false` or 200 with `valid:true` and the session's id and client id; without an id, the stats need the admin key (401 otherwise) and report the count |
| SessionsRoute.HandleGetAsWritten | app/api/v1/sessions/route.ts:11-66 | as written, a found session's body has no `sessionId` but is otherwise as intended, and the stats branch calls an undefined import: 401 without the admin key, 500 with it |
| SessionsRoute.LookupAsWrittenOmitsId | app/api/v1/sessions/route.ts:37-42 | as written, a successful lookup reports the owner but not the session's id |
| SessionsRoute.LookupReportsId | app/api/v1/sessions/route.ts:37-42 | the corrected lookup reports the found session's id and owner |
| SessionsRoute.StatsAsWrittenFail | app/api/v1/sessions/route.ts:55-56 | as written, the admin-key holder gets 500 |
| SessionsRoute.StatsReportCount | app/api/v1/sessions/route.ts:45-66 | the admin-key holder gets 200 with the number of sessions, and the table is unchanged |
| SessionsRoute.StatsNeedAdminKey | app/api/v1/sessions/route.ts:48-52 | with `ADMIN_API_KEY` unset, the stats are always refused |
| SessionsRoute.HandlePost | app/api/v1/sessions/route.ts:83-131 | one of 200/400/403/500; 200 exactly when the body destructures and its client id is truthy and passes the allow-list, and then the table gains the new session under the fresh id, owned by the client, whose id, owner and creation time are reported; anything but 200 leaves the table unchanged |
| SessionsRoute.PostWithoutClientIdIs400 | app/api/v1/sessions/route.ts:88-93 | a falsy client id gives 400 |
| SessionsRoute.PostRejectedClientCreatesNothing | app/api/v1/sessions/route.ts:98-108 | an allow-list failure gives 403 and creates nothing |
| SessionsRoute.PostCreatesOneSession | app/api/v1/sessions/route.ts:83-131 | an accepted request with an unused fresh id answers 200 and adds exactly one session (the table grows by one, the others unchanged), owned by the validated client; its id is reported, and a lookup finds it |
| SessionsRoute.HandlePostAsWritten | app/api/v1/sessions/route.ts:112-121 | the POST with the one-argument `createSession(clientId)` call as written |
| SessionsRoute.PostAsWrittenReplacesSession | app/api/v1/sessions/route.ts:112-121 | as written, a second POST replaces the first session under the client's id; the session has no owner, and the body names no session |
| SessionsRoute.HandleDelete | app/api/v1/sessions/route.ts:138-186 | a falsy id gives 400, an unknown or expired one 404, and a live one is removed with 200 and `{success: true, sessionId}` |
| SessionsRoute.DeleteNeverFails | app/api/v1/sessions/route.ts:152-168 | the status is always 200, 400 or 404: the 500 branch after a lookup cannot be reached |
| TokenRoute.HandleToken | app/api/v1/voice/token/route.ts:6-80 | one of 200/400/403/404/500 |
| TokenRoute.KeyReleasedWhenAllChecksPass | app/api/v1/voice/token/route.ts:6-80 | with a client, a session id, an allow-listed referer, a live session owned by the client, and a configured key, the key is returned |
| TokenRoute.KeyReleasedOnlyIfAllChecksPass | app/api/v1/voice/token/route.ts:6-80 | a 200 implies that every one of those checks passed |
| TokenRoute.TokenCheckOrder | app/api/v1/voice/token/route.ts:11-66 | the checks run in source order: 400, 400, 403, 404, 403, 500 |
| ProcessRoute.ReplayMessage | app/api/v1/voice/process/route.ts:50-60 | a stored error message is replayed as an assistant turn whose text is `Error: ` + the original; every other message is unchanged |
| ProcessRoute.ReplayHistory | app/api/v1/voice/process/route.ts:50-60 | the history keeps its length and order, message by message |
| ProcessRoute.ReplayedHasNoErrors | app/api/v1/voice/process/route.ts:50-60 | a replayed history holds no error messages |
| ProcessRoute.ReplayCounts | app/api/v1/voice/process/route.ts:50-63 | user turns are kept, and the assistant turns are the old assistant turns plus the error turns |
| ProcessRoute.ReplayIdempotent | app/api/v1/voice/process/route.ts:50-60 | replaying twice equals replaying once |
| ProcessRoute.LoadHistory | app/api/v1/voice/process/route.ts:42-77 | a storage failure gives an empty history; otherwise the replayed history |
| ProcessRoute.HandleProcess | app/api/v1/voice/process/route.ts:10-107 | a body that does not destructure gives 500; then 403 iff the allow-list refuses, 500 when the OpenAI key is missing, 404 for a truthy session id whose session does not exist; otherwise proceed with `voice \|\| 'alloy'` and the loaded history (empty without a session id) |
| ProcessRoute.HandleProcessAsWritten | app/api/v1/voice/process/route.ts:28-35 | as written, the undefined `sessionExists` import throws for every truthy session id; other requests are handled as intended |
| ProcessRoute.ProcessAsWrittenRejectsEverySession | app/api/v1/voice/process/route.ts:28-35 | as written, a request naming a session gets 500 whether or not the session exists |
| ProcessRoute.ProcessChecksSession | app/api/v1/voice/process/route.ts:28-77 | a request naming an existing session proceeds with the stored history; one naming a missing session gets 404 |
| ProcessRoute.DefaultVoice | app/api/v1/voice/process/route.ts:90 | a falsy voice becomes `alloy` |
| ProcessRoute.StorageFailureProceeds | app/api/v1/voice/process/route.ts:74-77 | a failure reading the message store does not fail the request |
| AuthValidateRoute.Invalid | app/api/v1/auth/validate/route.ts:27-31 | a refusal body carries `valid:false` and the error |
| AuthValidateRoute.HandleValidate | app/api/v1/auth/validate/route.ts:5-39 | one of 200/400/403/500; 200 is exactly `{valid:true}`, and every other status carries `valid:false` |
| AuthValidateRoute.ValidateAnswers | app/api/v1/auth/validate/route.ts:5-39 | 200 iff the body parses, the client id is truthy and `validateClient` accepts it |
| InstructionsRoute.HandleInstructions | app/api/v1/instructions/route.ts:6-43 | no client id gives 400; 200 (with the instructions) iff `validateClient` accepts; 403 otherwise |
| InstructionsRoute.MissingRefererChecksEmptyDomain | app/api/v1/instructions/route.ts:20-23 | a missing referer is checked as the domain `""` |
| TextLogRoute.TranscriptionFlag | app/api/v1/voice/text-log/route.ts:80-84 | `text.includes` throws exactly when the text is truthy and neither a string nor an array |
| TextLogRoute.LogEntry | app/api/v1/voice/text-log/route.ts:159-173 | the entry carries session id, client id, text, type and timestamp, and `isTranscription: true` exactly when flagged |
| TextLogRoute.Check | app/api/v1/voice/text-log/route.ts:70-172 | rejections are 400, 403 or 500; a request is accepted iff every field is valid and the client is a test client or passes the allow-list, and then the entry is built from the request |
| TextLogRoute.CheckOrder | app/api/v1/voice/text-log/route.ts:91-156 | clientId, sessionId, type and text are checked in that order, then the allow-list |
| TextLogRoute.TestClientsSkipAllowList | app/api/v1/voice/text-log/route.ts:141-156 | `test_client` and `demo_client` skip the allow-list; other clients need it |
| TextLogRoute.FileStamp | app/api/v1/voice/text-log/route.ts:193-197 | the stamp is the time stamp up to its first `.`, with the first `T` turned into `_` and every `:` into `-`; so it holds no `:` or `.` |
| TextLogRoute.StampOfIso | app/api/v1/voice/text-log/route.ts:193-197 | an ISO time stamp `<date>T<time>.<ms>` gives the stamp `<date>_<time>`, with the time's colons as dashes |
| TextLogRoute.NewLogName | app/api/v1/voice/text-log/route.ts:193-200 | a new log's name is the file stamp followed by `_<sessionId>.json` |
| TextLogRoute.FirstMatch | app/api/v1/voice/text-log/route.ts:39-40 | `files.find` returns the first name that ends with the suffix |
| TextLogRoute.FirstMatchUnique | app/api/v1/voice/text-log/route.ts:39-40 | the first-match property determines the index |
| TextLogRoute.ExistingLog | app/api/v1/voice/text-log/route.ts:28-63 | a log is found iff the first listed name ending in `_<sessionId>.json` is a file that parses; the found log is that file, its entries the parsed array, or the parsed value alone when it is not an array |
| TextLogRoute.OtherSessionLogFound | app/api/v1/voice/text-log/route.ts:39-40 | the lookup for session `<id>` finds the log of a session whose id ends in `_<id>` |
| TextLogRoute.TargetLog | app/api/v1/voice/text-log/route.ts:182-202 | the entry goes to the session's readable log when there is one, otherwise to a new empty log under the new name; either way the name ends in `_<sessionId>.json` |
| TextLogRoute.Saved | app/api/v1/voice/text-log/route.ts:225-230 | the success body reports the entry count |
| TextLogRoute.LogsDirectory.FindExistingLogFile | app/api/v1/voice/text-log/route.ts:28-63 | the scan over the directory listing returns `ExistingLog` |
| TextLogRoute.LogsDirectory.WriteFile | app/api/v1/voice/text-log/route.ts:209 | the file is written, and a new name is listed |
| TextLogRoute.LogsDirectory.Post | app/api/v1/voice/text-log/route.ts:65-239 | rejections change nothing; an accepted entry is appended to the session's log file |
| TextLogRoute.LogsDirectory.AppendEntry | app/api/v1/voice/text-log/route.ts:175-212 | the entry is appended to the session's target log, the file is rewritten with it, a new name is listed once, and the count is the log's new length |
| TextLogRoute.AppendToExistingLog | app/api/v1/voice/text-log/route.ts:182-192 | an entry for a session with a readable log goes to that log, after its entries |
| TextLogRoute.AppendToNewLog | app/api/v1/voice/text-log/route.ts:193-204 | a session with no log gets a new file holding just the entry |
| TextLogRoute.FindAfterAppend | app/api/v1/voice/text-log/route.ts:175-230 | after an append, the lookup finds the session's log, with the new entry last |
| TextLogRoute.UnreadableLogShadowsAppends | app/api/v1/voice/text-log/route.ts:42-61 | when the session's first matching file does not parse, each request writes a fresh file that later lookups never find |
| DebugLog.LogLine | app/api/log/route.ts:16 | `[ts] [type] message` followed by a `Data:` block exactly when the data is truthy, ending in a newline |
| DebugLog.InternalEntry | app/api/internal/log/route.ts:20-30 | a body that does not parse, or is null, is logged as `Failed to parse JSON: <text>` with type `info`; otherwise message and data are the body's, and the type is the body's when truthy, `info` when falsy |
| DebugLog.PublicEntry | app/api/log/route.ts:14 | the destructuring default replaces only an undefined type |
| DebugLog.DebugLogFile.constructor | app/api/log/route.ts:7-10 | an existing file is kept whatever it holds; a missing one gets the header |
| DebugLog.DebugLogFile.Append | app/api/log/route.ts:18 | appends, keeping what the file held at load time as its start |
| DebugLog.DebugLogFile.PostInternal | app/api/internal/log/route.ts:11-47 | an empty body gives 400, a falsy message 400; otherwise exactly one line is appended |
| DebugLog.DebugLogFile.PostPublic | app/api/log/route.ts:12-25 | an unparsable or null body gives 500 with the error text; otherwise exactly one line is appended |
| DebugLog.UnparsableBodyIsLogged | app/api/internal/log/route.ts:26-30 | unparsable input is still logged, as an `info` line holding the raw text |
| DebugLog.TypeDefaults | app/api/internal/log/route.ts:25 | the internal route turns a null or empty type into `info`; the public one keeps it |
| DebugLog.PublicMissingMessage | app/api/log/route.ts:16 | a missing message is written as `undefined` |
| LogTextRoute.LogPath | app/api/log/text/route.ts:21-29 | the file is `<date>/<id>.json` |
| LogTextRoute.LogPathInjective | app/api/log/text/route.ts:21-29 | distinct days or distinct ids never share a file |
| LogTextRoute.Prior | app/api/log/text/route.ts:32-40 | a missing or unparsable file starts as `[]` |
| LogTextRoute.Logged | app/api/log/text/route.ts:43-47 | push succeeds iff the old content is an array; the result is the old items plus the entry, last |
| LogTextRoute.LoggedTwice | app/api/log/text/route.ts:32-50 | two pushes keep both messages, in order, after what was there |
| LogTextRoute.CorruptLogRestarts | app/api/log/text/route.ts:35-39 | an unparsable file is started over |
| LogTextRoute.Message | app/api/log/text/route.ts:43-47 | the entry holds role, content, and the given or current timestamp |
| LogTextRoute.LogId | app/api/log/text/route.ts:28 | the session id when truthy, otherwise the generated id |
| LogTextRoute.TextLogs.Post | app/api/log/text/route.ts:5-57 | unparsable body gives 500, missing role or content 400, a non-array file 500 with nothing written; otherwise the file gets the pushed array |
| Sdk.EffectiveConfig | public/sdk/voice-ai-sdk.js:12-22 | every caller key overrides the default, and defaults fill the rest |
| Sdk.ConfigNeedsCallerKeys | public/sdk/voice-ai-sdk.js:40-70 | the checks pass iff the caller supplies a truthy client id and a truthy server URL that parses |
| Sdk.ClassFor | public/sdk/voice-ai-sdk.js:459-540 | a mode adds at most one of the four status classes, and none for idle, inactive or unknown modes |
| Sdk.ModeForMessage | public/sdk/voice-ai-sdk.js:735-759 | `speech_started` gives thinking, `item.created` responding, `item.completed` idle; other types give nothing |
| Sdk.ModeForConnection | public/sdk/voice-ai-sdk.js:810-827 | connected gives idle, disconnected or failed error, closed inactive; other states give nothing |
| Sdk.Accepted | public/sdk/voice-ai-sdk.js:715-732 | a message is kept iff the data is truthy, parses, and has a truthy type |
| Sdk.VoiceAI.constructor | public/sdk/voice-ai-sdk.js:21-71 | `_init` starts iff the configuration checks pass; the state starts empty and inactive |
| Sdk.VoiceAI.LoadSession | public/sdk/voice-ai-sdk.js:115-144 | a saved session is reused iff it parses, belongs to this client and is confirmed; otherwise the saved entry is removed, and the session id becomes null, except for another client's session, which leaves it unchanged |
| Sdk.VoiceAI.UpdateUI | public/sdk/voice-ai-sdk.js:429-541 | the mode is recorded even without a widget; with one, the four status classes are replaced by the mode's class and the microphone follows the mode |
| Sdk.VoiceAI.OnDataChannelOpen | public/sdk/voice-ai-sdk.js:618-627 | an opened data channel shows the idle mode |
| Sdk.VoiceAI.OnDataChannelClose | public/sdk/voice-ai-sdk.js:776-779 | a closed data channel stops listening and changes nothing else |
| Sdk.VoiceAI.OnDataChannelMessage | public/sdk/voice-ai-sdk.js:712-770 | kept messages are appended in arrival order; three types move the mode |
| Sdk.VoiceAI.OnConnectionStateChange | public/sdk/voice-ai-sdk.js:805-828 | ignored without a peer connection; otherwise the state picks the mode |
| Sdk.VoiceAI.CleanupWebRTC | public/sdk/voice-ai-sdk.js:834-869 | no connection, not listening, idle |
| Sdk.VoiceAI.InitWebRTC | public/sdk/voice-ai-sdk.js:960-1014 | never throws; a failure shows the error mode |
| Sdk.VoiceAI.StartSession | public/sdk/voice-ai-sdk.js:875-904 | a no-op when active; otherwise active and listening iff configuration succeeds, and cleaned up to idle when it fails |
| Sdk.VoiceAI.AbortStart | public/sdk/voice-ai-sdk.js:893-903 | the failed start shows the error, then cleans up to idle |
| Sdk.VoiceAI.StopSession | public/sdk/voice-ai-sdk.js:910-942 | always leaves the widget inactive, with no connection |
| Sdk.VoiceAI.ToggleSession | public/sdk/voice-ai-sdk.js:948-954 | stops an active session and starts an inactive one |
| Sdk.StatusClassAfterUpdate | public/sdk/voice-ai-sdk.js:442-481 | after an update the button has at most one status class, and exactly one in the busy modes |
| Sdk.MicShownOnlyWhenResting | public/sdk/voice-ai-sdk.js:450-481 | the microphone never shows together with a status class |
| EnvLoader.LastIndexOf | analysis/env_loader.py:30-31 | the last occurrence, with none after it |
| EnvLoader.EnvPath | analysis/env_loader.py:30-34 | a truthy `env_file` is used; otherwise `.env.local` in the parent of the module's directory |
| EnvLoader.DefaultEnvPath | analysis/env_loader.py:30-34 | a module at `<root>/<dir>/<file>` reads `<root>/.env.local` |
| EnvLoader.LastSlashBefore | analysis/env_loader.py:30-31 | the parent of `d/x` is `d` |
| EnvLoader.Loaded | analysis/env_loader.py:37 | loading never changes a variable that is already set; it adds the file's others, and a missing file adds nothing |
| EnvLoader.Lookup | analysis/env_loader.py:64-70 | a set name gives its value; otherwise the default; otherwise an error |
| EnvLoader.SetVariableIgnoresDefault | analysis/env_loader.py:64-70 | a set variable, even `""`, wins over any default |
| EnvLoader.MissingVariableNamed | analysis/env_loader.py:68 | the error message contains the variable's name |
| EnvLoader.ProcessEnv.LoadEnvVars | analysis/env_loader.py:14-40 | merges the chosen file, and returns a copy of the whole environment |
| EnvLoader.ProcessEnv.GetEnvVar | analysis/env_loader.py:43-70 | always loads the default file first, then answers `Lookup` |
| EnvLoader.LoadingKeepsSetVariables | analysis/env_loader.py:62-70 | a variable set before loading is still found, unchanged |
| EnvListing.VisibleLength | analysis/notebooks/example.py:38 | between 3 and 10 characters, and at most 30% of a value of length 10 or more |
| EnvListing.Mask | analysis/notebooks/example.py:39-42 | values of up to 3 characters are shown whole; longer ones keep the visible prefix, then `...`, then one `*` per hidden character |
| EnvListing.MaskReveals | analysis/notebooks/example.py:38-40 | a masked value reveals at most ten original characters, and at most 30% of a long one |
| EnvListing.IsSensitive | analysis/notebooks/example.py:36 | a sensitive key contains a marker, so it has at least three characters |
| EnvListing.MarkerInAnyCase | analysis/notebooks/example.py:36 | `KEY`, `SECRET`, `PASSWORD` or `TOKEN` in any letter case, anywhere in a key, makes it sensitive |
| EnvListing.Shown | analysis/notebooks/example.py:36-45 | only sensitive keys are masked |
| EnvListing.Line | analysis/notebooks/example.py:43-45 | `- <key>: <value>`, with the masked value for a sensitive key |
| EnvListing.MinKey | analysis/notebooks/example.py:32 | the smallest key of a set |
| EnvListing.SortKeys | analysis/notebooks/example.py:32 | the keys, each once, in ascending order |
| EnvListing.AscendingUnique | analysis/notebooks/example.py:32 | there is exactly one ascending enumeration of a key set |
| EnvListing.ListVariables | analysis/notebooks/example.py:31-45 | one line per variable, in ascending key order |

## Left out

- `generateSessionId`, the random file ids and `Math.random`: the id is a parameter (`freshId`, `generatedId`).
- The routes import `sessionExists`, `getAllSessions` and `getSessionCount`, which `lib/sessions.ts` does not define. Calling them throws, so as written the process route answers 500 to every request naming a session, and the stats answer is 500 (see "## Findings").
  - The corrected process route takes `sessionExists` as a boolean parameter.
  - The corrected stats answer reports the table's size and omits the session list.
- The process route hands the loaded history and the agent instructions to an `OpenAIWebRTCSession` constructor that takes four parameters, so neither reaches the session. The model computes the history the route loads and logs; the offer exchange that would use it is left out.
- SessionsRoute.SessionInfo: the corrected handlers report the record's `id`, where the source reads `session.sessionId`, a field the record in `lib/sessions.ts` does not have (see "## Findings"); `SessionsRoute.HandleGetAsWritten` keeps the source's behaviour.
- Dates are millisecond integers, not `Date` objects; ISO strings are parameters.
  - Expiry adds `minutes*60000`, so local-time `setMinutes` and DST effects are left out.
  - `createdAt` is reported as a number, not as an ISO string.
- The 5-minute `setInterval` sweep is a timer; the sweep itself is modelled.
- `new URL(..).hostname` is modelled for `scheme://host[:port][/?#…]`, with hosts free of the forbidden domain code points of the WHATWG URL Standard. There is no lower-casing, IDNA, percent-decoding, userinfo, IPv6 or special-scheme handling, and other URLs count as unparsable.
  - In the source, `%` in a host is percent-decoded, `\` ends a special-scheme host like `/`, tabs and newlines are stripped, and non-special schemes allow `%` in opaque hosts; here all of these are unparsable.
- `parseInt` skips only ASCII white space; the source skips Unicode white space too.
- `JSON.parse`, `JSON.stringify` and `request.json()` are parameters. Numbers are integers: no fractions, NaN or `-0`.
- Object properties are own fields only; inherited prototype properties such as `toString` are left out.
- File system errors (`mkdirSync`, `readFileSync` and `writeFileSync` failures, except where a parse fails), directory creation, and the ordering of `readdirSync` are left out. New file names are listed after the existing ones.
- TextLogRoute: the session id goes into a `RegExp` unescaped. Here it is matched as a literal file-name suffix, so ids holding regular-expression metacharacters behave differently in the source. Like the source, the match looks only at the name's ending, so session `<id>` finds the log of a session whose id ends in `_<id>` (TextLogRoute.OtherSessionLogFound).
- LogTextRoute and TextLogRoute.NewLogName: a session id that holds path separators resolves, through `path.join`, to another directory in the source; here it is part of the file name.
- Console, `logger` and `fetch`-based logging, and the OAuth, page, UI and other routes outside the request core, are left out.
- OpenAISessions: `processOffer` and the OpenAI network calls are left out; initialisation failure is a parameter.
- Sdk: the DOM, styles, audio analysis (floating point), volume bars, `localStorage` writes by `_saveSession` and `_initSession`, and `fetch` are left out.
  - Validation and start outcomes are parameters.
  - The `_configureSession` retry loop and the `sessionValidationInProgress` guard are left out.
  - Async interleavings of the handlers are left out; the handlers run one at a time.
  - Sdk.VoiceAI.StartSession: `onStart`, `onEnd` and `onError` callbacks are not modelled.
- `new URL(serverUrl)` in the SDK uses the same URL model, so the SDK accepts fewer server URLs than a browser does.
- EnvLoader.Loaded: python-dotenv keeps values that are already set (it does not override by default). The parsing of the `.env` file is a parameter.
- `key.upper()` is modelled for ASCII letters only.
- EnvListing.VisibleLength: `int(len(value) * 0.3)` is a floating-point product, modelled as `3*len/10` rounded down. The two differ only where a floating-point result just below an integer would be truncated. For lengths up to 33, where the value is not capped at 10, the multiples of ten give 3, 6 and 9 in floating point too.
- The listing's header line and `print` are left out; the lines are returned.

## Findings

| source | as written | input that shows it | evidently intended | confidence | as-written member | corrected member |
|---|---|---|---|---|---|---|
| app/api/v1/sessions/route.ts:112 | `createSession(clientId)` calls `createSession(sessionId, clientId, data = {})` with one argument. The session is stored under the client id with no owner, and the body reads the fields `sessionId` and `clientId`, which the record does not have. | any valid POST, e.g. body `{clientId: "c1"}` with an allow-listed referer | a new session under a fresh id, owned by the client, with that id reported | high (not executed) | SessionsRoute.HandlePostAsWritten, SessionsRoute.PostAsWrittenReplacesSession | SessionsRoute.HandlePost, SessionsRoute.PostCreatesOneSession |
| app/api/v1/sessions/route.ts:39 | The lookup's 200 body reads `session.sessionId`, but the session record's id field is `id`. The value is undefined, so `NextResponse.json` leaves the field out. | `GET /api/v1/sessions?sessionId=s1` with `s1` live | `sessionId: "s1"` in the body | high (not executed) | SessionsRoute.HandleGetAsWritten, SessionsRoute.LookupAsWrittenOmitsId | SessionsRoute.HandleGet, SessionsRoute.LookupReportsId |
| app/api/v1/voice/process/route.ts:29 | `sessionExists` is imported from `lib/sessions.ts`, which does not export it, so the call throws a TypeError, caught as a 500. | any allow-listed request with the key configured and a body naming a session, e.g. `{clientId: "c1", sessionId: "s1"}` | a 404 for an unknown session, and the offer exchange for a live one | medium (not executed; assumes the bundler binds the missing export as undefined) | ProcessRoute.HandleProcessAsWritten, ProcessRoute.ProcessAsWrittenRejectsEverySession | ProcessRoute.HandleProcess, ProcessRoute.ProcessChecksSession |
| app/api/v1/sessions/route.ts:55 | `getSessionCount` and `getAllSessions` are imported from `lib/sessions.ts`, which does not export them, so the stats branch throws and answers 500. | `GET /api/v1/sessions?adminKey=<ADMIN_API_KEY>` | 200 with the session count and list | medium (not executed; assumes the bundler binds the missing export as undefined) | SessionsRoute.HandleGetAsWritten, SessionsRoute.StatsAsWrittenFail | SessionsRoute.HandleGet, SessionsRoute.StatsReportCount |
