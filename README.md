# Share backend and client helpers, in Dafny

This project models the core of a small "auto share" service. The Node.js
backend (`index.js`) holds five in-memory maps:

- per-user quota records;
- per-user session histories;
- per-user stats;
- per-process logs;
- active processes.

The model covers the backend operations that read and update these maps:

- the quota check `checkRealLimits`;
- the capped process log `addProcessLog`;
- the `/api/share` handler, from validation through the commit of the reserved count, the counting loop and the bookkeeping at the end;
- the deletion done by `/api/clear-data`;
- the "last ten sessions, newest first" view of `/api/process-history`.

On the browser side (`public/script.js`) it models:

- the two newest-first lists capped at 100 entries;
- the speed presets;
- `truncateText`;
- `getLogIcon`;
- the digit branch of `parseNumber`;
- the share total of `updateStats`.

## Layout

| file | module | contents |
|---|---|---|
| wrappers.dfy | Wrappers | `Option` |
| js_values.dfy | JsValues | request fields, truthiness, `parseInt(x, 10)`, `Math.max(1, …)` on the delay; the range check of the limit as written and as intended |
| limits.dfy | Limits | the quota record, the window resets, the three admission rules in order, the commit |
| server_state.dfy | ServerState | the five maps as a value `Store`; every backend operation as a function on it |
| server_lemmas.dfy | ServerLemmas | the log cap and the counting loop, by induction on the iterations |
| handler_lemmas.dfy | HandlerLemmas | each stage of the share handler after the quota check |
| share_lemmas.dfy | ShareLemmas | what the whole share handler answers, charges, records and logs, and the store invariant |
| clear_lemmas.dfy | ClearLemmas | the scope of `/api/clear-data` |
| history_lemmas.dfy | HistoryLemmas | the ten-session view |
| server.dfy | ShareServer | class `Backend`: the maps as fields, updated in place by methods with loops, each proved equal to its function |
| share_tool.dfy | ShareTool | the client helpers; class `Client` with the fields its methods reassign |

The backend runs one request at a time, and every `await` is atomic. The
specification functions in `ServerState` describe what one request does to
the store. The methods of `ShareServer.Backend` perform the same steps in
place and in the source's order: they create the record on first sight,
reset the windows, push and shift the log, increment the counters in the
loop, and delete entries while walking the active processes. Each method's
postcondition says its new state is the one the function gives. The
properties are proved on the functions and so carry over to the class.
`Backend.Valid()` is the store invariant:

- every record is within the hourly and daily caps;
- every reserved share is accounted for as a success or a failure;
- no log holds more than 100 entries.

`Share` and `ClearData` preserve it.

Things the backend takes from outside become parameters (the `Env` datatype):

- the process id, which the source takes from the clock;
- the two clock readings, at the quota check and at the end of the run;
- the token extracted from the cookie, with `""` standing for `null`;
- the result of the i-th call to the third party's share endpoint.

## Model

| member | source | states |
|---|---|---|
| Limits.ResetWindows | index.js:66-74 | The hourly counter is zeroed and its anchor set to `now` exactly when strictly more than 3600000 ms have passed, otherwise both are untouched; the same holds for the daily window with 86400000 ms; neither reset touches the other window, the lifetime counters or the last share time; afterwards both windows are current |
| Limits.ResetIdempotent | index.js:66-74 | A second reset at the same instant changes nothing |
| Limits.Decide | index.js:77-93 | The request is allowed exactly when it breaks none of the three rules; a denial names a rule the request breaks, and every rule checked before it passes (per request > 50, then hourly > 200, then daily > 1000) |
| Limits.Commit | index.js:236-239 | The reserved count is added to the day, hour and lifetime counters and nothing else changes; after an allowed decision the hourly and daily caps still hold |
| Limits.Fresh | index.js:51-60 | No contract of its own. It is the record a user gets on first sight: every counter 0, last share time 0, both anchors at `now`. `ServerState.CheckLimits` states that a new user's record is this one after the window resets |
| Limits.Message | index.js:83-93 | No contract of its own. These are the three denial texts, with the caps 50, 200 and 1000 written out. `Limits.MessageNamesRule` states that they are distinct |
| ServerState.CheckLimits | index.js:46-94 | Only the user's record changes. It becomes the stored record, or on first sight a fresh one with every counter 0 and both anchors at `now`, with its elapsed windows reset. The decision is taken on that reset record. Every other record and map is untouched |
| ServerState.UserId | index.js:24-26 | No contract of its own. It defines the user key as the cookie's first 100 characters (see `ServerState.UserId` under Left out). `ServerLemmas.LimitKeyInjective` and the clear lemmas use it |
| ServerState.Prefix | index.js:206 | No contract of its own. It is `substring(0, n)`, used for the post link (50 characters) here and for the token (15) at index.js:233. `ShareLemmas.ShareRejectedLog` and `ShareLemmas.ShareFinishedLog` state the log entries that carry it; `ServerState.Prefix` under Left out gives the code-point gap |
| ServerState.Newest | index.js:117-120 | No contract of its own. It keeps the newest 100 entries of a sequence. `ServerLemmas.NewestIsSuffix` and `ServerLemmas.NewestOfNewest` state what it keeps |
| ServerState.AppendCapped | index.js:108-120 | No contract of its own. It pushes one entry, then shifts once past 100. `ServerLemmas.AppendCappedNewest` ties it to `Newest` |
| ServerState.AddLog | index.js:97-123 | Adding a log entry leaves quotas, stats and processes alone and gives the user an empty history if they have none |
| ServerLemmas.AddLogEffect | index.js:97-123 | The process's log becomes the old log with the entry pushed and the oldest dropped past 100; the log key is created on demand; other logs are unchanged; the cap of 100 is preserved |
| ServerLemmas.AppendCappedNewest | index.js:108-120 | On a log within the cap, push-then-shift keeps exactly the newest 100 entries in insertion order, the new one last |
| ServerLemmas.NewestIsSuffix | index.js:117-120 | The kept entries are a suffix of everything logged, of length min(n, 100) |
| ServerLemmas.LogKeyInjective | index.js:98 | Distinct process ids have distinct log keys |
| ServerLemmas.LimitKeyInjective | index.js:48 | Distinct users have distinct quota keys |
| ServerLemmas.CountsAfter | index.js:242-281 | After k iterations: successes + failures = k, successes = the number of successful calls, `results` holds k entries with indices 1..k in order, each with its call's result, and a wait happened before every iteration but the first exactly when the delay is a positive number |
| ServerLemmas.LoopLimits | index.js:272-280 | The loop adds exactly the successes to `successfulShares` and the failures to `failedShares`, and changes no other field and no other record |
| ServerLemmas.LoopFrame | index.js:248-281 | The loop leaves stats and history alone and sets the active entry's `current` to the iteration count, if the entry is still there |
| ServerLemmas.LoopLog | index.js:263-279 | The loop logs, per iteration, the attempt and then its outcome (success or failure with the error), keeping the newest 100 |
| ServerState.OpenProcess | index.js:193-208 | No contract of its own. It registers the process as processing with `current` 0 and writes the three opening log entries. `ShareLemmas.ShareRejectedLog`, `ShareLemmas.ShareFinishedLog` and `ShareServer.Backend.OpenShareProcess` state its effect |
| ServerState.Abandon | index.js:212-229 | No contract of its own. It logs the failure and deletes the active entry. `ShareLemmas.ShareRejected` states its effect |
| ServerState.BeginSharing | index.js:233-246 | No contract of its own. It logs the token prefix, adds the limit to the three counters and logs the start. `ShareLemmas.ShareFinishedQuota` and `ShareServer.Backend.StartSharing` state its effect |
| ServerState.RecordOutcome | index.js:272-280 | No contract of its own. It counts one call's outcome on the record and logs it. `ServerLemmas.LoopLimits` and `ServerLemmas.LoopLog` state its effect over the loop |
| ServerState.MarkCurrent | index.js:251-255 | No contract of its own. It sets `current` on the process's active entry when the entry is still there. `ShareServer.Backend.MarkProgress` and `ServerLemmas.LoopFrame` state its effect |
| ServerState.Loop | index.js:248-281 | Only that the user's record stays present. The store after k iterations; `ServerLemmas.LoopLimits`, `ServerLemmas.LoopFrame` and `ServerLemmas.LoopLog` state what it changes |
| ServerState.Counts | index.js:244-281 | No contract of its own. These are the loop's local tallies after k iterations; `ServerLemmas.CountsAfter` states them |
| ServerState.Finish | index.js:283-346 | No contract of its own. It stamps the time, appends the session, stores the stats, logs the completion, marks the process completed and builds the response. `ShareLemmas.ShareFinished`, `ShareLemmas.ShareFinishedHistory` and `ShareLemmas.ShareFinishedStats` state its effect |
| ServerState.HandleShare | index.js:170-352 | No contract of its own; it is the whole handler. The `ShareLemmas` rows below state its answers, charges, history, stats, processes and logs, and `ShareLemmas.ShareKeepsInvariant` states the invariant |
| ServerState.MissingRequired | index.js:176 | No contract of its own. It is `!cookie \|\| !post_link \|\| !limit`. `ShareLemmas.ShareResponses` states that it holds exactly when the missing-parameters answer is given |
| ServerState.RequestedCount | index.js:176-191 | No contract of its own. It is the share count of a request that passes both validation steps. `ShareLemmas.ShareResponses` states that it is absent exactly when one of the two refusals is given, and `JsValues.LimitValue` states its range |
| ServerState.ClearUser | index.js:591-605 | No contract of its own. It deletes the user's record, history and stats, and each of the user's active processes with its log. `ClearLemmas.ClearRemovesUser` and `ClearLemmas.ClearKeepsOthers` state it |
| ServerState.HandleClear | index.js:580-605 | No contract of its own. It checks the confirmation, then clears. `ClearLemmas.ClearResponses` states it |
| ServerState.RecentSessions | index.js:403 | No contract of its own; it is `slice(-10).reverse()`. `HistoryLemmas.RecentSessionsSpec` states it |
| ShareLemmas.ShareResponses | index.js:176-352 | Missing cookie, link or limit gives the missing-parameters answer; otherwise a limit that is not a whole number in 1..50 gives the range answer; otherwise a denial answers with the first broken rule; otherwise a missing token answers with the token failure; and only then does the run finish (each as an if-and-only-if) |
| ShareLemmas.ShareInvalidUnchanged | index.js:176-191 | A request refused by validation creates or changes nothing and waits for nothing |
| ShareLemmas.ShareRejected | index.js:197-231 | A request denied by the quota check or lacking a token is not charged (the record only gets its window resets), the stats are unchanged, the process is no longer active, only its own log was written, and no wait happened |
| ShareLemmas.ShareRejectedLog | index.js:205-225 | The refused process's log: the three opening entries, then the denial or the token entries |
| ShareLemmas.ShareFinished | index.js:236-352 | A finished run reports `total = limit`, successes = the number of successful calls, successes + failures = limit, the results in order, the charged day and hour counters with their remaining quota (never negative), and a wait before every call but the first (none when the delay is not a number) |
| ShareLemmas.ShareFinishedQuota | index.js:236-284 | A finished run charges the reset record with the limit, credits each success and failure, stamps the finishing time, stays within the caps, and touches no other user's record |
| ShareLemmas.ShareFinishedHistory | index.js:287-305 | A finished run appends its session (id, link, limit, delay, counts, results) to the user's history |
| ShareLemmas.ShareFinishedStats | index.js:308-315 | A finished run stores the user's lifetime total, successful and failed counts as the stats |
| ShareLemmas.ShareFinishedProcess | index.js:197-203 | The finished process ends completed with `current = total = limit` and the run's counts; every other process is unchanged |
| ShareLemmas.ShareFinishedLogs | index.js:205-321 | A run writes only its own log, and every log stays within 100 entries |
| ShareLemmas.ShareFinishedLog | index.js:205-321 | The finished process's log is the newest 100 of: the opening entries, the token and start entries, two entries per call, and the completion entry |
| ShareLemmas.ChargedSound | index.js:236-281 | After the run, `successfulShares + failedShares` grew by exactly the limit, as `totalShares` did, and the caps hold if the request was admitted |
| ShareLemmas.ShareKeepsInvariant | index.js:170-352 | Every share request keeps every record within the caps and balanced, and every log within 100 entries |
| ClearLemmas.ClearResponses | index.js:584-589 | Without a cookie or without the word DELETE nothing changes; otherwise the user is cleared |
| ClearLemmas.ClearRemovesUser | index.js:591-605 | Afterwards the user has no quota record, history or stats, no active process, and no log of a process that was active for them |
| ClearLemmas.ClearKeepsOthers | index.js:591-605 | Every other user's record, history and stats, every other user's process, and every log that did not belong to one of the user's processes survive unchanged |
| ClearLemmas.ClearKeepsInactiveLogs | index.js:600-605 | The log of a process that is no longer active survives a clear |
| ClearLemmas.ClearIdempotent | index.js:591-605 | Clearing twice is clearing once |
| ClearLemmas.ClearKeepsInvariant | index.js:580-605 | Clearing keeps the invariant |
| Limits.MessageNamesRule | index.js:83-93 | The three denial messages are distinct, so the answer identifies the broken rule |
| HistoryLemmas.ReversedIndex | index.js:403 | `reverse()` keeps the length and puts element `|s|-1-j` at index j |
| HistoryLemmas.ReversedTwice | index.js:403 | Reversing twice gives the sequence back |
| ServerState.Reversed | index.js:403 | No contract of its own. It is `reverse()`. `HistoryLemmas.ReversedIndex` and `HistoryLemmas.ReversedTwice` state it |
| HistoryLemmas.RecentSessionsSpec | index.js:403 | The view holds min(10, n) sessions, the most recent first |
| JsValues.DigitPrefix | index.js:183 | `parseInt` reads the longest run of digits: every character of it is a digit, it is a prefix, and the next character is not a digit |
| JsValues.ParseInt | index.js:183 | No contract of its own. This is `parseInt(s, 10)`: it skips leading white space, takes an optional sign, then the longest run of digits, and gives NaN when there is none. The lemmas below state what it reads |
| JsValues.Falsy | index.js:176 | No contract of its own. It is JavaScript's `!` on a request field: true for `undefined`, `null`, the empty string and 0. `ShareLemmas.ShareResponses` states the answer it leads to, through `ServerState.MissingRequired` |
| JsValues.ParseIntDecimal | index.js:183 | `parseInt` reads back the decimal text of every natural number |
| JsValues.ParseIntNegative | index.js:183 | `parseInt` reads back the decimal text of every negative number, with its minus sign |
| JsValues.ParseIntSkipsSpace | index.js:183 | Leading white space never changes what `parseInt` reads |
| JsValues.ParseField | index.js:174-183 | `parseInt` parses the string conversion of the field. An absent field parses as "undefined" and `null` as "null", so both give NaN. A string field is parsed as it stands. A JSON integer parses as its decimal text, with a minus sign when negative, and reads back as itself |
| JsValues.DelayOf | index.js:174-184 | An absent delay takes the default 1. A present delay that parses to a number v gives max(1, v). One that parses to NaN stays NaN. So the delay is always NaN or at least 1 |
| JsValues.LimitValue | index.js:186-191 | The limit is accepted exactly when it is a whole number in 1..50, and then it is that number |
| JsValues.LimitValueAgreesOnNumbers | index.js:186 | On numbers the intended check and the written one agree; they differ only on NaN |
| JsValues.NonNumericLimitPassesAsWritten | index.js:183-186 | The limit "abc" parses to NaN and passes the range check as written |
| JsValues.NaNLimitVoidsQuotaAsWritten | index.js:84-91 | With JavaScript numbers, a user at the full hourly and daily quota is still admitted with a NaN limit; the commit turns both counters into NaN, after which a request for 50 shares is admitted too |
| ShareServer.Backend.constructor | index.js:16-22 | A started server holds no data and satisfies the invariant |
| ShareServer.Backend.AddProcessLog | index.js:97-123 | The method returns the new entry and leaves exactly the state of `AddLog` |
| ShareServer.Backend.CheckRealLimits | index.js:46-94 | The method leaves exactly the state and decision of `CheckLimits` |
| ShareServer.Backend.OpenShareProcess | index.js:193-208 | Registering the process and writing its three opening entries leaves exactly the state of `OpenProcess` |
| ShareServer.Backend.AbandonProcess | index.js:212-229 | Logging the failure and deleting the active entry leaves exactly the state of `Abandon` |
| ShareServer.Backend.StartSharing | index.js:233-246 | Logs the token, commits the reserved count, and logs the start, exactly as `BeginSharing` |
| ShareServer.Backend.MarkProgress | index.js:251-255 | Setting `current` on the active entry, when present, leaves exactly the state of `MarkCurrent` |
| ShareServer.Backend.CountOutcome | index.js:272-280 | Counting the call on the record, then logging it, leaves the state of `RecordOutcome` |
| ShareServer.Backend.ShareLoop | index.js:248-281 | The loop's local tallies equal `Counts` and the store equals `Loop`, iteration by iteration |
| ShareServer.Backend.CompleteProcess | index.js:283-352 | The bookkeeping after the loop and the response are those of `Finish` |
| ShareServer.Backend.Share | index.js:170-352 | The handler's new state, response and waits are those of `HandleShare`, and the invariant is kept |
| ShareServer.Backend.DropProcessesOf | index.js:598-604 | Walking the active processes deletes exactly the user's processes and their logs, and nothing else |
| ShareServer.Backend.ClearData | index.js:580-605 | The new state and the response are those of `HandleClear`, and the invariant is kept |
| ShareServer.Backend.RecentHistory | index.js:403 | The view holds the user's ten most recent sessions, all of them if there are fewer, the most recent first |
| ShareTool.PrependCapped | public/script.js:1130-1134 | The new entry is at index 0, the previous entries follow in their order shifted by one, and the length is min(n + 1, 100) |
| ShareTool.PrependCappedKeeps | public/script.js:1130-1134 | On a list within the cap, the old list is the new one's tail; at the cap, minus its oldest entry |
| ShareTool.Client.SaveLogToStorage | public/script.js:1125-1137 | The logs become `PrependCapped` of the old ones; nothing else changes |
| ShareTool.Client.AddHistory | public/script.js:1225-1235 | The history becomes `PrependCapped` of the old one with the entry stamped with the clock reading |
| ShareTool.Client.SetSpeed | public/script.js:294-302 | The settings become the preset of the key |
| ShareTool.SpeedFor | public/script.js:294-302 | No contract of its own. It is the preset table with the balanced fallback. `ShareTool.SpeedForMode` and `ShareTool.SpeedPresetsOrdered` state it |
| ShareTool.SpeedForMode | public/script.js:294-302 | A known key selects its own preset; any other key selects the balanced one (2000 ms, 5) |
| ShareTool.SpeedPresetsOrdered | public/script.js:295-300 | From safe to turbo, the batch delay strictly decreases and the batch size strictly increases |
| ShareTool.TruncateText | public/script.js:1433-1437 | Empty text gives ''; text within the limit is unchanged; longer text gives its first `maxLength` characters followed by '...', of length `maxLength + 3` |
| ShareTool.TruncateTextIdempotent | public/script.js:1433-1437 | The result is at most `maxLength + 3` long, and truncating it again at that length changes nothing |
| ShareTool.GetLogIcon | public/script.js:1115-1123 | No contract of its own. It is the icon table with the info fallback. `ShareTool.GetLogIconCases` states it |
| ShareTool.GetLogIconCases | public/script.js:1115-1123 | Success, error and warning each get their own icon, and only they do; every other type, known or not, gets the icon of 'info' |
| ShareTool.OnlyDigits | public/script.js:1068 | Stripping the non-digits leaves only digits and never lengthens the text. On one character it keeps a digit and drops anything else |
| ShareTool.OnlyDigitsAppend | public/script.js:1068 | The global replace works character by character: the digits of a concatenation are the digits of each part, in order. With the one-character case this fixes `OnlyDigits` on every string |
| ShareTool.ParseDigits | public/script.js:1064-1068 | No contract of its own; it is `parseInt(digits) \|\| 1`. `ShareTool.ParseDigitsValue` and `ShareTool.ParseDigitsDecimal` state it |
| ShareTool.ParseDigitsValue | public/script.js:1064-1068 | The digit branch yields the value of the input's digits read in order, or 1 when there is no digit or the value is 0; so always at least 1 |
| ShareTool.ParseDigitsDecimal | public/script.js:1064-1068 | The decimal text of a positive number takes the digit branch and parses back to the number |
| ShareTool.HasSuffixLetter | public/script.js:1065-1067 | No contract of its own. It tests whether the lower-cased text contains 'k' or 'm', the condition that selects the floating-point branches. `ShareTool.ParseDigitsDecimal` states that the decimal text of a count never selects them |
| ShareTool.TotalShares | public/script.js:1324-1325 | No contract of its own; it is the reduce, with `\|\| 0`. The three lemmas below state it |
| ShareTool.CountOf | public/script.js:1324-1325 | No contract of its own. It is `entry.count \|\| 0`. `ShareTool.TotalSharesIsSum` and `ShareTool.TotalSharesBounds` state the total it adds up to |
| ShareTool.TotalSharesAppend | public/script.js:1324-1325 | The total of a concatenation is the sum of the totals |
| ShareTool.TotalSharesIsSum | public/script.js:1324-1325 | The left fold equals the sum of the counts taken from the front, a missing count counting 0 |
| ShareTool.TotalSharesBounds | public/script.js:1324-1325 | With no negative count the total is non-negative and at least every single count |
| ShareTool.TotalAfterPrepend | public/script.js:1225-1235 | A new history entry adds its count to the total as long as the cap drops nothing |

## Left out

- Network calls: `extract_token` and `realShare` are calls to a third-party API with regex scraping of the response. They appear only as the parameters `Env.token` and `Env.share`.
- The user-agent choice with `Math.random` is left out.
- Express routing, JSON bodies and responses, `console` output, and the status endpoint are left out: they are I/O.
- `getUserId` base64-encodes the UTF-8 bytes of the first 100 characters of the cookie. The model keys users by those characters themselves. That is faithful as long as the cut does not split a surrogate pair (see `ServerState.UserId` next).
- ServerState.UserId counts the cookie's length in Unicode code points. JavaScript's `length` and `substring` count UTF-16 code units, and so does `getUserId`. When the 100th code unit is the high half of a surrogate pair, `substring` cuts the pair, and `Buffer` turns the lone half into U+FFFD. Two cookies that share their first 99 units and differ only in that astral character then share one quota bucket in the source. The model keeps them apart.
- ShareTool.TruncateText counts `maxLength` in Unicode code points, not in UTF-16 code units as `length` and `substring` do. Each character outside the Basic Multilingual Plane counts 2 in the source. The source therefore cuts such text earlier than the model and may split a surrogate pair; the model never splits a character.
- ServerState.Prefix, the `substring(0, n)` of the post link and the token in the log messages, counts code points in the same way.
- Timestamps, `toISOString`, `startTime`, `endTime`, `completedAt`, `totalTime`, the `progress` percentage and every success rate are left out. These are clock and floating-point values.
- Log messages are structured values carrying the numbers and prefixes the source interpolates, not the formatted text with its emoji.
- The entry that the share handler puts into `activeProcesses` is modelled with the fields the handler later reads or writes: user, status, `current`, total and the two counts.
- Concurrency is left out. In the source, two requests can interleave at an `await`, and a clear-data call can run while a share loop holds a reference to the user's record; the model runs each request to completion.
- The `catch` branch of the share handler is left out: it logs an error under a new process id.
- Inputs that make the source throw are not modelled, such as a cookie that is not a string.
- Request fields are absent, `null`, strings or integer numbers. Fractional numbers, booleans, arrays and objects are not modelled.
- Numbers are unbounded integers. Values beyond 2^53, where JavaScript numbers lose precision, are not modelled.
- The rest of `/api/process-history` is left out: the per-process log listing, its sort by start time, and the slices of 20 and 5. Only `slice(-10).reverse()` of the history is modelled.
- For `public/script.js`, `localStorage` reads and writes are left out, and so are the DOM, toast, animation, `EventSource` and the `startSharing` simulation.
- `saveLogToStorage` and `addHistory` check `Array.isArray`. The model's fields are always lists, so that check is left out.
- `parseNumber`'s `k`/`m` branches are left out: they use `parseFloat`. The digit branch is `ShareTool.ParseDigits`. Lower-casing is considered only for the ASCII letters K and M.
- ShareTool.SpeedFor: JavaScript would also find inherited keys such as "toString" in the `speeds` object. The model treats every key other than the four presets as unknown.
- ShareTool.GetLogIcon: the glyphs are named by the `Icon` datatype instead of being given as strings.
- ServerState.RecordOutcome writes the outcome's log entry before incrementing the counter; the source increments first. The two touch different maps, so the resulting states are equal. `ShareServer.Backend.CountOutcome` follows the source order and is proved to reach the same state.
- ServerState.HandleShare checks the limit range with the intended `LimitValue`, not the written comparison; see Findings.
- `public/app.js` is not part of this model.

## Findings

| source | as written | input that shows it | evidently intended | confidence | as-written member | corrected member |
|---|---|---|---|---|---|---|
| index.js:183-191 | `limitNum < 1 \|\| limitNum > 50` is false for NaN, so a limit that is not a number passes validation. In `checkRealLimits` every comparison with NaN is false, so it is admitted. The commit then turns the user's day, hour and lifetime counters into NaN. Every later hourly and daily check passes until that window's reset at index.js:66-74 sets the counter back to 0, and the lifetime `totalShares` stays NaN for good | `limit: "abc"` from a user who has used the full hourly and daily quota | only whole numbers from 1 to 50 pass, so the caps keep holding | not executed | JsValues.NonNumericLimitPassesAsWritten, JsValues.NaNLimitVoidsQuotaAsWritten | JsValues.LimitValue (used by ServerState.HandleShare; hence ShareLemmas.ShareKeepsInvariant) |
