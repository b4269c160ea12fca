# Push-notification pipeline — a Dafny model

This project models the notification pipeline of a small push-notification
server. The server resolves an audience (one device token, every user, or every
non-subscribed user), fetches the users' device tokens from a Directory Store,
and hands one message to a push transport. It then turns the transport's
success/failure tally into an HTTP response, or logs it when a recurring job
sent the message.

The store and the transport are inputs:

- the store is a snapshot of its tables (`External.Store`); each query answers
  with rows or throws an error;
- the transport is a pair of uninterpreted functions (`External.Transport`).

Every store query and transport call a run makes is recorded, in order, in a
non-ghost trace (`External.Traced`). That is how the model states "is never
called", "exactly one call" and "in this order".

Modules (the service modules follow the source files):

| module | models |
|---|---|
| `Wrappers` | the `Option` and `Result` datatypes |
| `Sequences` | order-preserving subsequences, used to state that a filter keeps order |
| `JsStrings` | JavaScript truthiness of optional strings, `String.prototype.trim`, `IsBlank` |
| `Models` | the rows, requests, messages, transport answers and responses |
| `External` | the store tables and their queries, the transport, the call trace |
| `SupabaseService` | `getAllIds`, `getFcmTokensByUserIds` and the token filter |
| `FirebaseService` | `sendNotification` (validation and fallbacks), `sendNotificationToAll` (short-circuit and multicast) |
| `NotificationController` | the service-layer `sendNotification` and `sendNotificationToAll` handlers |
| `CronService` | one tick of the non-subscribed notifier, and the loop that fires it |
| `Server` | the inline `POST /send-notification` and `POST /send-notification/all` handlers |
| `Scenarios` | worked examples on concrete inputs |

JavaScript truthiness: `!x` and `x || fallback` treat an absent string and
`""` alike. Optional request fields are `Option<string>`, and `Truthy` is
"present and not empty". A token is usable exactly when it is present and not
blank. `JsStrings.IsWhitespace` lists the ECMAScript WhiteSpace and
LineTerminator code points. Apart from the worked examples in `Scenarios`, which need "b" not to be whitespace, no proof depends on which characters are in that list.

Facts about the code that the model follows:

- a missing token is a 400 in `server.ts`, but a 500 through the service-layer
  controller, because the service throws;
- tokens are neither de-duplicated nor split into batches: one multicast
  carries all of them;
- the cron interval is 5 seconds in the code. Here it is a parameter.

## Model

| member | source | states |
|---|---|---|
| JsStrings.TrimStart | src/services/supabaseService.ts:90 | the result is a suffix of the input, everything dropped is whitespace, and it does not start with whitespace |
| JsStrings.TrimEnd | src/services/supabaseService.ts:90 | the result is a prefix of the input, everything dropped is whitespace, and it does not end with whitespace |
| JsStrings.Trim | src/services/supabaseService.ts:90 | `trim()` is empty exactly when the string is blank, and a non-empty result neither starts nor ends with whitespace |
| JsStrings.OrElse | src/services/firebaseService.ts:14-15 | `s || fallback`: the string itself when present and non-empty, the fallback otherwise, so a non-empty fallback always gives a non-empty result |
| SupabaseService.IsUsableToken | src/services/supabaseService.ts:90 | `!!token && token.trim() !== ''` holds exactly when the token is present and not blank |
| SupabaseService.TokenColumn | src/services/supabaseService.ts:89 | `.map(device => device.fcm_token)`: one entry per row, the row's token at the same index |
| SupabaseService.FilterUsableTokens | src/services/supabaseService.ts:88-90 | every returned token is present and not blank, and the output is no longer than the input |
| SupabaseService.FilterCounts | src/services/supabaseService.ts:88-90 | each non-blank token appears in the output exactly as often as in the column, and no blank or absent token appears, so none is dropped, introduced or duplicated |
| SupabaseService.FilterKeepsOrder | src/services/supabaseService.ts:88-90 | the output is an order-preserving subsequence of the token column |
| SupabaseService.FilterIdempotent | src/services/supabaseService.ts:88-90 | filtering an already filtered list returns it unchanged |
| External.MatchingRows | src/services/supabaseService.ts:75-78 | the `.in('user_id', ids)` query returns only rows of listed users, every such row as often as it is stored, in table order |
| External.SelectUsers | server.ts:126-128 | one users query; its rows unchanged, or its error message |
| External.SelectNotSubscribed | src/services/cronService.ts:14 | one non-subscribed-users query; its rows unchanged, or its error message |
| External.SelectDevicesIn | src/services/supabaseService.ts:75-78 | one device query on exactly `userIds`; the listed users' rows, or its error message |
| SupabaseService.TokensComeFromListedUsers | src/services/supabaseService.ts:75-90 | every returned token is non-blank and is stored verbatim on a device whose owner is in `userIds` |
| SupabaseService.ListedUsersTokensSurvive | src/services/supabaseService.ts:75-90 | every usable token on a listed user's device is returned unchanged |
| SupabaseService.TokensFollowRowOrder | src/services/supabaseService.ts:84-90 | at most one token per matching row, in the rows' order |
| SupabaseService.GetFcmTokensByUserIds | src/services/supabaseService.ts:74-91 | one query on exactly `userIds`; a store error is rethrown with no partial result; otherwise the usable tokens of the listed users, empty when no row matches |
| SupabaseService.UserIds | src/services/supabaseService.ts:160 | one id per user row, in row order |
| SupabaseService.GetAllIds | src/services/supabaseService.ts:151-161 | one users query; a store error is rethrown; otherwise exactly one id per row, in row order, with equal length |
| FirebaseService.BuildMessage | src/services/firebaseService.ts:8-19 | no token (absent or empty) fails with "Device token is required"; otherwise addressed to exactly that token, title and body are the request's when non-empty and "Notification" / "You have a new notification" otherwise, data is the request's or `{}` |
| Models.DataOrEmpty | src/services/firebaseService.ts:17 | `data || {}`: the request's data when present, including an empty object, and `{}` otherwise |
| FirebaseService.MulticastFor | src/services/firebaseService.ts:35-42 | the multicast carries title and body verbatim with no fallbacks, `data || {}`, and the token list unchanged |
| FirebaseService.SendNotification | src/services/firebaseService.ts:5-22 | a missing token fails with no transport call; otherwise exactly one send of the built message, whose id or error is returned unchanged |
| FirebaseService.SendNotificationToAll | src/services/firebaseService.ts:24-45 | no tokens gives `{0, 0, []}` with no transport call; otherwise one multicast of the unchanged token list with title and body verbatim, whose answer is returned unchanged; with a well-behaved transport the counts add up to the number of tokens |
| NotificationController.SendNotification | src/controllers/notificationController.ts:28-36 | never a 400: a missing token is a 500 carrying "Device token is required" with no transport call; a transport error is a 500 "Failed to send notification" carrying the transport's message; success returns the transport's message id unchanged |
| NotificationController.SendNotificationToAll | src/controllers/notificationController.ts:39-83 | 400 exactly when title or body is missing, with no query; calls are a prefix of users query, token query on exactly those ids, multicast of the resolved tokens, and each passed guard leads to the next call, so users mean a token query and usable tokens mean one multicast; "No users found" exactly when the users table is empty, after the first query only; no tokens stops before the transport; 500 exactly when a query or the transport throws, and then it is "Failed to send notifications" with the thrown message as details; on dispatch `sentCount`, `failedCount`, `totalTokens`, `responses` are the transport's counts, the token count and its responses |
| NotificationController.NotifyUsers | src/controllers/notificationController.ts:58-82 | after the ids are known: one token query on them, then a multicast exactly when tokens exist; "No valid device tokens found" exactly when none do; a failing query or multicast is "Failed to send notifications" with its message as details; the dispatch fields |
| NotificationController.DispatchAccountsForAllTokens | src/controllers/notificationController.ts:72-78 | with a well-behaved transport, `sentCount + failedCount == totalTokens` and one response per token |
| CronService.UpgradeMessage | src/services/cronService.ts:37-47 | the tick's payload: title "Upgrade to Premium", the fixed body, data `{type: 'subscription_prompt', action: 'upgrade'}`, the tokens unchanged |
| CronService.SendNotificationToNonSubscribedUsers | src/services/cronService.ts:9-53 | calls are a prefix of non-subscribed query, token query on exactly those users' ids in order, upgrade multicast; non-subscribed users always lead to the token query, and usable tokens to the multicast; no users means no token query; no tokens means no dispatch; every store or transport error ends the tick as a logged error, never a throw |
| CronService.NotifyUsers | src/services/cronService.ts:26-47 | after the ids are known: one token query on them, then the upgrade multicast only when tokens exist |
| CronService.StartCronJobs | src/services/cronService.ts:58-67 | firing `k` happens at `firstAt + k * interval` and runs a full tick against the store of that moment, starting with its query, whatever earlier ticks did |
| Server.PostSendNotification | server.ts:91-114 | a missing token is a 400 with no transport call; otherwise exactly one send of the message with the fallbacks, addressed to exactly that token; success returns the message id; a transport error is a 500 "Failed to send notification" carrying the transport's message |
| Server.PostSendNotificationAll | server.ts:117-198 | 400 exactly when title or body is missing, with no query; calls are a prefix of the unfiltered users query, the device query on exactly those ids and the multicast of the usable tokens, and each passed guard leads to the next call; "No users found" exactly when the users table is empty; no matching device rows gives "No device tokens found"; matching rows whose tokens are all blank or absent give "No valid device tokens found"; 500 exactly when a query or the transport throws, and then it is "Failed to send notifications" with the thrown message as details; on dispatch the transport's counts, the token count and its responses |
| Server.NotifyUsers | server.ts:144-197 | after the ids are known: one device query on exactly those ids, then one multicast exactly when usable tokens exist; the two "no tokens" exits, each exactly in its own case; 500 exactly when the query or the transport throws, with "Failed to send notifications" and the thrown message; the dispatch fields |
| Server.SingleSendHandlersAgree | server.ts:91-114 | the inline and service-layer single sends make the same calls and agree, except a missing token is 400 inline and 500 in the controller |
| Server.BroadcastHandlersAgree | server.ts:117-198 | the inline and service-layer broadcasts make the same calls in the same order and give the same response, except "No device tokens found" where the controller says "No valid device tokens found"; so the dispatch fields map as in the controller |
| Server.OnlyEnabledIsIgnored | server.ts:125-128 | the `onlyEnabled` request field does not change the response or the calls |
| Models.Response.Status | src/controllers/notificationController.ts:43-82 | the HTTP code of each response shape: 400 exactly for a bad request, 500 exactly for an internal error, 200 for every success shape |
| NotificationController.BroadcastStatus | src/controllers/notificationController.ts:43-82 | the broadcast answers 400 exactly when title or body is missing, and 500 exactly when a query or the transport throws |
| Server.BroadcastStatus | server.ts:121-197 | the inline broadcast answers 400 exactly when title or body is missing, and 500 exactly when a query or the transport throws |
| Scenarios.SingleSendWithDefaults | src/services/firebaseService.ts:12-19 | `{token: "abc"}` sends to exactly "abc" with title "Notification", body "You have a new notification" and empty data |
| Scenarios.ProspectTokens | src/services/supabaseService.ts:84-90 | a listed user's device without a token is skipped and the other device's token "b" is returned |
| Scenarios.ProspectTick | src/services/cronService.ts:9-53 | a tick on a store with one non-subscribed user queries that user's devices, multicasts the upgrade payload to its one usable token and logs the transport's tally |
| Scenarios.FailingTickDoesNotStopTheNext | src/services/cronService.ts:58-67 | a firing whose store query fails stops after that query, and the firing 5 seconds later still runs the full tick |

## Left out

- The users, subscriptions and user-devices CRUD endpoints and service methods: thin store wrappers with no logic.
- `getProjectId`, the `/test/firebase` handlers, the `/health` route and routing: configuration reads and the wall clock.
- Credential loading and SDK initialisation: environment and file reads.
- The store's query engine: `.in('user_id', ids)` is a filter that keeps table order. A real database may return rows in any order.
- A query that returns neither rows nor an error: the code treats its `null` data like an empty list, and so does the model (it answers with empty rows).
- The non-subscribed-users query: the code calls it but the store service does not define it. It is the `notSubscribed` table of the store snapshot.
- Transport internals, including the 500-token multicast limit: the code sends one multicast with every token, and so does the model.
- `External.WellBehaved`: the transport's count invariant is an assumption the code never checks. The model uses it only as a premise.
- Console logging: a tick's outcome is a value (`CronService.TickOutcome`), and the loop throws it away.
- Scheduling: cron-expression parsing, timer precision, overlapping ticks, and concurrency between ticks and requests. The loop runs the ticks it is given, one after another.
- CronService.StartCronJobs: models a finite run of firings. It cannot model the endless schedule. The store can change between firings, so each firing gets its own snapshot.
