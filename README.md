# Push notification registry: a Dafny model

This project models the server side of a small web-push application and one
helper of its browser client.

The server keeps two tables: Users and PushSubscriptions. It answers four API
requests:

- `POST /api/users` registers a user. It refuses a blank name or email with
  400. Otherwise it saves the user, and the store assigns the Id.
- `POST /api/push/subscribe` stores a browser's push subscription
  (endpoint, p256dh, auth) for a user. An unknown user gets 404. An endpoint
  that is already stored, under any user, gets 200 "Already subscribed." and
  nothing is written. Otherwise exactly one row is added.
- `POST /api/push/send/{userId}` sends `{title, message}` to every
  subscription of that user. If the user has none, it answers 404. Each
  delivery failure is caught and logged, and the loop goes on. The answer
  counts the subscriptions, not the successes.
- `POST /api/push/broadcast` does the same for every stored subscription. It
  never answers 404, and it reports 0 for an empty store.

The handlers run one after another against an in-memory store: the class
`Registry.PushStore`. Its fields are the two tables and their identity
counters. `Valid()` is the store's invariant:

- identities increase and are fresh;
- every subscription's owner exists;
- no two subscriptions share an endpoint.

The push sender is an oracle. The caller passes in the outcome of each
delivery call, and the send and broadcast handlers return the trace of
attempts: target, payload and outcome.

On the client side, `UrlBase64.UrlBase64ToUint8Array` turns the VAPID public
key from base64url (section 5 of RFC 4648) into bytes. It pads the text with
`=` until its JavaScript length (in UTF-16 code units) is a multiple of four,
switches to the standard alphabet (section 4 of RFC 4648), decodes with the
browser's `atob`, and keeps one byte per character. `atob` is a function
parameter that answers `None` where the browser would throw.

Files:

- `Wrappers.dfy`: `Option`.
- `Models.dfy`: the two entities and their navigation properties.
- `Registry.dfy`: the store, the handlers and the delivery loop.
- `UrlBase64.dfy`: the client key conversion.
- `Scenarios.dfy`: request sequences checked from the handlers' contracts.

## Model

| member | source | states |
|---|---|---|
| `Models.NewUser` | Models/User.cs:5-7 | A new User has no Id yet (0) and empty Name and Email. |
| `Models.NewSubscription` | Models/PushSubscription.cs:5-9 | A new PushSubscription has Endpoint, P256dh and Auth all empty, and no Id or owner yet. |
| `Models.SubscriptionsOf` | Models/User.cs:8 | A user's Subscriptions are exactly the stored rows whose UserId is that user's Id, each as many times as it is stored, so their number is the number of the user's rows. The collection is empty iff no stored row carries that Id. |
| `Models.SubscriptionsOfAppend` | Program.cs:101-103 | Selecting one user's subscriptions keeps store order: the selection distributes over concatenation. |
| `Models.FindUser` | Program.cs:72 | A primary-key lookup finds a stored user with that Id, or answers null iff no stored user has it. |
| `Models.Owner` | Models/PushSubscription.cs:10 | The navigation property User of a subscription is the stored user whose Id is the row's UserId. It is null iff no stored user has that Id. |
| `Models.OwnerIsUnique` | Models/PushSubscription.cs:6-10 | Under the store invariant, each stored subscription has an existing owner. It sits in that owner's Subscriptions and in no other user's. |
| `Registry.AllWhiteSpace` | Program.cs:59 | True iff every character is white space, so also for the empty text. |
| `Registry.IsNullOrWhiteSpace` | Program.cs:59 | True iff the text is null or all white space; the empty text is blank. |
| `Registry.FindByEndpoint` | Program.cs:78 | Finds a stored subscription with the endpoint, or answers null iff no stored row has that endpoint. |
| `Registry.IsWhiteSpace` | Program.cs:59 | Char.IsWhiteSpace: space, tab, line feed and carriage return are white space. Digits, letters, `@` and `.` are not. |
| `Registry.UniqueEndpointCount` | Program.cs:78-82 | With unique endpoints, an endpoint is stored at most once, and exactly once iff the lookup finds it. |
| `Registry.FreshUserHasNoSubscriptions` | Program.cs:63-66 | A user saved under the next identity value owns no stored subscription, so its Subscriptions collection is empty. |
| `Registry.AddUserKeepsInvariant` | Program.cs:63-65 | Saving a user under the next identity value keeps the store invariant. |
| `Registry.AppendKeepsEndpointsUnique` | Program.cs:78-93 | Appending a row whose endpoint the lookup did not find keeps endpoints unique. |
| `Registry.AppendKeepsSubscriptionIds` | Program.cs:92-93 | Appending a row under the next identity value keeps subscription Ids increasing. |
| `Registry.AddSubscriptionKeepsInvariant` | Program.cs:72-93 | Saving a subscription whose owner exists and whose endpoint is new keeps the invariant. The endpoint is then stored exactly once. |
| `Registry.TargetOf` | Program.cs:115 | The delivery target is the stored Endpoint, P256dh and Auth, passed through unchanged. |
| `Registry.DeliverEach` | Program.cs:112-125 | One attempt per subscription, in order, each to that row's endpoint, P256dh and Auth, unchanged. Every attempt carries the same payload, and failures do not stop the loop. |
| `Registry.TraceIgnoresOutcomes` | Program.cs:112-127 | How many attempts are made, their targets and their payloads do not depend on which deliveries fail. |
| `Registry.PushStore.constructor` | Program.cs:12 | The store starts with empty Users and PushSubscriptions tables, and both identity columns start at 1. It satisfies the store invariant. |
| `Registry.PushStore.RegisterUser` | Program.cs:57-67 | A null or blank Name or Email gives 400 and leaves the store unchanged. Otherwise exactly one user is appended with the given Name and Email and a fresh Id that the caller never supplies. The response carries the saved user, which has no subscriptions. Equal input twice gives two users. |
| `Registry.PushStore.Subscribe` | Program.cs:70-96 | An unknown UserId gives 404 and no change, even for a known endpoint. A stored endpoint gives 200 "Already subscribed." and no change. Otherwise one row with the DTO's UserId, Endpoint, P256dh and Auth is appended and users are unchanged. Endpoints stay unique, and each is stored at most once. |
| `Registry.PushStore.SendToUser` | Program.cs:99-128 | With no subscriptions for the user: 404 and no attempt. Otherwise the answer counts the user's subscriptions, and the trace is one attempt per subscription with the `{title, message}` payload, whatever the outcomes. The store is not modified. |
| `Registry.PushStore.Broadcast` | Program.cs:131-152 | Always 200, counting every stored subscription (0 when empty). The trace is one attempt per stored subscription with one shared payload. The store is not modified. |
| `UrlBase64.PaddingLength` | wwwroot/main.js:23 | The number of `=` is 0 to 3, completes a multiple of 4, and is 0 iff the length is already a multiple of 4. |
| `UrlBase64.Utf16Length` | wwwroot/main.js:23 | `.length` counts UTF-16 code units: between one and two per character. It equals the number of characters iff none lies above U+FFFF. |
| `UrlBase64.Utf16LengthAppend` | wwwroot/main.js:23-24 | The UTF-16 length of a concatenation is the sum of the two lengths. |
| `UrlBase64.Utf16LengthSameWidths` | wwwroot/main.js:24 | Replacing characters by ones of the same UTF-16 width keeps the UTF-16 length. |
| `UrlBase64.Repeat` | wwwroot/main.js:23 | `'='.repeat(k)` is k copies of `=`. |
| `UrlBase64.ReplaceAll` | wwwroot/main.js:24 | A global one-character replace keeps the length and changes exactly the matching positions. |
| `UrlBase64.ToStandardBase64` | wwwroot/main.js:23-24 | The text handed to atob is the input followed by 0 to 3 `=`. The `=` count is computed from the input's UTF-16 length, and the result's UTF-16 length is a multiple of 4. Each input character keeps its place, with `-`→`+` and `_`→`/`. No `-` or `_` is left. |
| `UrlBase64.AstralCharacterPadding` | wwwroot/main.js:23 | One character above U+FFFF is two code units long, so it gets two `=`, not three. |
| `UrlBase64.StripAppendedPadding` | wwwroot/main.js:23 | Stripping trailing `=` from a text that did not end in `=` removes exactly the appended padding. |
| `UrlBase64.StandardIsTranslatedPlusPadding` | wwwroot/main.js:23-24 | The text handed to atob is the translated input followed by the padding. |
| `UrlBase64.StandardAlphabetOnly` | wwwroot/main.js:23-24 | URL-safe input gives standard-alphabet characters followed by at most three `=`. |
| `UrlBase64.RoundTrip` | wwwroot/main.js:23-24 | For URL-safe input, removing the padding and mapping back to the URL-safe alphabet gives the input back. |
| `UrlBase64.FirstCodeUnit` | wwwroot/main.js:26 | `charCodeAt(0)` is a 16-bit code unit. It equals the character's code below U+10000. |
| `UrlBase64.CharCodes` | wwwroot/main.js:26 | One byte per character of the decoded string. |
| `UrlBase64.CharCodesOfBinaryString` | wwwroot/main.js:25-26 | On a binary string, as atob returns, each byte equals its character's code, and the bytes spell the string back. |
| `UrlBase64.CharCodesInvertsBinaryString` | wwwroot/main.js:26 | Reading the codes of the binary string of some bytes gives those bytes. |
| `UrlBase64.UrlBase64ToUint8Array` | wwwroot/main.js:22-26 | Fails exactly when atob rejects the padded text. Otherwise it gives one byte per decoded character, and the bytes spell out the decoded binary string. |
| `Scenarios.SendToNewSubscriber` | Program.cs:57-128 | Register Alice, subscribe her at "E1", send "Hi"/"there": one sender call, to "E1", with that payload, answered with count 1 whatever the outcome. |
| `Scenarios.SubscribeSameEndpointTwice` | Program.cs:70-96 | Two users subscribing one endpoint get 201 and then "Already subscribed.". One row for the endpoint remains, and it belongs to the first user. |
| `Scenarios.RegisterTwice` | Program.cs:63-66 | The same name and email registered twice give two users with the same fields and distinct Ids. |
| `Scenarios.UnknownUserWithKnownEndpoint` | Program.cs:72-82 | The user check runs first: an unknown user with a stored endpoint gets 404. |
| `Scenarios.BroadcastToEmptyStore` | Program.cs:131-152 | Broadcast on an empty store makes no attempt and reports 0. |
| `Scenarios.BlankNameRefused` | Program.cs:59-62 | A whitespace-only name gets 400 and registers no one. |

## Left out

- Host bootstrap, dependency injection, Swagger, HTTPS redirection and static files (Program.cs:8-45, 154): framework plumbing with no logic of its own.
- `GET /api/push/key` (Program.cs:51-54): it only returns a configuration value.
- EF Core, SQL Server and `SaveChangesAsync`: the store is two in-memory sequences. Identity columns are counters that start at 1 and are unbounded. The 32-bit overflow of an identity column is not modelled.
- Endpoint equality at Program.cs:78 is evaluated by SQL Server. Its default collation ignores case, and its `=` ignores trailing spaces. The model compares endpoints as exact strings, so it treats endpoints that differ only in case or trailing spaces as different.
- The database returns rows without an ORDER BY, so their order is unspecified. The model uses insertion order for the send and broadcast loops.
- `WebPushClient.SendNotificationAsync`, the VAPID credentials and payload encryption (RFC 8030, RFC 8292, RFC 8291) are foreign calls. They are replaced by the `outcomes` oracle: the i-th call of a request succeeds iff `outcomes[i]` is true, and a missing entry is a failure.
- `JsonSerializer.Serialize`: the payload is the pair (title, message), not its JSON text.
- The logging in the catch blocks: it has no effect on the results.
- Concurrency: requests run strictly one after another. The non-atomic check-then-insert at Program.cs:78-93 cannot race in the model.
- The response texts "n notifications sent." and "n total notifications attempted." are the structured results `Sent(n)` and `Attempted(n)`. The decimal formatting of n is not modelled. The Location header of the 201 for a new user is carried as the saved user.
- Null strings in the subscribe and notification DTOs: those fields are plain strings. Only the registration DTO, whose handler tests for null, has nullable fields.
- The navigation properties `User.Subscriptions` and `PushSubscription.User` are not record fields. They are the functions `Models.SubscriptionsOf` and `Models.Owner` over the stored rows.
- `window.atob` is a browser built-in: it is the parameter `atob` of `UrlBase64.UrlBase64ToUint8Array`. The rest of wwwroot/main.js (DOM, fetch, notification permission, service-worker registration) is client glue and is not modelled, and neither is wwwroot/sw.js.
- `[...rawData]` splits a string into code points. The model's strings are sequences of Unicode scalar values, which matches this, and `UrlBase64.FirstCodeUnit` gives the high surrogate for a code point above U+FFFF. The decoded strings atob returns never contain such characters.
