# launchpass core, modelled in Dafny

launchpass takes a Stripe checkout webhook and invites the paying user to a
Telegram channel through an MTProto client. This project models the decision
logic around those external calls:

- the MTProto session store (`storage.get/set/remove` in server.js);
- the two `callTelegramApi` adapters: server.js's plain one, and dummy_code.js's
  one with its single `PHONE_MIGRATE` data-center redirect and retry;
- dummy_code.js's `authenticateUser` (`auth.sendCode`, then `auth.signIn`);
- the channel invitation workflow `inviteUserToChannel`;
- the `/webhook` handler and `fulfillCheckout`.

Stripe and the MTProto library are oracles:

- `Mtproto.Client.respond(k, sent)` is the answer to the `k`-th call of the client's life.
- `Webhook.Stripe` holds `constructEvent` and `retrieveSession`.

Every `api.call` is appended to the client's `trace` together with the data
center it went to. Every `checkout.sessions.retrieve` is appended to the server's
`retrievals`. Each state-changing method is tied to a pure function of the old
state: `PlainCall`, `MigratingCall`, `Authenticate`, `InviteCalls`, `Fulfil` and
`Handle`. The lemmas state the workflow's properties about those functions.

Modules, one per component:

- `Wrappers`: `Option` and `Result`.
- `JsText`: the JavaScript `startsWith`, `split` and `parseInt(s, 10)` the redirect parse uses.
- `Mtproto`: the client, its calls and its answers.
- `SessionStore`: the session store.
- `Adapters`: both `callTelegramApi` variants.
- `Auth`: `authenticateUser`.
- `Invitation`: `inviteUserToChannel`.
- `Webhook`: the `/webhook` handler and `fulfillCheckout`.

Three behaviours of the code that the model keeps as written:

- The redirect test is `startsWith("PHONE_MIGRATE")`, not the full pattern "PHONE_MIGRATE_<n>". A message without a number still triggers `setDefaultDc(NaN)` and the retry (`Adapters.MigrateMessageWithoutDc`).
- `get` on a missing file returns `null`, and on a missing key returns `undefined`. The store is therefore not simply "empty" when the file is absent (`SessionStore.GetDistinguishesNullFromUndefined`).
- Nothing deduplicates fulfilment. Two verified fulfilment deliveries naming the same session are fulfilled twice, whether or not they are the same delivery (`Webhook.DuplicateDeliveryFulfilsTwice`).

## Model

| member | source | states |
|---|---|---|
| `SessionStore.Storage.Get` | server.js:22-28 | returns `null` when the file is absent, `undefined` when the stored object lacks the key, and the stored value otherwise |
| `SessionStore.Storage.Set` | server.js:29-36 | the file afterwards holds the old object (or `{}`) with the key assigned; exactly that object is written once |
| `SessionStore.Storage.Remove` | server.js:37-43 | an absent file stays absent and nothing is written; otherwise the key is deleted and the object written once |
| `SessionStore.Assign` | server.js:29-36 | the written object maps the key to the value; its keys are the old keys plus the key (just the key when there was no file); other keys keep their values |
| `SessionStore.Delete` | server.js:37-43 | an absent file stays absent; a present one loses exactly the key and keeps every other entry |
| `SessionStore.GetDistinguishesNullFromUndefined` | server.js:22-28 | every key reads `null` without a file; a missing key reads `undefined` with one; the two answers differ |
| `SessionStore.GetAfterSet` | server.js:22-36 | `get` after `set` returns the value set; other keys read as before, except that on a new file `null` becomes `undefined` |
| `SessionStore.SetOnAbsentFile` | server.js:29-36 | `set` on an absent file creates exactly `{key: value}` |
| `SessionStore.GetAfterRemove` | server.js:22-43 | `remove` on an absent file leaves it absent; on a present one the key reads `undefined` and other keys read as before |
| `SessionStore.RemoveUndoesSet` | server.js:29-43 | removing a key that was just set, and was not there before, restores the original object |
| `Mtproto.Client.constructor` | server.js:47-53 | a new client has the given default data center and an empty trace |
| `Mtproto.Client.Call` | server.js:95 | one call is appended to the trace with the current data center; its answer is returned; the data center is unchanged |
| `Mtproto.MethodNameNamesKind` | server.js:107-143 | the method name passed to `api.call` ("contacts.resolveUsername", "channels.inviteToChannel", "auth.sendCode", "auth.signIn") identifies the kind of request: two requests share a name exactly when they are of the same kind; the "auth.sendCode" and "auth.signIn" calls are at dummy_code.js:45 and dummy_code.js:56 |
| `Mtproto.Client.SetDefaultDc` | dummy_code.js:31 | the default data center becomes the given value (`None` for NaN); nothing is sent |
| `Adapters.CallTelegramApiPlain` | server.js:93-101 | the resulting trace, data center and outcome are those of `PlainCall` |
| `Adapters.PlainCallNeverRetries` | server.js:93-101 | exactly one call is made, to the current data center; its result or error is handed back unchanged; no retry and no data-center change |
| `Adapters.IsMigrate` | dummy_code.js:24 | an error is the redirect signal exactly when it has an `error_message` and "PHONE_MIGRATE" is a prefix of it |
| `Adapters.ParseDc` | dummy_code.js:26 | a data center is named only when the message has a third `_`-separated segment (so contains `_`); its round trip on "PHONE_MIGRATE_<n>" is `Adapters.MigrateMessageNamesDc`, and a bare "PHONE_MIGRATE" naming none is `Adapters.BareMigrateNamesNoDc` |
| `Adapters.CallTelegramApi` | dummy_code.js:19-38 | the resulting trace, data center and outcome are those of `MigratingCall` |
| `Adapters.MigratingCallFirstSuccess` | dummy_code.js:20-22 | if the first call succeeds, its result is returned after exactly one call, and the data center is unchanged |
| `Adapters.MigratingCallRethrows` | dummy_code.js:24-36 | an error with no `error_message`, or one not starting with PHONE_MIGRATE, is rethrown unchanged after one call; no data-center change |
| `Adapters.MigratingCallRedirects` | dummy_code.js:24-34 | on the redirect signal, the data center is set to the parsed number before a second call with the same request; that call's result or error is returned with no further retry |
| `Adapters.MigratingCallAtMostOneRetry` | dummy_code.js:19-38 | for any answers: the old trace is kept; one or two calls are made, all with the caller's request; the data center changes only if two are made |
| `Adapters.AdaptersSideBySide` | server.js:93-101 | the two adapters agree except on the redirect signal: there server.js's hands the PHONE_MIGRATE error to its caller, while dummy_code.js's makes a second call |
| `Adapters.MigrateMessageSegments` | dummy_code.js:26 | a "PHONE_MIGRATE_" message with a separator-free tail splits into "PHONE", "MIGRATE" and the tail, so the tail is segment 2 |
| `Adapters.MigrateMessageNamesDc` | dummy_code.js:24-26 | "PHONE_MIGRATE_<n>" is a redirect signal, and the parse reads exactly `n` back from it |
| `Adapters.BareMigrateNamesNoDc` | dummy_code.js:26 | "PHONE_MIGRATE" has no third segment, so it parses to NaN (`None`) |
| `Adapters.MigrateMessageWithoutDc` | dummy_code.js:24-34 | on a bare "PHONE_MIGRATE" error the adapter still sets the data center (to NaN) and retries once |
| `JsText.Split` | dummy_code.js:26 | `split('_')` returns at least one piece; no piece contains the separator; joining the pieces with it gives back the string |
| `JsText.SplitOfJoin` | dummy_code.js:26 | splitting a join of separator-free pieces gives back those pieces |
| `JsText.TrimStart` | dummy_code.js:26 | `parseInt` skips exactly the leading white space |
| `JsText.DigitPrefix` | dummy_code.js:26 | `parseInt` reads the longest prefix made of decimal digits |
| `JsText.ParseInt` | dummy_code.js:26 | `parseInt(s, 10)` is `NaN` (`None`) exactly when, after leading white space and one optional sign, no digit follows; a negative result needs a leading `-` |
| `JsText.Decimal` | dummy_code.js:26 | the decimal numeral of `n`: non-empty, all digits, without leading zero, and denoting `n` |
| `JsText.ParseIntOfDecimal` | dummy_code.js:26 | `parseInt(s, 10)` reads every decimal numeral back as its number |
| `Auth.AuthenticateUser` | dummy_code.js:41-66 | the resulting trace and data center are those of `Authenticate` |
| `Auth.SignInFollowsSendCode` | dummy_code.js:45-65 | `auth.sendCode` calls come first; `auth.signIn` is made only if sendCode succeeded, and carries exactly the `phone_code_hash` it returned |
| `Invitation.FirstTagged` | server.js:114-116 | the position of the first entry with the tag: it carries the tag and no earlier entry does; `None` when no entry carries it |
| `Invitation.ChannelIn` | server.js:114-121 | the channel found is an entry of the answer's `chats` tagged "channel"; none is found only when the call threw, there are no `chats`, or no entry is tagged "channel" |
| `Invitation.UserIn` | server.js:133-136 | the user found is an entry of the answer's `users` tagged "user"; none is found only when the call threw, there are no `users`, or no entry is tagged "user" |
| `Invitation.ChannelInIsFirst` | server.js:114-116 | the channel found is the first entry of `chats` tagged "channel": every earlier entry carries another tag |
| `Invitation.UserInIsFirst` | server.js:133 | the user found is the first entry of `users` tagged "user": every earlier entry carries another tag |
| `Invitation.InviteUserToChannel` | server.js:104-163 | the resulting trace is `InviteCalls` of the old one; the data center is unchanged; nothing is thrown to the caller |
| `Invitation.InviteCallsShape` | server.js:104-163 | one to three calls; the user is resolved iff a "channel" entry was found; the invite is sent iff a "user" entry was also found; the invite carries those first entries' `id` and `access_hash`; no other call is an invite |
| `Invitation.NoChannelStopsAfterOneCall` | server.js:114-121 | with no "channel" entry (or a failed resolve), the only call is the channel resolve |
| `Invitation.NoUserNoInvitation` | server.js:133-136 | with no "user" entry (or a failed resolve), no invite call is made |
| `Invitation.SelectionSkipsOtherTags` | server.js:114-116 | whatever the answer's `users` and `phone_code_hash`, any number of entries with other tags before the first "channel" entry are skipped, and that entry is selected |
| `Webhook.IsFulfilmentEvent` | server.js:212-215 | only checkout-session events lead to fulfilment, and neither "checkout.session.async_payment_failed" nor "checkout.session.expired" does |
| `Webhook.NeedsFulfilment` | server.js:176 | a "paid" or "no_payment_required" session is fulfilled; the only status that skips fulfilment is "unpaid" |
| `Webhook.Server.FulfillCheckout` | server.js:166-191 | the session is retrieved once; the invitation workflow runs iff the retrieval succeeds and the status is not "unpaid" |
| `Webhook.Server.HandleWebhook` | server.js:193-221 | the response, the retrievals and the trace are those of `Handle` |
| `Webhook.BadSignatureRejected` | server.js:202-210 | on a failed signature check the response is 400; nothing is retrieved and no call is made |
| `Webhook.VerifiedAcknowledged` | server.js:212-219 | a verified event is answered 200; its session is retrieved once iff its type is one of the two checkout types; any other type changes nothing |
| `Webhook.FulfilmentGate` | server.js:170-190 | fulfilment retrieves the session; it runs the invitation workflow with the configured usernames iff the status is not "unpaid" |
| `Webhook.OneFulfilmentPerAcceptedDelivery` | server.js:212-217 | over any sequence of deliveries, the sessions retrieved are exactly those of the verified checkout events, one per delivery and in order |
| `Webhook.DuplicateDeliveryFulfilsTwice` | server.js:176-188 | two verified fulfilment deliveries carrying the same session id (a redelivery with a fresh signature, or "completed" then "async_payment_succeeded") retrieve that session twice; if neither retrieval says "unpaid", the invitation workflow starts twice |

## Left out

- The Express server is not modelled: routing, static files, `/create-checkout-session`, `/session-status` and `app.listen` are HTTP plumbing and Stripe passthrough.
- Stripe's signature check (`stripe.webhooks.constructEvent`) and `checkout.sessions.retrieve` are foreign code. Both are oracles. The `constructEvent` oracle is a function of the payload, the signature and the secret only; the real check also depends on the clock, rejecting a signature whose timestamp is too old, so the same delivery may verify once and fail later.
- The MTProto transport, encryption and the meaning of `api.call` are foreign code. The client answers through the `respond` oracle. The library's own use of the session store is not modelled.
- `fs` and JSON are not modelled: `existsSync`, `readFileSync`, `writeFileSync`, `JSON.parse` and `JSON.stringify`. The file is an optional map, so these are not modelled: a corrupt file, values that `JSON.stringify` drops (such as `undefined`), keys inherited from `Object.prototype` (`get("toString")` returns a function in JavaScript), and the `__proto__` key. Nor is a stored JSON `null`: `get` then returns `null`, the same value it returns when the file is absent, whereas the model's `Found(v)` and `Null` stay distinct.
- Concurrency is not modelled. Two calls are not awaited in the source: `fulfillCheckout(...)` in the `/webhook` handler (server.js:216) and, inside it, the invitation IIFE (server.js:180-188). The model runs both to completion inside the request, so even the session retrieval happens before the 200 is sent, whereas in the source it can finish afterwards. The unlocked whole-file read-modify-write race between requests is not modelled either.
- `Mtproto.Client.SetDefaultDc` takes effect at once. dummy_code.js:31 calls `api.setDefaultDc(newDc)` without `await`, so that the retry goes to the new data center (`Adapters.MigratingCallRedirects`) is an assumption about the library: that `setDefaultDc` switches synchronously, or at least before the next `api.call` is sent.
- A failed `checkout.sessions.retrieve` rejects `fulfillCheckout`'s promise with no handler. Depending on Node's settings, that can terminate the process. The model only records that nothing further happens.
- Console logging is not modelled. `process.env` configuration becomes parameters: `Webhook.Settings` and the phone number.
- dummy_code.js's top-level IIFEs are not modelled (the channel join and the main function). That file's `api` is the abstract `Client` parameter.
- `JsText.ParseInt` does not model `-0` (it becomes `0`), or the loss of precision beyond 2^53 that JavaScript numbers have.
- JavaScript strings are UTF-16 code-unit sequences, but Dafny `char` is a Unicode scalar value. They differ outside the Basic Multilingual Plane, and in lone surrogates (U+D800 to U+DFFF), which a JavaScript string can hold but no Dafny `char` can represent.
- `Mtproto.Entity` always carries an `access_hash`. An entry without one, which would send `undefined`, is not modelled. Neither is an `api.call` that resolves to `null`.
