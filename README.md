# Donor log webhook: a Dafny model

This project models the server side of a small donation site, `server.js`.
The payment provider calls `POST /webhook` with a signed event. The handler
rejects the event if its signature does not verify. For the two event types
it handles, `checkout.session.completed` and `payment_intent.succeeded`, it
extracts a donor name and an amount. It then records `{name, amount, time}`
at the front of a donor log kept in `donors.json`, and trims the log to 200
entries. `GET /donors` returns that log.

The model has four modules:

- `Js` (js.dfy) covers the JavaScript semantics the handler uses: optional
  fields, truthiness, `a || b || fallback`, and `x / 100`, which yields
  `NaN` for `undefined` and 0 for `null`. Amounts are kept in integer minor units. A stored JSON amount
  of `25` is modelled as `2500`.
- `Events` (events.dfy) covers the event payload. It has one field for each
  payload field the handler reads, and every such field may be absent. It also holds the
  name and amount extraction for each handled event type, and the
  `switch (event.type)` dispatch.
- `DonorLog` (donor_log.dfy) covers the record, the prepend-then-cap update
  as a function on sequences, and lemmas about runs of updates. It also has
  the `DonorStore` class. Its `file` field is the state of `donors.json`:
  missing, not parsable as JSON, parsable but not an array, or holding a log. `PrependAndCap` updates that field
  in place.
- `Webhook` (webhook.dfy) covers the two handlers and the file's state after
  one delivery or a run of deliveries. It also proves the cap and
  no-deduplication properties at that level.

Some things in `server.js` are modelled as inputs:

- The result of signature verification is a `Verification` value.
- The ingestion time is a `Timestamp` parameter.
- Whether `writeFileSync` succeeds is a boolean parameter.

`PrependAndCap` returns a flag `saved` that says whether the record was
written. The source only logs this outcome.

Two behaviours of the code are worth noting:

- An unparsable `donors.json` is not treated as empty. `JSON.parse` throws
  at server.js:65, the `catch` logs it, and nothing is written. A file that
  parses to something other than an array fails the same way, at `unshift`
  on server.js:66. `GET /donors` treats the two apart: an unparsable file
  gives 500, and a non-array value is returned as it is, with 200.
- `amount || 0` stores 0 for `undefined`, for `NaN` and for a zero amount.

## Model

| member | source | states |
|---|---|---|
| Js.FirstTruthy | server.js:78 | the result of a JavaScript or-chain ending in a fallback is the first truthy candidate; if no candidate is truthy it is the fallback; a non-empty fallback means the result is never empty |
| Js.Hundredths | server.js:87 | dividing an absent amount by 100 gives `NaN`; dividing `null` gives 0; dividing a number gives that amount; it is never `undefined` |
| Js.AmountOrZero | server.js:66 | the "or zero" default stores a non-zero amount exactly when the amount is a non-zero number; `undefined`, `NaN` and 0 store 0 |
| Events.CheckoutName | server.js:78 | the checkout donor name is the customer name if truthy, else the customer email if truthy, else "Anonymous" |
| Events.CheckoutAmount | server.js:79 | the checkout amount is `amount_total` exactly when `amount_total` is truthy, else `undefined` (never `NaN`) |
| Events.FirstCharge | server.js:85 | there is a charge exactly when `charges`, `charges.data` and a first element all exist; it is then `data[0]` |
| Events.IntentName | server.js:86 | the payment-intent donor name is the first charge's billing name if truthy, else its billing email if truthy, else "Anonymous" |
| Events.IntentAmount | server.js:87 | a truthy charge amount wins; otherwise the intent amount is used; the result is `NaN` exactly when the charge amount is falsy and the intent amount is absent, and 0 when the intent amount is `null` |
| Events.DonationOf | server.js:75-93 | a donation is extracted exactly for the two handled type tags, using that type's extraction, and its name is never empty; every other tag yields nothing |
| Events.IntentWithoutAmountStoresZero | server.js:84-88 | a payment intent with no truthy charge amount and no intent amount gives `NaN`, so 0 is stored |
| Events.CheckoutStoredAmount | server.js:76-81 | the stored checkout amount is `amount_total` when it is a number, and 0 when it is absent or `null` |
| Events.IntentStoredAmount | server.js:83-89 | the stored payment-intent amount is the non-zero charge amount, else the intent amount when it is a number, else 0 |
| DonorLog.Record | server.js:66 | the stored name is never empty: an empty name becomes "Anonymous"; the stored amount is non-zero exactly when the extracted amount is a non-zero number; the time is the one given |
| DonorLog.Prepended | server.js:66-68 | after one update the new record is at index 0; the earlier records follow in their order; the length is min(old length + 1, 200); the old log equals what was kept followed by what was dropped |
| DonorLog.TruncationDropsOldest | server.js:68 | when the log is already full, the update keeps the new record and the 199 newest old records, dropping only the tail |
| DonorLog.CappedAbsorbs | server.js:68 | taking the first 200 entries before prepending more does not change the first 200 entries afterwards |
| DonorLog.ReplayNewestFirst | server.js:66-68 | after any run of updates starting from a log within the cap, the log is the first 200 entries of: the new records newest first, then the old log |
| DonorLog.ReplayBounded | server.js:67-68 | after at least one update, or starting within the cap, the log never holds more than 200 records |
| DonorLog.DonorStore.GetAll | server.js:38-42 | reading gives `[]` when there is no file, the stored log or the stored non-array value when the file parses, and an error when it cannot be parsed |
| DonorLog.DonorStore.PrependAndCap | server.js:62-73 | a missing file or a stored array, with a successful write, ends up holding the prepended and capped log; an unparsable or non-array file, or a failed write, leaves the file unchanged |
| Webhook.Status | server.js:58 | a response is 400 exactly when it is a bad request (a rejected signature), 500 exactly when it is a server error (an unparsable donor file), and 200 for the acknowledgement and for whatever the donor file holds |
| Webhook.HandleWebhook | server.js:49-96 | a rejected signature gives 400 with "Webhook Error: " and the message, and the file is untouched; every verified event is acknowledged even when the write fails; an unhandled type leaves the file untouched |
| Webhook.GetDonors | server.js:36-46 | `GET /donors` returns `[]` without a file, the stored log, or a stored non-array value as it is, all with 200, and 500 "Cannot read donors" for an unparsable file |
| Webhook.DeliveriesReplayWrites | server.js:62-95 | over any run of deliveries to a missing or array file, the log is the old log with exactly the written records prepended in arrival order; rejected, ignored and unsaved deliveries leave no trace |
| Webhook.UnloadableStaysUnchanged | server.js:63-72 | an unparsable or non-array donor file is never overwritten by any run of deliveries |
| Webhook.LogStaysBounded | server.js:67-68 | starting from a log within the cap, no run of deliveries makes the log exceed 200 records |
| Webhook.RedeliveryRecordedTwice | server.js:66-68 | at any log length, delivering the same handled event twice puts two records with its name and amount at the front, followed by the old log up to the cap; there is no deduplication |
| Webhook.JaneExample | server.js:83-89 | with no file, a payment intent whose charge is 2500 minor units billed to "Jane" gives the log `[{Jane, 25, time}]` |

## Left out

- `POST /create-payment-intent` (server.js:19-33) is not modelled. It forwards to the provider's API, and `Math.round` works on a float. Its defaults are amount 5000 and currency `CURRENCY` or `'aud'`.
- checkout.js is not part of this model. It is browser UI: the payment widget, DOM updates and `fetch`.
- Signature verification (`stripe.webhooks.constructEvent`) is the provider library's HMAC check. It is an input to the model: a verified event, or a rejection with the library's message.
- The file system and JSON are left out. The file is abstracted as `DonorFile`. A failed write is modelled as leaving the file as it was, so partially written files are not modelled. A non-array JSON value in the file is kept only as its text.
- The payload is typed. A field of the wrong JSON type is not modelled, such as a numeric name or a string amount. Neither is a fractional `amount_total`, a `null` element in `charges.data`, or an array file whose elements are not donor records.
- Floating-point division by 100 is not modelled. Amounts stay in integer minor units, and `Major(c)` stands for the number `c / 100`.
- Timestamps are opaque strings given as parameters. `new Date().toISOString()` is not modelled.
- Concurrent webhooks are not modelled. The model is sequential, so the race where two requests read, modify and write the same file is not captured.
- Console logging, static file serving, JSON body parsing and the server's startup are left out.
