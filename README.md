# Stripe webhook handler — a Dafny model

This project models `stripeWebhook` (`Controllers/webhookController.js`), the
Express handler that accepts Stripe event notifications. It checks that the
`stripe-signature` header and the endpoint secret are present. It prepares the
request body and has Stripe verify it. It then turns a verified
`payment_intent.succeeded` or `charge.succeeded` event into a saved Order and,
when the payment names one, marks a CustomPlan as paid. Once an event is
verified the handler always acknowledges it with `200 {received: true}`,
whatever the store does.

Layout, one module per component of the handler:

- `js_values.dfy` (`JsValues`): the JavaScript semantics the handler relies
  on. `undefined`/`null` are `None`. A string is truthy when it is present and
  non-empty. Template literals print a missing value as `undefined`. The
  request body is one of four shapes: string, Buffer, parsed JSON, or another
  `typeof`.
- `stripe_events.dfy` (`StripeEvents`): the verified event, dispatch on its
  type tag (`KindOf`), and normalisation of both payload shapes into one
  `PaymentData` record (`Normalise`).
- `orders.dfy` (`Orders`): the metadata lookups, the price, and the Order
  document (`BuildOrder`), plus the CustomPlan the payment settles.
- `persistence.dfy` (`Persistence`): the store's contents (`Db`), and a
  `Store` class whose `orders` and `plans` fields are updated in place by
  `Save` and `FindByIdAndMarkPaid`. Either write can fail.
- `webhook.dfy` (`WebhookController`): the handler in two forms.
  `Webhook`, with its helpers `Dispatch` and `Project`, is a function from the
  store's contents and the request to an `Outcome`: the response, the new
  contents and the external calls made, in order. `StripeWebhook` is the
  handler as step-by-step code over a `Store`, with the source's early returns.
  It is proved to produce exactly `Webhook`'s outcome. The lemmas state the
  response codes, which writes happen, their order, and that nothing else
  changes. Both forms use the corrected catch block (see Findings).
- `deliveries.dfy` (`Deliveries`): several deliveries handled one after
  another (`Replay`). Saved orders are never lost. Redelivery duplicates
  orders. The two success events of one payment save two orders.
- `webhook_findings.dfy` (`WebhookFindings`): the catch block as written, and
  the input on which it sends no reply (see Findings).

Collaborators the model cannot see are parameters. They sit in the `Env`
record: the configured secret (`Option<string>`), `JSON.stringify`, and
`stripe.webhooks.constructEvent`, which returns an `Event` or throws with a
message. Whether each store write fails is the `Faults` parameter.

## Model

| member | source | states |
|---|---|---|
| `JsValues.OrNull` | Controllers/webhookController.js:89-90 | a falsy id becomes null and any other id is kept as it is |
| `JsValues.Interpolated` | Controllers/webhookController.js:92 | a template literal prints a present string as itself and a missing one as `undefined` |
| `StripeEvents.KindOf` | Controllers/webhookController.js:60-65 | exactly the two tags `payment_intent.succeeded` and `charge.succeeded` are success events; every other tag is ignored |
| `StripeEvents.Normalise` | Controllers/webhookController.js:63-73 | a data object always gives payment data, and a missing one never does; metadata and amount are copied; the id is the intent's own id, but for a charge it is the charge's `payment_intent` |
| `Orders.Lookup` | Controllers/webhookController.js:77-84 | a metadata read is defined exactly when the key is present, and then gives its value |
| `Orders.PriceOf` | Controllers/webhookController.js:80 | the price is parsed from `metadata.amount` exactly when that value is truthy; otherwise it is the minor-unit amount divided by 100 (times 100 it gives the amount back), or NaN when the amount is missing |
| `Orders.BuildOrder` | Controllers/webhookController.js:77-99 | the Order is created `succeeded`/`completed` and carries the payment's id; service and plan are null exactly when their ids are falsy; it has the user, names, description and price from the metadata |
| `Orders.CustomPlanTarget` | Controllers/webhookController.js:84-103 | a plan is touched exactly when `customPlanId` is truthy, and it is that id |
| `Persistence.MarkPaid` | Controllers/webhookController.js:104-106 | the update sets only that plan's `paymentStatus` to `paid`; other plans and other fields are unchanged; no plan is added |
| `Persistence.MarkPaidIdempotent` | Controllers/webhookController.js:103-108 | marking a plan paid twice is the same as once |
| `Persistence.Store.Save` | Controllers/webhookController.js:101 | a successful save appends the Order; a failed one changes nothing; plans are untouched |
| `Persistence.Store.FindByIdAndMarkPaid` | Controllers/webhookController.js:104-106 | a successful update applies `MarkPaid`; a failed one changes nothing; orders are untouched |
| `WebhookController.Rejection` | Controllers/webhookController.js:53 | an error reply is 400 with `Webhook Error: ` followed by the error's message |
| `WebhookController.ToPayload` | Controllers/webhookController.js:31-41 | a string or Buffer body is passed on unchanged; an object body is passed as its `JSON.stringify` text; any other type fails with `Unexpected body type: <typeof>` |
| `WebhookController.VerifiedEvent` | Controllers/webhookController.js:14-54 | an event is verified only when both the header and the secret are truthy |
| `WebhookController.StripeWebhook` | Controllers/webhookController.js:11-118 | the step-by-step handler gives exactly the response, new store and call sequence of `Webhook` (corrected catch block; see Findings) |
| `WebhookController.MissingSignatureRejected` | Controllers/webhookController.js:14-19 | a missing or empty signature gives 400 `No Stripe signature found`, even without a secret; no verification and no write |
| `WebhookController.MissingSecretRejected` | Controllers/webhookController.js:21-24 | with a signature but no secret the reply is 500 `Webhook secret not configured`; no verification and no write |
| `WebhookController.BodyHandedToVerification` | Controllers/webhookController.js:31-47 | verification receives a string or Buffer body unchanged and an object body re-encoded; any other body gets 400 with no verification and no write (corrected catch block; see Findings) |
| `WebhookController.VerificationFailureRejected` | Controllers/webhookController.js:47-54 | a failed verification gives 400 `Webhook Error: <message>` after exactly one verification call; the store is unchanged |
| `WebhookController.AcknowledgedIffVerified` | Controllers/webhookController.js:11-118 | the reply is 200 `{received: true}` if and only if the event was verified, whatever the store does; 500 if and only if the secret alone is missing; no other status occurs (corrected catch block; see Findings) |
| `WebhookController.UnhandledEventIgnored` | Controllers/webhookController.js:58-118 | a verified event of any other type is acknowledged; the store is unchanged and the only call is the verification |
| `WebhookController.SuccessEventWithoutObjectIgnored` | Controllers/webhookController.js:58-118 | a success event without a data object throws before the save; the error is swallowed, the event is acknowledged and nothing is written |
| `WebhookController.PaymentProjected` | Controllers/webhookController.js:58-118 | a success event saves exactly one Order, built from the normalised data; the plan update runs only after a successful save and only for a truthy `customPlanId`; a failed update keeps the saved Order; the reply is always 200 |
| `WebhookController.WritesAndTheirOrder` | Controllers/webhookController.js:47-108 | calls are made in the order verify, save, update, each only after the previous one (the update only after a successful save); the only writes are the saved Order appended and the named plan marked paid |
| `WebhookController.IntentExampleOrder` | Controllers/webhookController.js:63-101 | a payment intent with the usual metadata saves one Order: price `parseFloat("9.99")`, `succeeded`/`completed`, `Payment for Pro under Hosting` |
| `WebhookController.ChargeExampleOrder` | Controllers/webhookController.js:65-108 | a 1999-cent charge without a metadata amount is priced 19.99, filed under its payment intent, and its CustomPlan is marked paid |
| `Deliveries.OrderHistoryKept` | Controllers/webhookController.js:86-108 | over any run of deliveries, earlier Orders stay as they were, at most one Order is added per delivery, and plans are neither added nor removed, changing only by being marked paid |
| `Deliveries.RedeliveryDuplicatesOrders` | Controllers/webhookController.js:86-108 | the same verified success event delivered in any number of requests, which may differ (a redelivery carries a fresh signature), saves one identical Order per request; there is no deduplication; the plan is marked paid by the first and stays paid |
| `Deliveries.PairedEventsSaveTwoOrders` | Controllers/webhookController.js:60-101 | the intent-level and charge-level events of one payment save two Orders with the same `stripePaymentIntentId` |
| `WebhookFindings.CatchAsWritten` | Controllers/webhookController.js:49-53 | as written, the catch block sends no reply for undefined, symbol, function and bigint bodies; for every other body it sends the 400 error reply |
| `WebhookFindings.UndefinedBodyGetsNoReply` | Controllers/webhookController.js:39-53 | a signed request with an undefined body gets no reply as written, but 400 `Webhook Error: Unexpected body type: undefined` in the model |
| `WebhookFindings.CorrectedCatchAlwaysAnswers` | Controllers/webhookController.js:49-54 | in the model, every unverified request that passes the header and secret checks gets a 400 `Webhook Error: ` reply, whatever its body type, with the store unchanged; this agrees with the written code for string, Buffer and object bodies |

## Left out

- Stripe's signature cryptography (HMAC, timestamp tolerance) is not modelled. `constructEvent` is the uninterpreted `Env.constructEvent`, so nothing is claimed about which signatures it accepts.
- `JSON.stringify` is the uninterpreted `Env.stringify`. The model does not claim that re-encoding gives back the signed bytes. It also does not model `JSON.stringify` throwing at line 37 (for example on a circular object).
- `parseFloat` and floating-point division are not modelled. A truthy metadata amount gives the uninterpreted price `ParseFloatOf(text)`. The fallback is the exact real `amount / 100` with no rounding. So `Orders.PriceOf` does not model `parseFloat` returning NaN for non-numeric text.
- Mongoose is not modelled: schema validation, casting (a NaN price or a malformed id failing the write), `_id` generation. Every such failure is folded into the `Faults` flags. A failed write changes nothing. `findByIdAndUpdate` on an unknown id updates nothing, as it does without `upsert`.
- Module configuration is not modelled: `dotenv`, reading `STRIPE_WEBHOOK_SECRET` (now `Env.secret`) and constructing the Stripe client.
- Logging is not modelled. The `console.log`/`console.error` calls have no effect on the outcome, except the catch block's sample line (see Findings).
- Async interleaving and concurrent deliveries are not modelled. Each call runs sequentially and to completion. Duplicate deliveries are shown sequentially in `Deliveries`.
- Only the `stripe-signature` header and `req.body` are modelled from the request. A missing metadata object is the empty map. These agree because every metadata read in the source uses optional chaining.
- An Order's `user` and name fields may be missing. The model does not tell `null` from `undefined` in them.
- A metadata amount of `""` is falsy, so `||` falls back to `amount / 100`, as it does for a missing amount; the model follows this.

## Findings

| source | as written | input that shows it | evidently intended | confidence | as-written member | corrected member |
|---|---|---|---|---|---|---|
| Controllers/webhookController.js:39-53 | the catch block logs `JSON.stringify(req.body).substring(0, 100)` for every non-string body. `JSON.stringify` returns `undefined` for an undefined, symbol or function body and throws on a bigint, so this line throws and the handler rejects without replying | a request with a `stripe-signature` header, a configured secret, and `req.body` undefined (no body parser ran) | reply 400 `Webhook Error: Unexpected body type: undefined`, as the error thrown at line 40 sets up | high (not executed) | `WebhookFindings.UndefinedBodyGetsNoReply` | `WebhookFindings.CorrectedCatchAlwaysAnswers` |
