# Checkout backend core, modelled in Dafny

This project models the request-handling logic of a small Express checkout
backend that prices cart items, creates payment-processor checkout sessions,
verifies them, receives payment webhooks and authenticates users with bearer
tokens. The document store, the payment processor and the identity provider
are external services. Each of their replies is a parameter: a `Result` value,
or a total function keyed by the token, uid, session id or session request it is asked about.

Modules (one file each):

- `Wrappers`: `Option` (a JavaScript `undefined`) and `Result` (a thrown error or rejected promise).
- `Strings`: `startsWith`, single-character `indexOf`, and `split`/`join` on one separator, with the split/join round trip.
- `JsValue`: JSON claim and record values and JavaScript truthiness.
- `Http`: replies as status, body and `Cache-Control`.
- `Pricing`: utils/calculatePrice.js. The item/product records, the calculator, and its reference definition as base price plus one table delta per selector group.
- `Checkout`: the line-item assembly both checkout handlers share. It covers the `items` check, first-match product lookup, per-item pricing, abort on the first failing item, the session request shape and the outcome of a handler.
- `PaymentController`: controllers/paymentController.js. The TTL catalog cache as an explicit state with a pure transition, plus the checkout handler (tax line, shipping, country allow-list), the webhook and session verification.
- `Server`: server.js. The duplicate calculator, the trailing-slash strip, the start-up guard, and the older checkout handler (no cache, no tax line).
- `Bearer`: the shared `Authorization: Bearer` prefix test and `split(" ")[1]` token extraction.
- `FirebaseMiddleware`, `ClaimRoleVerify`, `DocRoleVerify`: middleware/verifyFirebaseToken.js, userVerify.js and routes/userVerify.js.
- `AuthAgreement`: lemmas relating the token gate and the two `/verifyUser` routes.

A checkout handler is modelled up to the processor call. It returns either
`Respond(reply)` or `Submit(request)`, and `CompleteCheckout` turns the
processor's answer into the reply. "No session is created" therefore means the
outcome is not `Submit`. Prices are whole currency units, so
`Math.round(price * 100)` is exactly `price * 100`.

Behaviours of the code worth noting:

- The catalog is an array, and an item's product is the first record whose `id` is strictly equal (`===`) to the item's id.
- Ids are absent, `null` or a string. An absent item id matches a record with no `id` field; a `null` one does not.
- An unknown product is a 500 carrying the message "Product not found: <id>", where a `null` id renders as "null" and an absent one as "undefined".
- An empty `sessionId` is refused like an absent one, because `!""` is true.
- An empty environment variable counts as unset.
- A `payment_intent.succeeded` event whose intent has no `metadata` throws inside the handler. It is answered with a 400, not acknowledged.

## Model

| member | source | states |
|---|---|---|
| Pricing.CalculatePrice | utils/calculatePrice.js:2-13 | the price stays within base − 400 and base + 700; with no selectors it is the base price |
| Pricing.CalculatePriceIsBasePlusDeltas | utils/calculatePrice.js:3-12 | the calculator equals base + size-table delta + RAM-table delta, so at most one delta per group applies, and each delta is one of the table values or 0 |
| Pricing.SizeDeltaTable | utils/calculatePrice.js:5-7 | "128GB" → +250, "256GB" → +500, "32GB" → −200; any other or absent size → 0 |
| Pricing.RamDeltaTable | utils/calculatePrice.js:9-10 | "16GB" → +200, "4GB" → −200; any other or absent RAM → 0 |
| Pricing.SelectorGroupsIndependent | utils/calculatePrice.js:5-10 | changing the RAM selector moves the price by exactly the difference of the RAM deltas, whatever the size selector is |
| Pricing.Example128GB | utils/calculatePrice.js:2-12 | base price 500 with "128GB" gives 750 |
| Strings.Split | middleware/verifyFirebaseToken.js:10 | `split(" ")` yields at least one field, no field contains the separator, and joining the fields gives back the header |
| Strings.SplitJoin | middleware/verifyFirebaseToken.js:10 | splitting a join of separator-free fields gives back the same fields |
| Checkout.FindIndex | controllers/paymentController.js:35 | the index is the first product whose id is strictly equal to the item's id (absent, `null` and string ids all distinct), or the catalog length when there is none |
| Checkout.Find | controllers/paymentController.js:35 | `find` returns nothing exactly when no product has the id; otherwise it returns the earliest such product |
| Checkout.PriceLine | controllers/paymentController.js:35-47 | an id no product carries fails with ProductNotFound of that id; a matched product with no image list fails with ImageMissing; a matched product with an image list always succeeds; on success the line has the product's name, "usd", price × 100, the item's quantity, and an image list of the first image, or of `undefined` when the list is empty |
| Checkout.NullIdMatchesNoIdlessProduct | controllers/paymentController.js:35-36 | a `null` item id matches no record that lacks an `id` field, and the error reads "Product not found: null" |
| Checkout.BuildLines | controllers/paymentController.js:34-48 | the build succeeds iff every item prices; on success there is one line per item in cart order; on failure the error is that of the first failing item, and all earlier items priced |
| Checkout.BuiltLineContents | controllers/paymentController.js:38-47 | a built line carries the item's quantity, the first-matching product's name, the "usd" currency and unit amount = calculated price × 100 |
| Checkout.UnknownProductAborts | controllers/paymentController.js:35-36 | a cart with any id the catalog lacks produces no lines |
| Checkout.FirstUnknownProductReported | controllers/paymentController.js:34-36 | the reported error is ProductNotFound for the first unknown id when all earlier items price |
| Checkout.BuildLinesRespectsPrice | server.js:54-71 | two price calculators that agree on every input build identical lines |
| PaymentController.FetchProducts | controllers/paymentController.js:13-23 | a fresh, non-empty cache is served unchanged without a store query; an empty cache always queries; a successful refresh replaces the cache wholesale, stamps it `now` and returns the store's catalog; a failed one leaves both fields and propagates; anything served equals the new cache and is younger than 30 000 ms |
| PaymentController.FetchTwiceWithinWindow | controllers/paymentController.js:13-23 | after a call that served a non-empty catalog, a second call within 30 000 ms of the last refresh serves the same catalog, keeps the cache and does not query the store |
| PaymentController.RefreshThenHits | controllers/paymentController.js:15-22 | a refresh that finds products makes every call during the following 30 000 ms a hit on exactly that catalog |
| PaymentController.RefreshAfterWindow | controllers/paymentController.js:15-22 | once 30 000 ms have elapsed since the last refresh, the next call queries the store and serves its answer |
| PaymentController.CreateCheckoutSession | controllers/paymentController.js:25-80 | a bad `items` field gets 400 "Invalid items array" with no fetch and the cache untouched; a failed catalog load is a 500 with the store's message; an unpriceable item is a 500 with the first failure's message; a session is submitted iff the catalog loads and every item prices; it then holds the built lines followed by the tax line, `["card"]`, mode "payment", Standard Shipping and the US/CA/GB/AU allow-list; the cache and the store query happen exactly as one fetch would make them; the success URL is FRONTEND_URL + "/success?session_id={CHECKOUT_SESSION_ID}" and the cancel URL FRONTEND_URL + "/cancel" |
| PaymentController.CompleteCheckout | controllers/paymentController.js:82-86 | exactly 200 `{url}` (no extra header) iff the processor succeeded, otherwise exactly a 500 `{error}` with its message |
| PaymentController.OkReplyOnlyAfterSubmittedSession | controllers/paymentController.js:25-86 | end to end, with `CheckoutReply` composing the handler's outcome with the processor call and its reply or catch (lines 60-85), the reply is 200 with the session URL iff a session was submitted and the processor accepted it; a bad `items` field is always the 400; every other refusal is a 500 |
| PaymentController.SubmittedLines | controllers/paymentController.js:34-62 | line i of a submitted session has item i's quantity and unit amount = price(item i, first match) × 100 |
| PaymentController.UnknownProductRejected | controllers/paymentController.js:34-85 | the first unknown id, with all earlier items priced, gives a 500 "Product not found: <id>" and no session |
| PaymentController.EmptyCartGetsTaxLineOnly | controllers/paymentController.js:50-62 | an empty cart yields a session whose only line is the tax line |
| PaymentController.ExampleCheckout | controllers/paymentController.js:34-62 | two units of a 500 product with "128GB" give a 75000-cent line of quantity 2, then the 3732-cent tax line |
| PaymentController.StripeWebhook | controllers/paymentController.js:89-107 | a failed signature check is a 400 "Webhook Error: …" with no action; the order-paid action happens iff the event is `payment_intent.succeeded` with metadata, and it carries the intent's id and `metadata.orderId`; every verified event gets 200 `{received:true}` except a succeeded one whose intent has no metadata, which gets exactly a 400 "Webhook Error: …" with no action |
| PaymentController.WebhookActsOnlyWhenAcknowledged | controllers/paymentController.js:94-105 | the order-paid action always comes with the receipt, and a receipt is sent iff the event was verified and either acted on or of another kind |
| PaymentController.VerifyCheckoutSession | controllers/paymentController.js:109-120 | an absent or empty id gets 400 "Missing session ID"; status 200 iff the retrieval succeeds, and then exactly `{paid}` with no extra header, `paid` true iff the status is "paid"; the reply is 400 exactly for an absent or empty id; a failed retrieval gives exactly 500 "Failed to verify payment" |
| PaymentController.MissingIdNeverConsultsProcessor | controllers/paymentController.js:110-111 | with an absent or empty id the reply is the same whatever the processor would answer |
| PaymentController.PaidReplyMeansProcessorSaysPaid | controllers/paymentController.js:113-115 | a `{paid: true}` reply means the processor reported status "paid" for the requested id |
| Server.CalculatePrice | server.js:25-36 | the duplicate calculator keeps the same ±bounds |
| Server.CalculatePriceAgrees | server.js:25-36 | the duplicate agrees with utils/calculatePrice.js on every item and product |
| Server.StripTrailingSlash | server.js:18 | exactly one trailing "/" is removed when present, otherwise the address is unchanged; the result is a prefix at most one character shorter |
| Server.StripRemovesOneSlash | server.js:18 | the result still ends in "/" iff the address ended in "//" |
| Server.Startup | server.js:12-19 | start-up proceeds iff both SECRET_STRIPE_KEY and FRONTEND_URL are set and non-empty, otherwise it exits with 1; the CORS origin is the stripped frontend address, which plus "/" is the address or is the address itself |
| Server.CreateCheckoutSession | server.js:38-87 | a bad `items` field gets 400; a store failure gives 500 with its message; an unpriceable item is a 500 with the first failure's message; a session is submitted iff every item prices, and it holds exactly the built lines (one per item, no tax line, no shipping), `["card"]` and mode "payment", with both redirects at FRONTEND_URL + "/" |
| Server.HandlersAgreeOnProductLines | server.js:49-77 | on the same catalog, the server handler submits iff the controller handler does; the controller's lines are the server's plus the tax line; both give the same refusal |
| Bearer.BearerToken | middleware/verifyFirebaseToken.js:10 | after the "Bearer " prefix, the token is the longest space-free stretch that follows |
| Bearer.BearerTokenExamples | middleware/verifyFirebaseToken.js:10 | "Bearer " gives "" and "Bearer a b" gives "a" |
| Bearer.BearerTokenIsSecondField | userVerify.js:27 | for "Bearer " + token + tail, the token runs to the first space of the tail, so anything after a space is ignored |
| FirebaseMiddleware.VerifyFirebaseToken | middleware/verifyFirebaseToken.js:4-18 | a missing or non-"Bearer " header gets 401 "No token provided"; `next` runs with `req.user` = decoded token iff the header passes and the verifier accepts; a verifier failure gets 401 "Unauthorized" |
| ClaimRoleVerify.RoleFromClaim | userVerify.js:34 | role is admin iff the `admin` claim is present and truthy |
| ClaimRoleVerify.VerifyUser | userVerify.js:20-49 | a missing or non-"Bearer " header gets 401 "No token provided"; a verifier failure gets 401 "Invalid or expired token"; success is 200 `{success:true, uid, email, role}` with `Cache-Control: no-store` |
| DocRoleVerify.RoleFromDoc | routes/userVerify.js:29-30 | role is admin iff the user record exists and its `admin` field is exactly boolean true |
| DocRoleVerify.VerifyUser | routes/userVerify.js:18-43 | a missing or non-"Bearer " header gets 401 "No token provided"; status 200 iff both the token check and the record lookup succeed, with the record-derived role and `no-store`; a failure of either call gets 401 "Invalid or expired token" |
| DocRoleVerify.DocRoleImpliesClaimRole | routes/userVerify.js:30 | a record that makes an admin would also make one under the claim route; on boolean flags the two routes agree |
| DocRoleVerify.RoutesDisagreeOnTruthyString | routes/userVerify.js:30 | the string "yes" is an admin claim but not an admin record |
| AuthAgreement.GateAdmitsExactlyClaimRouteSuccess | middleware/verifyFirebaseToken.js:6-13 | the gate calls `next` iff the claim route (userVerify.js) answers 200 for the same header and verifier, and the route reports the same uid and email |
| AuthAgreement.RecordRouteSuccessImpliesClaimRouteSuccess | routes/userVerify.js:21-38 | a 200 from the record route implies a 200 from the claim route with the same uid, email and `no-store`; only the role may differ |
| AuthAgreement.RefusalsAre401 | routes/userVerify.js:21-41 | without the "Bearer " prefix both routes give the same 401 and the gate rejects; every refusal of either route is a 401 |

## Left out

- The payment-processor calls are not modelled, and neither are the processor's own rules. This covers session creation and retrieval and webhook signature verification. Their answers are parameters.
- The document-store query and the identity provider's token check are not modelled. Their answers are parameters.
- The order id and idempotency key are not modelled. Both are built from separate `Date.now()` readings plus `req.user.uid`, so they are nondeterministic and not guaranteed equal.
- Non-integer prices and floating-point rounding in `Math.round(price * 100)` are not modelled. Prices are integers, so the scaling is exact.
- Only one caller uses the catalog cache at a time. Concurrent refreshes are out of scope.
- The rate limiters, route wiring and middleware order are library configuration. So are CORS, JSON body parsing, logging, `process.exit`, and the `PORT || 4000` listen port.
- Inputs are assumed to be well-typed records:
  - Ids are strings, `null` or absent, and selectors are strings or absent. A numeric id, which `===` never equates with a string, is not modelled.
  - A price is always a number.
  - Cart entries are objects.
  - `sessionId` is a single string.
  - A `null` selector is treated as an absent one; both equal no option string, so the price is the same.
  - A `null` product image list or payment-intent metadata is treated as an absent one. Both throw a TypeError; only its wording differs ("of null" instead of "of undefined").
- Checkout.LineErrorMessage and PaymentController.MetadataMissingMessage use the V8 engine's TypeError wording. Other engines word these messages differently.
- What happens after the token gate calls `next()` is not part of the gate's model. Both handlers behind the gate are async, so neither can throw synchronously into `next()`.
- Server.CalculatePrice: its contract states only the bounds. Equality with the utils calculator is carried by Server.CalculatePriceAgrees.
