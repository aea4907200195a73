/** controllers/paymentController.js: the product-catalog TTL cache, the
    authenticated checkout-session handler (line items plus a fixed tax line,
    fixed shipping option and country allow-list), the payment-processor
    webhook, and the session-verification endpoint.

    The module-level cache variables become an explicit `CacheState` threaded
    through the handler; the clock reading and every reply from the document
    store or the payment processor are parameters. */
module PaymentController {
  import opened Wrappers
  import opened Pricing
  import opened Http
  import opened Checkout

  /** Freshness window of the catalog cache, in milliseconds. */
  const ProductCacheTtl: int := 30 * 1000

  /** `{ cachedProducts, lastFetchTime }`; the process starts with `Initial`. */
  datatype CacheState = CacheState(cachedProducts: seq<Product>, lastFetchTime: int)

  const Initial := CacheState([], 0)

  /** One `fetchProducts` call: what it returns (a failure is the store's
      rejection, propagated), the cache afterwards, and whether the store
      was queried. */
  datatype Fetched = Fetched(result: Result<seq<Product>, string>, cache: CacheState, queried: bool)

  /** The cache-hit test: recent enough and non-empty. */
  predicate IsFresh(cache: CacheState, now: int) {
    now - cache.lastFetchTime < ProductCacheTtl && |cache.cachedProducts| > 0
  }

  /** `fetchProducts` at clock reading `now`; `store` is what the store query
      would answer, consulted only on a miss. */
  function FetchProducts(cache: CacheState, now: int, store: Result<seq<Product>, string>): (f: Fetched)
    // a hit serves the cache as it is, touching nothing
    ensures IsFresh(cache, now) ==> f == Fetched(Success(cache.cachedProducts), cache, false)
    // an empty cache is never served, however recent its timestamp
    ensures |cache.cachedProducts| == 0 ==> f.queried
    ensures f.queried <==> !IsFresh(cache, now)
    // a successful refresh replaces the cache wholesale and stamps it with `now`
    ensures f.queried && store.Success? ==> f.cache == CacheState(store.value, now)
    ensures f.queried && store.Success? ==> f.result == Success(store.value)
    // a failed refresh leaves both fields alone and propagates the failure
    ensures f.queried && store.Failure? ==> f.cache == cache && f.result == Failure(store.error)
    // whatever is served is the cache afterwards, and is younger than the window
    ensures f.result.Success? ==> f.result.value == f.cache.cachedProducts
    ensures f.result.Success? ==> now - f.cache.lastFetchTime < ProductCacheTtl
  {
    if IsFresh(cache, now) then
      Fetched(Success(cache.cachedProducts), cache, false)
    else
      match store
      case Failure(e) => Fetched(Failure(e), cache, true)
      case Success(products) => Fetched(Success(products), CacheState(products, now), true)
  }

  /** Two calls within the window that starts at the cache's last refresh:
      once the first has served a non-empty catalog, the second serves the same
      catalog without querying the store, whatever the store would now answer. */
  lemma FetchTwiceWithinWindow(cache: CacheState, t1: int, t2: int,
                               store1: Result<seq<Product>, string>, store2: Result<seq<Product>, string>)
    requires FetchProducts(cache, t1, store1).result.Success?
    requires |FetchProducts(cache, t1, store1).result.value| > 0
    requires t2 - FetchProducts(cache, t1, store1).cache.lastFetchTime < ProductCacheTtl
    ensures var first := FetchProducts(cache, t1, store1);
            var second := FetchProducts(first.cache, t2, store2);
            && second.result == first.result
            && second.cache == first.cache
            && !second.queried
  {
  }

  /** In particular, a refresh that finds products is followed, for the whole
      window, by calls that never query the store. */
  lemma RefreshThenHits(cache: CacheState, t1: int, t2: int,
                        store1: Result<seq<Product>, string>, store2: Result<seq<Product>, string>)
    requires !IsFresh(cache, t1)
    requires store1.Success? && |store1.value| > 0
    requires t1 <= t2 < t1 + ProductCacheTtl
    ensures FetchProducts(FetchProducts(cache, t1, store1).cache, t2, store2)
         == Fetched(Success(store1.value), CacheState(store1.value, t1), false)
  {
  }

  /** Once the window has elapsed since the last refresh, the next call queries
      the store exactly once and serves what it answered. */
  lemma RefreshAfterWindow(cache: CacheState, now: int, store: Result<seq<Product>, string>)
    requires now - cache.lastFetchTime >= ProductCacheTtl
    ensures FetchProducts(cache, now, store).queried
    ensures store.Success? ==> FetchProducts(cache, now, store).result == Success(store.value)
  {
  }

  /** The fixed "Sales Tax" line: 37.32 in cents, quantity one. */
  const TaxLine := LineItem(Currency, ProductData("Sales Tax", None), 3732, 1)

  const StandardShipping := ShippingRate(1500, Currency, "Standard Shipping", 3, 5)

  const AllowedCountries: seq<string> := ["US", "CA", "GB", "AU"]

  /** The controller handler's outcome together with the cache it leaves. */
  datatype CheckoutStep = CheckoutStep(outcome: CheckoutOutcome, cache: CacheState, queried: bool)

  /** `createCheckoutSession` up to the processor call, at clock reading
      `now`, with `store` as the catalog query's answer and `frontendUrl` the
      configured frontend address. */
  function CreateCheckoutSession(items: ItemsField, cache: CacheState, now: int,
                                 store: Result<seq<Product>, string>, frontendUrl: string): (s: CheckoutStep)
    // a bad `items` field is refused before the cache is even consulted
    ensures !items.ItemsArray? ==> s == CheckoutStep(Respond(InvalidItems), cache, false)
    // the processor is called exactly when the catalog is available and every item prices
    ensures s.outcome.Submit? <==>
              && items.ItemsArray?
              && FetchProducts(cache, now, store).result.Success?
              && BuildLines(items.items, FetchProducts(cache, now, store).result.value, CalculatePrice).Success?
    // otherwise the reply is the 400 above or a 500
    ensures s.outcome.Respond? && items.ItemsArray? ==> s.outcome.response.status == 500
    // the cache and the store query happen exactly as one fetch would make them
    ensures items.ItemsArray? ==> s.cache == FetchProducts(cache, now, store).cache
    ensures items.ItemsArray? ==> s.queried == FetchProducts(cache, now, store).queried
    // a failed catalog load is a 500 with the store's message
    ensures items.ItemsArray? && FetchProducts(cache, now, store).result.Failure? ==>
              s.outcome == Respond(Failed(FetchProducts(cache, now, store).result.error))
    // an item that cannot be priced is a 500 with the first failure's message
    ensures items.ItemsArray? && FetchProducts(cache, now, store).result.Success?
            && BuildLines(items.items, FetchProducts(cache, now, store).result.value, CalculatePrice).Failure? ==>
              s.outcome == Respond(Failed(LineErrorMessage(
                BuildLines(items.items, FetchProducts(cache, now, store).result.value, CalculatePrice).error)))
    ensures s.outcome.Submit? ==>
              var r := s.outcome.request;
              && r.lineItems == BuildLines(items.items, FetchProducts(cache, now, store).result.value, CalculatePrice).value
                                + [TaxLine]
              && |r.lineItems| == |items.items| + 1
              && r.paymentMethodTypes == ["card"]
              && r.mode == "payment"
              && r.lineItems[|items.items|] == TaxLine
              && r.shippingOptions == [StandardShipping]
              && r.allowedCountries == Some(AllowedCountries)
              && r.successUrl == frontendUrl + "/success?session_id={CHECKOUT_SESSION_ID}"
              && r.cancelUrl == frontendUrl + "/cancel"
  {
    match items
    case Missing => CheckoutStep(Respond(InvalidItems), cache, false)
    case NotArray => CheckoutStep(Respond(InvalidItems), cache, false)
    case ItemsArray(cart) =>
      var fetched := FetchProducts(cache, now, store);
      match fetched.result
      case Failure(message) => CheckoutStep(Respond(Failed(message)), fetched.cache, fetched.queried)
      case Success(products) =>
        match BuildLines(cart, products, CalculatePrice)
        case Failure(e) => CheckoutStep(Respond(Failed(LineErrorMessage(e))), fetched.cache, fetched.queried)
        case Success(lines) =>
          var request := SessionRequest(
            ["card"], lines + [TaxLine], "payment", [StandardShipping], Some(AllowedCountries),
            frontendUrl + "/success?session_id={CHECKOUT_SESSION_ID}", frontendUrl + "/cancel");
          CheckoutStep(Submit(request), fetched.cache, fetched.queried)
  }

  /** The reply once the processor has answered a submitted request: its
      session URL, or its error message as a 500. */
  function CompleteCheckout(processor: Result<string, string>): (r: Response)
    ensures r.status == 200 <==> processor.Success?
    ensures processor.Success? ==> r == Ok(UrlBody(processor.value))
    ensures processor.Failure? ==> r == ErrorReply(500, processor.error)
  {
    match processor
    case Success(url) => Ok(UrlBody(url))
    case Failure(message) => Failed(message)
  }

  /** The whole request: a direct reply, or the processor's answer to the
      submitted session request turned into the reply. */
  function CheckoutReply(outcome: CheckoutOutcome, processor: SessionRequest -> Result<string, string>): Response
  {
    match outcome
    case Respond(response) => response
    case Submit(request) => CompleteCheckout(processor(request))
  }

  /** End to end, a 200 with a session URL is sent only after a session was
      submitted and the processor accepted it; a bad `items` field is always
      the 400, and every other refusal is a 500. */
  lemma OkReplyOnlyAfterSubmittedSession(items: ItemsField, cache: CacheState, now: int,
                                         store: Result<seq<Product>, string>, frontendUrl: string,
                                         processor: SessionRequest -> Result<string, string>)
    ensures var s := CreateCheckoutSession(items, cache, now, store, frontendUrl);
            var r := CheckoutReply(s.outcome, processor);
            && (r.status == 200 <==> s.outcome.Submit? && processor(s.outcome.request).Success?)
            && (r.status == 200 ==> r.body == UrlBody(processor(s.outcome.request).value))
            && (!items.ItemsArray? ==> r == InvalidItems)
            && (items.ItemsArray? && r.status != 200 ==> r.status == 500)
  {
  }

  /** Every product line of a submitted request is the priced cart item at
      the same position, and the tax line comes last. */
  lemma SubmittedLines(items: seq<Item>, cache: CacheState, now: int,
                       store: Result<seq<Product>, string>, frontendUrl: string, i: nat)
    requires CreateCheckoutSession(ItemsArray(items), cache, now, store, frontendUrl).outcome.Submit?
    requires i < |items|
    ensures var catalog := FetchProducts(cache, now, store).result.value;
            var line := CreateCheckoutSession(ItemsArray(items), cache, now, store, frontendUrl).outcome.request.lineItems[i];
            && Find(catalog, items[i].id).Some?
            && line.quantity == items[i].quantity
            && line.unitAmount == CalculatePrice(items[i], Find(catalog, items[i].id).value) * 100
  {
  }

  /** A cart naming an id the catalog lacks gets a 500 naming the first
      unknown id when the items before it price cleanly, and no session. */
  lemma UnknownProductRejected(items: seq<Item>, cache: CacheState, now: int,
                               store: Result<seq<Product>, string>, frontendUrl: string, i: nat)
    requires FetchProducts(cache, now, store).result.Success?
    requires i < |items|
    requires var catalog := FetchProducts(cache, now, store).result.value;
             && (forall j :: 0 <= j < |catalog| ==> catalog[j].id != items[i].id)
             && (forall j :: 0 <= j < i ==> PriceLine(items[j], catalog, CalculatePrice).Success?)
    ensures CreateCheckoutSession(ItemsArray(items), cache, now, store, frontendUrl).outcome
         == Respond(ErrorReply(500, "Product not found: " + IdText(items[i].id)))
  {
  }

  /** An empty cart still gets a session holding just the tax line. */
  lemma EmptyCartGetsTaxLineOnly(cache: CacheState, now: int, store: Result<seq<Product>, string>, frontendUrl: string)
    requires FetchProducts(cache, now, store).result.Success?
    ensures var s := CreateCheckoutSession(ItemsArray([]), cache, now, store, frontendUrl);
            s.outcome.Submit? && s.outcome.request.lineItems == [TaxLine]
  {
  }

  /** Two units of a 500 product with the "128GB" option: one line of 75000
      cents with quantity 2, then the tax line. */
  lemma ExampleCheckout(now: int, frontendUrl: string)
    ensures var p1 := Product(StringId("p1"), "Phone", 500, Some(["phone.png"]));
            var item := Item(StringId("p1"), 2, Some("128GB"), None);
            var s := CreateCheckoutSession(ItemsArray([item]), Initial, now, Success([p1]), frontendUrl);
            s.outcome.Submit?
            && s.outcome.request.lineItems
               == [LineItem(Currency, ProductData("Phone", Some([Some("phone.png")])), 75000, 2), TaxLine]
  {
  }

  /** A payment intent as carried by a `payment_intent.succeeded` event;
      `metadata` is `None` when the object has no metadata at all. */
  datatype PaymentIntent = PaymentIntent(id: string, metadata: Option<map<string, string>>)

  /** A verified webhook event: its type and its `data.intent`. */
  datatype Event = Event(kind: string, intent: PaymentIntent)

  const PaymentSucceeded := "payment_intent.succeeded"

  /** The one action a webhook takes: the "order paid" log point, with the
      order id from the intent's metadata (possibly absent). */
  datatype WebhookAction = NoAction | OrderPaid(orderId: Option<string>, paymentId: string)

  datatype WebhookOutcome = WebhookOutcome(response: Response, action: WebhookAction)

  /** V8's message for reading `orderId` off an undefined `metadata`. */
  const MetadataMissingMessage := "Cannot read properties of undefined (reading 'orderId')"

  /** `stripeWebhook`, given the signature check's answer: the verified event,
      or the message it was rejected with. */
  function StripeWebhook(verified: Result<Event, string>): (w: WebhookOutcome)
    // a rejected signature is a 400 with no action
    ensures verified.Failure? ==>
              w == WebhookOutcome(Response(400, TextBody("Webhook Error: " + verified.error), None), NoAction)
    // only a payment-succeeded event acts
    ensures w.action.OrderPaid? <==>
              verified.Success? && verified.value.kind == PaymentSucceeded && verified.value.intent.metadata.Some?
    ensures w.action.OrderPaid? ==>
              var intent := verified.value.intent;
              && w.action.paymentId == intent.id
              && w.action.orderId == (if "orderId" in intent.metadata.value
                                      then Some(intent.metadata.value["orderId"]) else None)
    // every other verified event is acknowledged
    ensures verified.Success? && verified.value.kind != PaymentSucceeded ==>
              w == WebhookOutcome(Ok(ReceivedBody), NoAction)
    ensures w.response.status == 200 ==> w.response.body == ReceivedBody
    // every verified event is acknowledged, except a succeeded one whose intent has no metadata
    ensures w.response == Ok(ReceivedBody) <==>
              verified.Success? && !(verified.value.kind == PaymentSucceeded && verified.value.intent.metadata.None?)
    ensures verified.Success? && verified.value.kind == PaymentSucceeded && verified.value.intent.metadata.None? ==>
              w == WebhookOutcome(Response(400, TextBody("Webhook Error: " + MetadataMissingMessage), None), NoAction)
  {
    match verified
    case Failure(message) =>
      WebhookOutcome(Response(400, TextBody("Webhook Error: " + message), None), NoAction)
    case Success(event) =>
      if event.kind == PaymentSucceeded then
        match event.intent.metadata
        case None =>
          WebhookOutcome(Response(400, TextBody("Webhook Error: " + MetadataMissingMessage), None), NoAction)
        case Some(metadata) =>
          var orderId := if "orderId" in metadata then Some(metadata["orderId"]) else None;
          WebhookOutcome(Ok(ReceivedBody), OrderPaid(orderId, event.intent.id))
      else
        WebhookOutcome(Ok(ReceivedBody), NoAction)
  }

  /** The order-paid action is never taken on a request the processor would
      be told to retry: it comes with the receipt, and a receipt is sent
      exactly when the event was verified and either acted on or of another
      kind. */
  lemma WebhookActsOnlyWhenAcknowledged(verified: Result<Event, string>)
    ensures var w := StripeWebhook(verified);
            && (w.action.OrderPaid? ==> w.response == Ok(ReceivedBody))
            && (w.response.status == 200 <==>
                  verified.Success? && (w.action.OrderPaid? || verified.value.kind != PaymentSucceeded))
  {
  }

  /** What the processor reports about a retrieved session. */
  datatype SessionStatus = SessionStatus(paymentStatus: string)

  /** `verifyCheckoutSession`: `sessionId` is the query parameter, `retrieve`
      the processor's answer for a given id. */
  function VerifyCheckoutSession(sessionId: Option<string>, retrieve: string -> Result<SessionStatus, string>)
    : (r: Response)
    // an absent or empty id is refused without asking the processor
    ensures sessionId.None? || sessionId == Some("") ==> r == ErrorReply(400, "Missing session ID")
    ensures r.status == 200 <==>
              sessionId.Some? && sessionId.value != "" && retrieve(sessionId.value).Success?
    ensures r.status == 200 ==>
              r == Ok(PaidBody(retrieve(sessionId.value).value.paymentStatus == "paid"))
    ensures r.status == 400 <==> sessionId.None? || sessionId == Some("")
    ensures sessionId.Some? && sessionId.value != "" && retrieve(sessionId.value).Failure? ==>
              r == ErrorReply(500, "Failed to verify payment")
  {
    match sessionId
    case None => ErrorReply(400, "Missing session ID")
    case Some(id) =>
      if id == "" then ErrorReply(400, "Missing session ID")
      else
        match retrieve(id)
        case Failure(_) => ErrorReply(500, "Failed to verify payment")
        case Success(session) => Ok(PaidBody(session.paymentStatus == "paid"))
  }

  /** A missing id is answered without consulting the processor: the reply is
      the same whatever the processor would say. */
  lemma MissingIdNeverConsultsProcessor(sessionId: Option<string>,
                                        retrieve1: string -> Result<SessionStatus, string>,
                                        retrieve2: string -> Result<SessionStatus, string>)
    requires sessionId.None? || sessionId == Some("")
    ensures VerifyCheckoutSession(sessionId, retrieve1) == VerifyCheckoutSession(sessionId, retrieve2)
  {
  }

  /** A `{paid: true}` reply means the processor itself reported the
      session's payment status as "paid" for the id the client asked about. */
  lemma PaidReplyMeansProcessorSaysPaid(sessionId: Option<string>, retrieve: string -> Result<SessionStatus, string>)
    requires VerifyCheckoutSession(sessionId, retrieve) == Ok(PaidBody(true))
    ensures sessionId.Some? && sessionId.value != ""
    ensures retrieve(sessionId.value) == Success(SessionStatus("paid"))
  {
  }
}
