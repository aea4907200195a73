/** server.js: the standalone server's start-up guard, its CORS origin (the
    frontend address without a trailing slash), its own copy of the price
    calculator, and its older checkout handler, which queries the store on
    every request (no cache) and submits product lines only: no tax line, no
    shipping option, no country allow-list. */
module Server {
  import opened Wrappers
  import opened Strings
  import Pricing
  import opened Checkout
  import PaymentController

  /** The server's duplicate of the calculator, written as its five updates. */
  function CalculatePrice(item: Pricing.Item, product: Pricing.Product): (price: int)
    ensures product.price - 400 <= price <= product.price + 700
  {
    var price := product.price;
    var price := if item.selectedSize == Some("128GB") then price + 250 else price;
    var price := if item.selectedSize == Some("256GB") then price + 500 else price;
    var price := if item.selectedSize == Some("32GB") then price - 200 else price;
    var price := if item.selectedRam == Some("16GB") then price + 200 else price;
    var price := if item.selectedRam == Some("4GB") then price - 200 else price;
    price
  }

  /** The two copies agree on every input. */
  lemma CalculatePriceAgrees(item: Pricing.Item, product: Pricing.Product)
    ensures CalculatePrice(item, product) == Pricing.CalculatePrice(item, product)
  {
  }

  /** `FRONTEND_URL.replace(/\/$/, "")`: one trailing slash removed, if any. */
  function StripTrailingSlash(s: string): (r: string)
    ensures |s| > 0 && s[|s| - 1] == '/' ==> r + "/" == s
    ensures (|s| == 0 || s[|s| - 1] != '/') ==> r == s
    ensures StartsWith(s, r) && |s| - 1 <= |r|
  {
    if |s| > 0 && s[|s| - 1] == '/' then s[..|s| - 1] else s
  }

  /** Only one slash goes: the result still ends in '/' exactly when the
      address ended in two. */
  lemma StripRemovesOneSlash(s: string)
    ensures var r := StripTrailingSlash(s);
            (|r| > 0 && r[|r| - 1] == '/') <==> (|s| >= 2 && s[|s| - 1] == '/' && s[|s| - 2] == '/')
  {
  }

  /** The environment variables the guard reads; `None` when unset. */
  datatype Env = Env(secretStripeKey: Option<string>, frontendUrl: Option<string>)

  /** What the server starts with once the guard passes. */
  datatype Config = Config(stripeKey: string, frontendUrl: string, corsOrigin: string)

  /** A variable counts as set when it is present and non-empty (`!value`
      is true for both `undefined` and `""`). */
  predicate IsSet(value: Option<string>) {
    value.Some? && value.value != ""
  }

  /** The start-up guard: start with the configuration, or exit with code 1. */
  function Startup(env: Env): (r: Result<Config, int>)
    ensures r.Success? <==> IsSet(env.secretStripeKey) && IsSet(env.frontendUrl)
    ensures r.Failure? ==> r.error == 1
    ensures r.Success? ==>
              && r.value.stripeKey == env.secretStripeKey.value
              && r.value.frontendUrl == env.frontendUrl.value
              && r.value.corsOrigin == StripTrailingSlash(env.frontendUrl.value)
    // the CORS origin is the frontend address, less one trailing slash at most
    ensures r.Success? ==>
              r.value.corsOrigin + "/" == r.value.frontendUrl || r.value.corsOrigin == r.value.frontendUrl
  {
    if !IsSet(env.secretStripeKey) || !IsSet(env.frontendUrl) then Failure(1)
    else
      var url := env.frontendUrl.value;
      Success(Config(env.secretStripeKey.value, url, StripTrailingSlash(url)))
  }

  /** The `/create-checkout-session` handler up to the processor call;
      `store` is what the catalog query answers, made on every valid request. */
  function CreateCheckoutSession(items: ItemsField, store: Result<seq<Pricing.Product>, string>, frontendUrl: string)
    : (o: CheckoutOutcome)
    ensures !items.ItemsArray? ==> o == Respond(InvalidItems)
    ensures items.ItemsArray? && store.Failure? ==> o == Respond(Failed(store.error))
    ensures o.Submit? <==>
              items.ItemsArray? && store.Success? && BuildLines(items.items, store.value, CalculatePrice).Success?
    ensures o.Respond? && items.ItemsArray? ==> o.response.status == 500
    // an item that cannot be priced is a 500 with the first failure's message
    ensures items.ItemsArray? && store.Success? && BuildLines(items.items, store.value, CalculatePrice).Failure? ==>
              o == Respond(Failed(LineErrorMessage(BuildLines(items.items, store.value, CalculatePrice).error)))
    ensures o.Submit? ==>
              && o.request.lineItems == BuildLines(items.items, store.value, CalculatePrice).value
              && |o.request.lineItems| == |items.items|
              && o.request.paymentMethodTypes == ["card"]
              && o.request.mode == "payment"
              && o.request.shippingOptions == []
              && o.request.allowedCountries.None?
              && o.request.successUrl == frontendUrl + "/"
              && o.request.cancelUrl == frontendUrl + "/"
  {
    match items
    case Missing => Respond(InvalidItems)
    case NotArray => Respond(InvalidItems)
    case ItemsArray(cart) =>
      match store
      case Failure(message) => Respond(Failed(message))
      case Success(products) =>
        match BuildLines(cart, products, CalculatePrice)
        case Failure(e) => Respond(Failed(LineErrorMessage(e)))
        case Success(lines) =>
          Submit(SessionRequest(["card"], lines, "payment", [], None, frontendUrl + "/", frontendUrl + "/"))
  }

  /** The two handlers build the same product lines from the same catalog:
      the controller's request is the server's lines followed by the tax line,
      and each is refused exactly when the other is. */
  lemma HandlersAgreeOnProductLines(items: seq<Pricing.Item>, cache: PaymentController.CacheState, now: int,
                                    store: Result<seq<Pricing.Product>, string>, frontendUrl: string)
    requires PaymentController.FetchProducts(cache, now, store).result.Success?
    ensures var catalog := PaymentController.FetchProducts(cache, now, store).result.value;
            var older := CreateCheckoutSession(ItemsArray(items), Success(catalog), frontendUrl);
            var newer := PaymentController.CreateCheckoutSession(ItemsArray(items), cache, now, store, frontendUrl).outcome;
            && (older.Submit? <==> newer.Submit?)
            && (older.Submit? ==> newer.request.lineItems == older.request.lineItems + [PaymentController.TaxLine])
            && (older.Respond? ==> newer == older)
  {
    var catalog := PaymentController.FetchProducts(cache, now, store).result.value;
    forall item, product ensures CalculatePrice(item, product) == Pricing.CalculatePrice(item, product) {
      CalculatePriceAgrees(item, product);
    }
    BuildLinesRespectsPrice(items, catalog, CalculatePrice, Pricing.CalculatePrice);
  }
}
