/** The line-item assembly both checkout handlers share (the handler in
    controllers/paymentController.js and the older one in server.js): check the
    `items` field, resolve every cart item against the catalog with a
    first-match search, price it, and map it to a payment-processor line item,
    aborting the whole build on the first item that cannot be priced.

    The two handlers' line-item assembly differs only in which copy of the
    price calculator it uses, so the price function is a parameter here. */
module Checkout {
  import opened Wrappers
  import opened Pricing
  import opened Http

  /** `req.body.items` as the handler finds it. `Missing` covers every falsy
      value (`undefined`, `null`, `0`, `""`, `false`); `NotArray` every other
      non-array value. */
  datatype ItemsField = Missing | NotArray | ItemsArray(items: seq<Item>)

  /** `product_data`: a name, and for product lines a one-element image list
      whose element is `undefined` when the product's image list is empty. */
  datatype ProductData = ProductData(name: string, images: Option<seq<Option<string>>>)

  /** One entry of `line_items`; `unitAmount` is in cents. */
  datatype LineItem = LineItem(currency: string, productData: ProductData, unitAmount: int, quantity: int)

  /** The reasons the `items.map` callback throws. */
  datatype LineError =
    | ProductNotFound(id: Id)
    | ImageMissing

  const Currency := "usd"

  /** The 400 reply for a missing or non-array `items` field. */
  const InvalidItems := ErrorReply(400, "Invalid items array")

  /** A flat-rate shipping option with a business-day delivery window. */
  datatype ShippingRate = ShippingRate(
    amount: int, currency: string, displayName: string, minBusinessDays: int, maxBusinessDays: int)

  /** The checkout-session request handed to the payment processor. The
      order id and idempotency key, both built from separate wall-clock
      readings, are not part of this model. `allowedCountries` is `None`
      when the request carries no shipping-address collection. */
  datatype SessionRequest = SessionRequest(
    paymentMethodTypes: seq<string>,
    lineItems: seq<LineItem>,
    mode: string,
    shippingOptions: seq<ShippingRate>,
    allowedCountries: Option<seq<string>>,
    successUrl: string,
    cancelUrl: string)

  /** A checkout handler either replies straight away, or submits one session
      request to the payment processor and replies with its answer. */
  datatype CheckoutOutcome = Respond(response: Response) | Submit(request: SessionRequest)

  /** The 500 reply for a thrown exception, carrying its message. */
  function Failed(message: string): Response {
    ErrorReply(500, message)
  }

  /** A template literal's rendering of an id. */
  function IdText(id: Id): string {
    match id
    case StringId(s) => s
    case NullId => "null"
    case UndefinedId => "undefined"
  }

  /** The exception message the handler puts in its 500 reply. The
      `ImageMissing` text is the V8 engine's message for indexing into an
      undefined `product.image`. */
  function LineErrorMessage(e: LineError): string {
    match e
    case ProductNotFound(id) => "Product not found: " + IdText(id)
    case ImageMissing => "Cannot read properties of undefined (reading '0')"
  }

  /** Index of the first product whose id is strictly equal to `id` (two
      absent ids are equal under `===`, an absent and a `null` one are not),
      or `|products|` when none is. */
  function FindIndex(products: seq<Product>, id: Id): (i: nat)
    ensures i <= |products|
    ensures i < |products| ==> products[i].id == id
    ensures forall j :: 0 <= j < i ==> products[j].id != id
  {
    if |products| == 0 then 0
    else if products[0].id == id then 0
    else 1 + FindIndex(products[1..], id)
  }

  /** `products.find(p => p.id === id)`. */
  function Find(products: seq<Product>, id: Id): (r: Option<Product>)
    ensures r.None? <==> forall j :: 0 <= j < |products| ==> products[j].id != id
    ensures r.Some? ==> exists i :: 0 <= i < |products| && products[i] == r.value
                                   && (forall j :: 0 <= j < i ==> products[j].id != id)
    ensures r.Some? ==> r.value.id == id
  {
    var i := FindIndex(products, id);
    if i < |products| then Some(products[i]) else None
  }

  /** The body of the `items.map` callback: resolve, price, and shape one line. */
  function PriceLine(item: Item, products: seq<Product>, price: (Item, Product) -> int): (r: Result<LineItem, LineError>)
    // an id no product carries throws "Product not found"
    ensures r == Failure(ProductNotFound(item.id)) <==> Find(products, item.id).None?
    // a matched product without an image list throws when its first image is read
    ensures r == Failure(ImageMissing) <==> Find(products, item.id).Some? && Find(products, item.id).value.image.None?
    // a matched product with an image list always yields a line
    ensures r.Success? <==> Find(products, item.id).Some? && Find(products, item.id).value.image.Some?
    ensures r.Success? ==>
              var product := Find(products, item.id).value;
              && product.image.Some?
              && r.value.currency == Currency
              && r.value.productData.name == product.name
              && r.value.unitAmount == price(item, product) * 100
              && r.value.quantity == item.quantity
              // an empty image list still yields a one-element list holding `undefined`
              && (|product.image.value| == 0 ==> r.value.productData.images == Some([None]))
              && (|product.image.value| > 0 ==> r.value.productData.images == Some([Some(product.image.value[0])]))
  {
    match Find(products, item.id)
    case None => Failure(ProductNotFound(item.id))
    case Some(product) =>
      match product.image
      case None => Failure(ImageMissing)
      case Some(images) =>
        var first := if |images| > 0 then Some(images[0]) else None;
        Success(LineItem(Currency, ProductData(product.name, Some([first])),
                         price(item, product) * 100, item.quantity))
  }

  /** `items.map(callback)`: all lines in cart order, or the first item's
      failure when any item cannot be priced. */
  function BuildLines(items: seq<Item>, products: seq<Product>, price: (Item, Product) -> int)
    : (r: Result<seq<LineItem>, LineError>)
    ensures r.Success? <==> forall i :: 0 <= i < |items| ==> PriceLine(items[i], products, price).Success?
    ensures r.Success? ==> |r.value| == |items|
    ensures r.Success? ==> forall i :: 0 <= i < |items| ==> r.value[i] == PriceLine(items[i], products, price).value
    ensures r.Failure? ==> exists i :: 0 <= i < |items| && PriceLine(items[i], products, price) == Failure(r.error)
                                      && (forall j :: 0 <= j < i ==> PriceLine(items[j], products, price).Success?)
  {
    if |items| == 0 then Success([])
    else
      match PriceLine(items[0], products, price)
      case Failure(e) => Failure(e)
      case Success(line) =>
        match BuildLines(items[1..], products, price)
        case Failure(e) =>
          assert forall i :: 1 <= i < |items| ==> items[1..][i - 1] == items[i];
          Failure(e)
        case Success(rest) =>
          assert forall i :: 1 <= i < |items| ==> items[1..][i - 1] == items[i];
          Success([line] + rest)
  }

  /** What a successful build promises about each line: the cart item's
      quantity, its first-matching product's name and the calculated price
      in cents. */
  lemma BuiltLineContents(items: seq<Item>, products: seq<Product>, price: (Item, Product) -> int, i: nat)
    requires BuildLines(items, products, price).Success?
    requires i < |items|
    ensures Find(products, items[i].id).Some?
    ensures var product := Find(products, items[i].id).value;
            var line := BuildLines(items, products, price).value[i];
            && line.quantity == items[i].quantity
            && line.unitAmount == price(items[i], product) * 100
            && line.productData.name == product.name
            && line.currency == Currency
  {
  }

  /** A cart naming any product id the catalog lacks never produces lines. */
  lemma UnknownProductAborts(items: seq<Item>, products: seq<Product>, price: (Item, Product) -> int, i: nat)
    requires i < |items|
    requires forall j :: 0 <= j < |products| ==> products[j].id != items[i].id
    ensures BuildLines(items, products, price).Failure?
  {
  }

  /** The reported product is the first unknown one, when every earlier item
      prices cleanly. */
  lemma FirstUnknownProductReported(items: seq<Item>, products: seq<Product>, price: (Item, Product) -> int, i: nat)
    requires i < |items|
    requires forall j :: 0 <= j < |products| ==> products[j].id != items[i].id
    requires forall j :: 0 <= j < i ==> PriceLine(items[j], products, price).Success?
    ensures BuildLines(items, products, price) == Failure(ProductNotFound(items[i].id))
  {
  }

  /** A `null` id is not an absent one: against a catalog whose records carry
      no `id` field it matches nothing, and the message renders it as "null". */
  lemma NullIdMatchesNoIdlessProduct(price: (Item, Product) -> int)
    ensures var catalog := [Product(UndefinedId, "Phone", 500, Some([]))];
            var r := BuildLines([Item(NullId, 1, None, None)], catalog, price);
            && r == Failure(ProductNotFound(NullId))
            && LineErrorMessage(r.error) == "Product not found: null"
  {
  }

  /** The line builder depends on the price function only through its values
      on the cart: two calculators that agree pointwise build the same lines. */
  lemma {:induction false} BuildLinesRespectsPrice(items: seq<Item>, products: seq<Product>,
                                                 price1: (Item, Product) -> int, price2: (Item, Product) -> int)
    requires forall item, product :: price1(item, product) == price2(item, product)
    ensures BuildLines(items, products, price1) == BuildLines(items, products, price2)
    decreases |items|
  {
    if |items| > 0 {
      BuildLinesRespectsPrice(items[1..], products, price1, price2);
    }
  }
}
