/**
 * The documents the cart transform reads (catalog products, raw cart items,
 * fulfillment groups, payments, the cart) and the response-shaped values it
 * builds (resolved items, fulfillment options, resolved payments, the
 * checkout summary). Nothing here has behaviour.
 */
module CartTypes {
  import opened Wrappers

  type Id = string
  type CurrencyCode = string

  /** A sub-document copied through unchanged and never inspected (an address, a set of image URLs). */
  type Document = map<string, string>

  /** An amount paired with its currency; amounts are exact, not floating point. */
  datatype Money = Money(amount: real, currencyCode: CurrencyCode)

  /** A Money object whose amount is copied from a field the source document may leave unset. */
  datatype MoneyField = MoneyField(amount: Option<real>, currencyCode: CurrencyCode)

  /** One entry of a variant's `pricing` map. */
  datatype PriceInfo = PriceInfo(price: real, compareAtPrice: Option<real>)

  datatype Variant = Variant(
    variantId: Id,
    pricing: map<CurrencyCode, PriceInfo>,
    quantity: Option<int>,
    isBackorder: Option<bool>,
    isLowQuantity: Option<bool>,
    isSoldOut: Option<bool>)

  datatype MediaItem = MediaItem(variantId: Option<Id>, urls: Document)

  /**
   * `media` is absent when the product document has no media list at all.
   * `variants` (and each variant's `variantId`) are searched only by the
   * variant lookup, which this model takes as an argument.
   */
  datatype CatalogProduct = CatalogProduct(productId: Id, variants: seq<Variant>, media: Option<seq<MediaItem>>)

  /** A Catalog collection document; only its `product` is read. */
  datatype CatalogItem = CatalogItem(product: CatalogProduct)

  /** A cart item as stored in the cart document. */
  datatype CartItem = CartItem(id: Id, productId: Id, variantId: Id, quantity: int, priceWhenAdded: Money)

  datatype ProductConfiguration = ProductConfiguration(productId: Id, productVariantId: Id)

  /**
   * A cart item with the GraphQL-only fields added. `raw` holds every field
   * of the stored item, copied unchanged (the object spread).
   */
  datatype ResolvedItem = ResolvedItem(
    raw: CartItem,
    compareAtPrice: MoneyField,
    currentQuantity: Option<int>,
    imageURLs: Option<Document>,
    isBackorder: bool,
    isLowQuantity: bool,
    isSoldOut: bool,
    price: Money,
    productConfiguration: ProductConfiguration)

  datatype ShipmentMethod = ShipmentMethod(
    id: Id,
    carrier: Option<string>,
    name: string,
    labelText: Option<string>,  // the `label` field (`label` is a Dafny keyword)
    group: Option<string>,
    rate: Option<real>,
    handling: Option<real>)

  datatype FulfillmentGroup = FulfillmentGroup(id: Id, address: Document, shipmentMethod: Option<ShipmentMethod>)

  datatype Payment = Payment(id: Id, address: Document)

  /**
   * The cart document handed to the checkout transform, its items already
   * resolved. An absent `items`, `shipping` or `billing` list is read as the
   * empty list everywhere it is used, so each is a plain sequence. `tax` is
   * present exactly when the stored value is a number.
   */
  datatype Cart = Cart(
    items: seq<ResolvedItem>,
    shipping: seq<FulfillmentGroup>,
    billing: seq<Payment>,
    currencyCode: CurrencyCode,
    tax: Option<real>,
    discount: Option<real>)

  datatype FulfillmentMethod = FulfillmentMethod(
    carrier: Option<string>,
    displayName: string,
    group: Option<string>,
    name: string,
    fulfillmentTypes: seq<string>)

  datatype SelectedFulfillmentOption = SelectedFulfillmentOption(
    id: Id,
    fulfillmentMethod: FulfillmentMethod,
    handlingPrice: MoneyField,
    price: MoneyField)

  /**
   * A transformed fulfillment group. Only one group is ever created today, so
   * every group carries all of the cart's items.
   */
  datatype FulfillmentOption = FulfillmentOption(
    id: Id,
    shippingAddress: Document,
    items: seq<ResolvedItem>,
    selectedFulfillmentOption: Option<SelectedFulfillmentOption>,
    fulfillmentType: string)

  datatype ResolvedPayment = ResolvedPayment(id: Id, amount: Money, billingAddress: Document)

  datatype Summary = Summary(
    discountTotal: Money,
    fulfillmentTotal: Option<Money>,
    itemTotal: Money,
    taxTotal: Option<Money>,
    total: Money)

  datatype Checkout = Checkout(
    fulfillmentGroups: seq<FulfillmentOption>,
    payments: seq<ResolvedPayment>,
    summary: Summary)

  /** The `Meteor.Error` codes thrown while resolving items. */
  datatype ErrorKind = NotFound | InvalidParam

  /** The only fulfillment type supported. */
  const ShippingType: string := "shipping"
}
