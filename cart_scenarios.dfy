/** Worked examples of the checkout transform and of item resolution on concrete carts. */
module CartScenarios {
  import opened Wrappers
  import opened CartTypes
  import opened CartItems
  import opened CartFulfillment
  import opened CartCheckout

  /** Two units added at 10 USD each. */
  function TwoAtTen(): ResolvedItem {
    var raw := CartItem("item-1", "product-1", "variant-1", 2, Money(10.0, "USD"));
    ResolvedItem(
      raw := raw,
      compareAtPrice := MoneyField(None, "USD"),
      currentQuantity := Some(5),
      imageURLs := None,
      isBackorder := false,
      isLowQuantity := false,
      isSoldOut := false,
      price := Money(12.0, "USD"),
      productConfiguration := ProductConfiguration("product-1", "variant-1"))
  }

  function ItemsOnlyCart(): Cart {
    Cart([TwoAtTen()], [], [], "USD", None, None)
  }

  function StandardShipping(): FulfillmentGroup {
    FulfillmentGroup("group-1", map[], Some(ShipmentMethod("method-1", None, "Standard", None, None, Some(5.0), Some(1.0))))
  }

  function ShippedCart(tax: Option<real>, discount: Option<real>): Cart {
    Cart([TwoAtTen()], [StandardShipping()], [Payment("payment-1", map[])], "USD", tax, discount)
  }

  /** One item, nothing else: 20 for the items, null fulfillment and tax, total 20. */
  lemma ItemsOnlyTotals()
    ensures CheckoutOf(ItemsOnlyCart()).summary ==
      Summary(Money(0.0, "USD"), None, Money(20.0, "USD"), None, Money(20.0, "USD"))
  {
  }

  /** A shipping method at rate 5 and handling 1 adds 6; a 10% tax adds 2; a discount of 5 takes 5 off. */
  lemma ShippedTotals()
    ensures CheckoutOf(ShippedCart(None, None)).summary.fulfillmentTotal == Some(Money(6.0, "USD"))
    ensures CheckoutOf(ShippedCart(None, None)).summary.total == Money(26.0, "USD")
    ensures CheckoutOf(ShippedCart(Some(0.1), None)).summary.taxTotal == Some(Money(2.0, "USD"))
    ensures CheckoutOf(ShippedCart(Some(0.1), None)).summary.total == Money(28.0, "USD")
    ensures CheckoutOf(ShippedCart(Some(0.1), Some(5.0))).summary.total == Money(23.0, "USD")
    ensures CheckoutOf(ShippedCart(Some(0.1), Some(5.0))).payments[0].amount == Money(23.0, "USD")
  {
  }

  /** A discount larger than what is owed clamps the total at zero. */
  lemma DiscountClampsAtZero()
    ensures CheckoutOf(ShippedCart(Some(0.1), Some(50.0))).summary.total == Money(0.0, "USD")
  {
  }

  /** A group without a method keeps the fulfillment total null, not zero. */
  lemma UnselectedGroupKeepsNull()
    ensures CheckoutOf(Cart([TwoAtTen()], [FulfillmentGroup("group-1", map[], None)], [], "USD", None, None))
      .summary.fulfillmentTotal == None
  {
  }

  /** With media tagged "x" and "y", an item for variant "z" shows the first entry. */
  lemma MediaFallsBackToFirst()
    ensures SelectMedia(Some([MediaItem(Some("x"), map["large" := "x.jpg"]), MediaItem(Some("y"), map["large" := "y.jpg"])]), "z")
      == Some(MediaItem(Some("x"), map["large" := "x.jpg"]))
  {
  }

  /**
   * An item for which the variant lookup finds nothing in the matched product
   * fails with `invalid-param`, whatever the lookup does elsewhere.
   */
  lemma MissingVariantIsInvalidParam(findVariant: VariantLookup)
    requires findVariant(CatalogProduct("product-1", [], None), "variant-9") == None
    ensures XformCartItem([CatalogItem(CatalogProduct("product-1", [], None))], findVariant,
      CartItem("item-1", "product-1", "variant-9", 1, Money(10.0, "USD"))) == Err(InvalidParam)
  {
  }
}
