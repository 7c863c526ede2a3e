/** The per-group and per-payment transforms that the checkout assembles. */
module CartFulfillment {
  import opened Wrappers
  import opened CartTypes

  /** JavaScript `label || name`: an unset or empty label falls back to the name. */
  function DisplayName(shipment: ShipmentMethod): (r: string)
    ensures shipment.labelText.Some? && shipment.labelText.value != "" ==> r == shipment.labelText.value
    ensures shipment.labelText.None? || shipment.labelText.value == "" ==> r == shipment.name
  {
    if shipment.labelText.Some? && shipment.labelText.value != "" then shipment.labelText.value else shipment.name
  }

  /**
   * The selected option of a group with a shipment method: shipping only,
   * and both prices in the cart's currency whatever the method's own.
   */
  function SelectedOption(shipment: ShipmentMethod, currencyCode: CurrencyCode): (r: SelectedFulfillmentOption)
    ensures r.id == shipment.id
    ensures r.fulfillmentMethod.carrier == NonEmptyOrNone(shipment.carrier)
    ensures r.fulfillmentMethod.displayName == DisplayName(shipment)
    ensures r.fulfillmentMethod.group == NonEmptyOrNone(shipment.group)
    ensures r.fulfillmentMethod.name == shipment.name
    ensures r.fulfillmentMethod.fulfillmentTypes == [ShippingType]
    ensures r.handlingPrice == MoneyField(shipment.handling, currencyCode)
    ensures r.price == MoneyField(shipment.rate, currencyCode)
  {
    SelectedFulfillmentOption(
      id := shipment.id,
      fulfillmentMethod := FulfillmentMethod(
        carrier := NonEmptyOrNone(shipment.carrier),
        displayName := DisplayName(shipment),
        group := NonEmptyOrNone(shipment.group),
        name := shipment.name,
        fulfillmentTypes := [ShippingType]),
      handlingPrice := MoneyField(shipment.handling, currencyCode),
      price := MoneyField(shipment.rate, currencyCode))
  }

  /** Transform one fulfillment group (`xformCartFulfillmentGroup`). */
  function XformCartFulfillmentGroup(group: FulfillmentGroup, cart: Cart): (r: FulfillmentOption)
    ensures r.selectedFulfillmentOption.None? <==> group.shipmentMethod.None?
    ensures r.selectedFulfillmentOption.Some? ==>
      r.selectedFulfillmentOption.value == SelectedOption(group.shipmentMethod.value, cart.currencyCode)
    ensures r.id == group.id && r.shippingAddress == group.address
    ensures r.items == cart.items
    ensures r.fulfillmentType == ShippingType
  {
    FulfillmentOption(
      id := group.id,
      shippingAddress := group.address,
      items := cart.items,
      selectedFulfillmentOption :=
        match group.shipmentMethod
        case None => None
        case Some(shipment) => Some(SelectedOption(shipment, cart.currencyCode)),
      fulfillmentType := ShippingType)
  }

  /** Transform one payment (`xformCartPayments`): it is charged the whole cart total. */
  function XformCartPayments(payment: Payment, cart: Cart, cartTotal: real): (r: ResolvedPayment)
    ensures r.amount == Money(cartTotal, cart.currencyCode)
    ensures r.id == payment.id && r.billingAddress == payment.address
  {
    ResolvedPayment(payment.id, Money(cartTotal, cart.currencyCode), payment.address)
  }
}
