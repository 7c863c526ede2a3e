/**
 * Checkout aggregation (`xformCartCheckout`): item, fulfillment, tax and
 * discount totals, the clamped grand total, and the transformed groups and
 * payments. `CheckoutOf` is the specification; `XformCartCheckout` computes
 * it with the source's loops and is proved equal to it.
 */
module CartCheckout {
  import opened Wrappers
  import opened CartTypes
  import opened CartFulfillment

  /** Quantity times the price captured when the item was added. */
  function LineTotal(item: ResolvedItem): real {
    item.raw.quantity as real * item.raw.priceWhenAdded.amount
  }

  /** The left fold of line totals, starting from 0. */
  function ItemTotal(items: seq<ResolvedItem>): real
    decreases |items|
  {
    if |items| == 0 then 0.0 else ItemTotal(items[..|items| - 1]) + LineTotal(items[|items| - 1])
  }

  /** The shipment methods of the groups that have one, in group order. */
  function SelectedMethods(groups: seq<FulfillmentGroup>): seq<ShipmentMethod>
    decreases |groups|
  {
    if |groups| == 0 then []
    else
      SelectedMethods(groups[..|groups| - 1]) +
      match groups[|groups| - 1].shipmentMethod
      case None => []
      case Some(m) => [m]
  }

  /** Sum of the rates, an unset rate counting as 0. */
  function RateTotal(methods: seq<ShipmentMethod>): real
    decreases |methods|
  {
    if |methods| == 0 then 0.0 else RateTotal(methods[..|methods| - 1]) + OrZero(methods[|methods| - 1].rate)
  }

  /** Sum of the handling fees, an unset fee counting as 0. */
  function HandlingTotal(methods: seq<ShipmentMethod>): real
    decreases |methods|
  {
    if |methods| == 0 then 0.0 else HandlingTotal(methods[..|methods| - 1]) + OrZero(methods[|methods| - 1].handling)
  }

  /** What one group adds to the fulfillment total: rate plus handling if it has a method, else nothing. */
  function GroupFee(group: FulfillmentGroup): real {
    match group.shipmentMethod
    case None => 0.0
    case Some(m) => OrZero(m.rate) + OrZero(m.handling)
  }

  /** Reference sum of `GroupFee` over all groups. */
  function GroupFees(groups: seq<FulfillmentGroup>): real
    decreases |groups|
  {
    if |groups| == 0 then 0.0 else GroupFee(groups[0]) + GroupFees(groups[1..])
  }

  lemma {:induction false} GroupFeesSnoc(groups: seq<FulfillmentGroup>)
    requires |groups| > 0
    ensures GroupFees(groups) == GroupFees(groups[..|groups| - 1]) + GroupFee(groups[|groups| - 1])
    decreases |groups|
  {
    if |groups| > 1 {
      var tail := groups[1..];
      GroupFeesSnoc(tail);
      assert tail[..|tail| - 1] == groups[..|groups| - 1][1..];
    }
  }

  /** No method is selected exactly when no group has a shipment method. */
  lemma {:induction false} SelectedMethodsEmpty(groups: seq<FulfillmentGroup>)
    ensures SelectedMethods(groups) == [] <==> forall i | 0 <= i < |groups| :: groups[i].shipmentMethod.None?
    decreases |groups|
  {
    if |groups| > 0 {
      var init := groups[..|groups| - 1];
      SelectedMethodsEmpty(init);
      assert forall i | 0 <= i < |init| :: init[i] == groups[i];
    }
  }

  /** Rates plus handling over the selected methods is the sum of per-group fees. */
  lemma {:induction false} SelectedFees(groups: seq<FulfillmentGroup>)
    ensures RateTotal(SelectedMethods(groups)) + HandlingTotal(SelectedMethods(groups)) == GroupFees(groups)
    decreases |groups|
  {
    if |groups| > 0 {
      var init := groups[..|groups| - 1];
      var last := groups[|groups| - 1];
      SelectedFees(init);
      GroupFeesSnoc(groups);
      var ms := SelectedMethods(init);
      match last.shipmentMethod
      case None =>
        assert SelectedMethods(groups) == ms + [];
        assert ms + [] == ms;
      case Some(m) =>
        var all := ms + [m];
        assert SelectedMethods(groups) == all;
        assert all[..|all| - 1] == ms;
    }
  }

  /**
   * `fulfillmentTotal`: null for no groups or when no group has a method,
   * otherwise the rate-plus-handling sum over the groups that have one.
   */
  function FulfillmentTotal(groups: seq<FulfillmentGroup>): (r: Option<real>)
    ensures r.None? <==> |groups| == 0 || forall i | 0 <= i < |groups| :: groups[i].shipmentMethod.None?
    ensures r.Some? ==> r.value == GroupFees(groups)
  {
    SelectedMethodsEmpty(groups);
    SelectedFees(groups);
    if |groups| == 0 then None
    else
      var methods := SelectedMethods(groups);
      if methods == [] then None else Some(RateTotal(methods) + HandlingTotal(methods))
  }

  /** `taxTotal`: null unless the tax ratio is a number, then the item total times the ratio. */
  function TaxTotal(itemTotal: real, tax: Option<real>): (r: Option<real>)
    ensures r.None? <==> tax.None?
    ensures r.Some? ==> r.value == itemTotal * tax.value
  {
    match tax
    case None => None
    case Some(ratio) => Some(itemTotal * ratio)
  }

  /** `Math.max(0, x)`. */
  function ClampAtZero(x: real): (r: real)
    ensures r >= 0.0 && r >= x
    ensures r == 0.0 || r == x
  {
    if x < 0.0 then 0.0 else x
  }

  /** Wrap a nullable amount as a nullable Money object. */
  function MoneyOrNull(amount: Option<real>, currencyCode: CurrencyCode): (r: Option<Money>)
    ensures r.None? <==> amount.None?
    ensures r.Some? ==> r.value == Money(amount.value, currencyCode)
  {
    match amount
    case None => None
    case Some(a) => Some(Money(a, currencyCode))
  }

  /** `fulfillmentGroups.map(...)`: one transformed group per group, in order. */
  function XformFulfillmentGroups(cart: Cart): (r: seq<FulfillmentOption>)
    ensures |r| == |cart.shipping|
    ensures forall i | 0 <= i < |cart.shipping| :: r[i] == XformCartFulfillmentGroup(cart.shipping[i], cart)
  {
    seq(|cart.shipping|, i requires 0 <= i < |cart.shipping| => XformCartFulfillmentGroup(cart.shipping[i], cart))
  }

  /** `billing.map(...)`: one resolved payment per payment, in order, each for the whole total. */
  function XformAllPayments(cart: Cart, total: real): (r: seq<ResolvedPayment>)
    ensures |r| == |cart.billing|
    ensures forall i | 0 <= i < |cart.billing| :: r[i] == XformCartPayments(cart.billing[i], cart, total)
  {
    seq(|cart.billing|, i requires 0 <= i < |cart.billing| => XformCartPayments(cart.billing[i], cart, total))
  }

  /** The checkout object the transform builds for a cart; its properties are the lemmas below. */
  function CheckoutOf(cart: Cart): Checkout
  {
    var itemTotal := ItemTotal(cart.items);
    var fulfillmentTotal := FulfillmentTotal(cart.shipping);
    var taxTotal := TaxTotal(itemTotal, cart.tax);
    var discountTotal := OrZero(cart.discount);
    var total := ClampAtZero(itemTotal + OrZero(fulfillmentTotal) + OrZero(taxTotal) - discountTotal);
    Checkout(
      fulfillmentGroups := XformFulfillmentGroups(cart),
      payments := XformAllPayments(cart, total),
      summary := Summary(
        discountTotal := Money(discountTotal, cart.currencyCode),
        fulfillmentTotal := MoneyOrNull(fulfillmentTotal, cart.currencyCode),
        itemTotal := Money(itemTotal, cart.currencyCode),
        taxTotal := MoneyOrNull(taxTotal, cart.currencyCode),
        total := Money(total, cart.currencyCode)))
  }

  /** `itemTotal` is the sum of quantity times price-when-added, in the cart's currency. */
  lemma CheckoutItemTotal(cart: Cart)
    ensures CheckoutOf(cart).summary.itemTotal == Money(ItemTotal(cart.items), cart.currencyCode)
    ensures |cart.items| == 0 ==> CheckoutOf(cart).summary.itemTotal.amount == 0.0
  {
  }

  /**
   * The summary's `fulfillmentTotal` is null exactly when there are no groups
   * or none has a shipment method, and otherwise holds the fee sum.
   */
  lemma CheckoutFulfillmentTotal(cart: Cart)
    ensures CheckoutOf(cart).summary.fulfillmentTotal.None? <==>
      |cart.shipping| == 0 || forall i | 0 <= i < |cart.shipping| :: cart.shipping[i].shipmentMethod.None?
    ensures CheckoutOf(cart).summary.fulfillmentTotal.Some? ==>
      CheckoutOf(cart).summary.fulfillmentTotal.value == Money(GroupFees(cart.shipping), cart.currencyCode)
  {
  }

  /** The summary's `taxTotal` is null exactly when the tax ratio is not a number. */
  lemma CheckoutTaxTotal(cart: Cart)
    ensures CheckoutOf(cart).summary.taxTotal.None? <==> cart.tax.None?
    ensures CheckoutOf(cart).summary.taxTotal.Some? ==>
      CheckoutOf(cart).summary.taxTotal.value == Money(ItemTotal(cart.items) * cart.tax.value, cart.currencyCode)
  {
  }

  /**
   * `discountTotal` defaults to 0, and `total` is the balance owed clamped at
   * zero, null fulfillment and tax totals counting as 0 in it.
   */
  lemma CheckoutGrandTotal(cart: Cart)
    ensures CheckoutOf(cart).summary.discountTotal == Money(OrZero(cart.discount), cart.currencyCode)
    ensures CheckoutOf(cart).summary.total.currencyCode == cart.currencyCode
    ensures CheckoutOf(cart).summary.total.amount >= 0.0
    ensures
      var owed := ItemTotal(cart.items) + OrZero(FulfillmentTotal(cart.shipping))
                  + OrZero(TaxTotal(ItemTotal(cart.items), cart.tax)) - OrZero(cart.discount);
      var total := CheckoutOf(cart).summary.total.amount;
      total >= owed && (total == 0.0 || total == owed)
  {
  }

  /**
   * The groups and payments lists follow `shipping` and `billing` one to one,
   * in order, and every payment is charged the whole total.
   */
  lemma CheckoutGroupsAndPayments(cart: Cart)
    ensures |CheckoutOf(cart).fulfillmentGroups| == |cart.shipping|
    ensures forall i | 0 <= i < |cart.shipping| ::
      CheckoutOf(cart).fulfillmentGroups[i] == XformCartFulfillmentGroup(cart.shipping[i], cart)
    ensures |CheckoutOf(cart).payments| == |cart.billing|
    ensures forall i | 0 <= i < |cart.billing| ::
      CheckoutOf(cart).payments[i] == XformCartPayments(cart.billing[i], cart, CheckoutOf(cart).summary.total.amount)
  {
  }

  /** The `reduce` that folds the item total (line total by line total, from 0). */
  method SumItemTotal(items: seq<ResolvedItem>) returns (itemTotal: real)
    ensures itemTotal == ItemTotal(items)
  {
    itemTotal := 0.0;
    var i := 0;
    while i < |items|
      invariant 0 <= i <= |items|
      invariant itemTotal == ItemTotal(items[..i])
    {
      assert items[..i + 1][..i] == items[..i];
      itemTotal := itemTotal + items[i].raw.quantity as real * items[i].raw.priceWhenAdded.amount;
      i := i + 1;
    }
    assert items[..i] == items;
  }

  /**
   * The `forEach` over the fulfillment groups that accumulates shipping and
   * handling and notes whether any method is selected.
   */
  method SumFulfillmentTotal(groups: seq<FulfillmentGroup>) returns (fulfillmentTotal: Option<real>)
    ensures fulfillmentTotal == FulfillmentTotal(groups)
  {
    fulfillmentTotal := None;
    if |groups| > 0 {
      var shippingTotal := 0.0;
      var handlingTotal := 0.0;
      var hasNoSelectedShipmentMethods := true;
      var j := 0;
      while j < |groups|
        invariant 0 <= j <= |groups|
        invariant shippingTotal == RateTotal(SelectedMethods(groups[..j]))
        invariant handlingTotal == HandlingTotal(SelectedMethods(groups[..j]))
        invariant hasNoSelectedShipmentMethods == (SelectedMethods(groups[..j]) == [])
      {
        assert groups[..j + 1][..j] == groups[..j];
        var before := SelectedMethods(groups[..j]);
        match groups[j].shipmentMethod {
          case None =>
            assert SelectedMethods(groups[..j + 1]) == before + [];
            assert before + [] == before;
          case Some(m) =>
            var after := before + [m];
            assert SelectedMethods(groups[..j + 1]) == after;
            assert after[..|after| - 1] == before;
            hasNoSelectedShipmentMethods := false;
            shippingTotal := shippingTotal + OrZero(m.rate);
            handlingTotal := handlingTotal + OrZero(m.handling);
        }
        j := j + 1;
      }
      assert groups[..j] == groups;
      if !hasNoSelectedShipmentMethods {
        fulfillmentTotal := Some(shippingTotal + handlingTotal);
      }
    }
  }

  /** `xformCartCheckout`: the totals, the conditional Money objects and the mapped groups and payments. */
  method XformCartCheckout(cart: Cart) returns (c: Checkout)
    ensures c == CheckoutOf(cart)
  {
    var itemTotal := SumItemTotal(cart.items);
    var groups := cart.shipping;
    var fulfillmentTotal := SumFulfillmentTotal(groups);

    var taxTotal: Option<real> := None;
    if cart.tax.Some? {
      taxTotal := Some(itemTotal * cart.tax.value);
    }

    ghost var specTax := TaxTotal(itemTotal, cart.tax);
    if cart.tax.Some? {
      assert specTax.value == itemTotal * cart.tax.value;
      assert specTax == Some(specTax.value);
    }
    assert taxTotal == specTax;

    var discountTotal := OrZero(cart.discount);

    var owed := itemTotal + OrZero(fulfillmentTotal) + OrZero(taxTotal) - discountTotal;
    var total := if owed < 0.0 then 0.0 else owed;
    assert total == ClampAtZero(owed);

    var fulfillmentTotalMoney: Option<Money> := None;
    if fulfillmentTotal.Some? {
      fulfillmentTotalMoney := Some(Money(fulfillmentTotal.value, cart.currencyCode));
    }

    var taxTotalMoney: Option<Money> := None;
    if taxTotal.Some? {
      taxTotalMoney := Some(Money(taxTotal.value, cart.currencyCode));
    }

    c := Checkout(
      fulfillmentGroups := XformFulfillmentGroups(cart),
      payments := XformAllPayments(cart, total),
      summary := Summary(
        discountTotal := Money(discountTotal, cart.currencyCode),
        fulfillmentTotal := fulfillmentTotalMoney,
        itemTotal := Money(itemTotal, cart.currencyCode),
        taxTotal := taxTotalMoney,
        total := Money(total, cart.currencyCode)));
    assert fulfillmentTotalMoney == MoneyOrNull(fulfillmentTotal, cart.currencyCode);
    assert taxTotalMoney == MoneyOrNull(taxTotal, cart.currencyCode);
  }

  /** Every payment is stamped with the whole cart total, in the cart's currency. */
  lemma EveryPaymentChargedTotal(cart: Cart)
    ensures forall p | p in CheckoutOf(cart).payments :: p.amount == CheckoutOf(cart).summary.total
  {
  }

  /** The item total splits over concatenation, so it is the sum of the line totals in any grouping. */
  lemma {:induction false} ItemTotalAppend(a: seq<ResolvedItem>, b: seq<ResolvedItem>)
    ensures ItemTotal(a + b) == ItemTotal(a) + ItemTotal(b)
    decreases |b|
  {
    if |b| > 0 {
      var ab := a + b;
      var init := b[..|b| - 1];
      ItemTotalAppend(a, init);
      assert ab[..|ab| - 1] == a + init;
    } else {
      assert a + b == a;
    }
  }

  /**
   * The item total reads only quantities and prices captured when items were
   * added: items that differ only in their catalog-resolved fields give the
   * same total.
   */
  lemma {:induction false} ItemTotalIgnoresResolvedPrice(a: seq<ResolvedItem>, b: seq<ResolvedItem>)
    requires |a| == |b|
    requires forall i | 0 <= i < |a| ::
      a[i].raw.quantity == b[i].raw.quantity && a[i].raw.priceWhenAdded.amount == b[i].raw.priceWhenAdded.amount
    ensures ItemTotal(a) == ItemTotal(b)
    decreases |a|
  {
    if |a| > 0 {
      ItemTotalIgnoresResolvedPrice(a[..|a| - 1], b[..|b| - 1]);
    }
  }

  /** Groups that each add nothing add up to nothing. */
  lemma {:induction false} GroupFeesZero(groups: seq<FulfillmentGroup>)
    requires forall i | 0 <= i < |groups| :: GroupFee(groups[i]) == 0.0
    ensures GroupFees(groups) == 0.0
    decreases |groups|
  {
    if |groups| > 0 {
      GroupFeesZero(groups[1..]);
    }
  }

  /**
   * A fulfillment total of zero is still a computed total, not null, once any
   * group has a method selected.
   */
  lemma ZeroFeeMethodIsNotNull(groups: seq<FulfillmentGroup>)
    requires exists i | 0 <= i < |groups| :: groups[i].shipmentMethod.Some?
    requires forall i | 0 <= i < |groups| :: GroupFee(groups[i]) == 0.0
    ensures FulfillmentTotal(groups) == Some(0.0)
  {
    GroupFeesZero(groups);
  }
}
