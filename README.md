# Cart-to-checkout transform

A Dafny model of the GraphQL cart transform of the Reaction commerce server
(`xforms/cart.js`). Given a stored cart, the catalog documents already fetched
for its products and a lookup for nested variants, the transform

- resolves every cart item against the catalog: price and compare-at price
  in the currency the item was added in, stock flags, an image, and a
  product configuration; a missing product fails with `not-found`, a missing
  variant or a missing price for the item's currency with `invalid-param`,
  and any failing item fails the whole batch;
- turns each fulfillment group into a fulfillment option whose selected
  option (if the group has a shipment method) is priced in the cart's
  currency;
- stamps every payment with the whole cart total;
- computes the checkout summary: the item total (quantity times the price
  captured when the item was added), a nullable fulfillment total, a
  nullable tax total, a discount total, and a grand total clamped at zero in
  which null fulfillment and tax totals count as 0.

Modules, one file each:

- `Wrappers` (`wrappers.dfy`): `Option`, `Result`, `Array.prototype.find` as
  `FindFirst`, and the JavaScript `|| 0`, `|| false`, `|| null` defaults.
- `CartTypes` (`cart_types.dfy`): the documents read and the response values
  built. Amounts are exact `real`s; quantities are `int`s.
- `CartItems` (`cart_items.dfy`): `xformCartItem` and the `map` of
  `xformCartItems`.
- `CartFulfillment` (`cart_fulfillment.dfy`): `xformCartFulfillmentGroup` and
  `xformCartPayments`.
- `CartCheckout` (`cart_checkout.dfy`): `xformCartCheckout`. `CheckoutOf` is
  the specification; the method `XformCartCheckout` computes it with the
  source's fold over the items and its `forEach` over the groups (the methods
  `SumItemTotal` and `SumFulfillmentTotal`) and is proved equal to it. The
  properties of the checkout are lemmas about `CheckoutOf`.
- `CartScenarios` (`cart_scenarios.dfy`): worked examples on concrete carts.

Parameters instead of collaborators: the catalog documents are a
`seq<CatalogItem>` argument (the database query that fetches them is not
modelled), and `findVariantInCatalogProduct` is the function-typed argument
`VariantLookup`, about which nothing is assumed.

JavaScript defaults are written out: `label || name` falls back to the name
for an unset or empty label; `carrier || null` and `group || null` give null
for an unset or empty string; `rate || 0`, `handling || 0` and
`discount || 0` read an unset amount as 0; `isBackorder || false` (and the
other two flags) is true only when the variant sets it to true. The tax
ratio is `Some` exactly when `cart.tax` is a number, so a tax ratio of 0
gives a tax total of 0, not null. An absent `items`, `shipping` or `billing`
list is read as the empty list in every place the source uses it, so the cart
holds plain sequences. Fields that are copied but may be unset in the source
documents (a compare-at price, the rate and handling copied into the
selected option, a variant's quantity) are `Option`s.

Three things the code does not do, and nor does the model:

- It does not default the amounts of the selected option: `handling` and
  `rate` are copied unchanged into it (cart.js lines 125-132), so an unset
  one stays unset there (`MoneyField` with `None`). Only the fulfillment
  total reads them as 0.
- It never checks the sign of an amount, so a negative discount raises the
  total.
- It never compares the currencies of the items with the cart's currency;
  the item total and the tax total read the items as they are.

## Model

| member | source | states |
|---|---|---|
| Wrappers.FindFirst | imports/plugins/core/graphql/server/no-meteor/resolvers/xforms/cart.js:40 | no index exactly when no element matches; otherwise the index of the first matching element, as `find` returns it |
| Wrappers.NonEmptyOrNone | imports/plugins/core/graphql/server/no-meteor/resolvers/xforms/cart.js:118-120 | the "or null" default for a string: present exactly when the string is set and non-empty, and then unchanged |
| CartItems.SelectMedia | imports/plugins/core/graphql/server/no-meteor/resolvers/xforms/cart.js:56-60 | no media exactly when the product has no or an empty media list; the first entry tagged with the variant when there is one; otherwise the first entry |
| CartItems.XformCartItem | imports/plugins/core/graphql/server/no-meteor/resolvers/xforms/cart.js:36-82 | `not-found` exactly when no catalog document has the item's product id; for the first matching product, `invalid-param` exactly when the variant lookup fails or the variant has no price in the item's currency; otherwise the stored item unchanged plus price and compare-at price from that pricing entry in the captured currency, the variant's quantity, flags true only when the variant sets them, the selected media's URLs, and the (productId, variantId) configuration |
| CartItems.XformCartItems | imports/plugins/core/graphql/server/no-meteor/resolvers/xforms/cart.js:103 | succeeds exactly when every item resolves; then output i is the resolution of input i alone, with the same length and order; on failure the error is that of the first failing item, all earlier items resolving |
| CartFulfillment.DisplayName | imports/plugins/core/graphql/server/no-meteor/resolvers/xforms/cart.js:119 | the label when it is set and non-empty, else the method's name |
| CartFulfillment.SelectedOption | imports/plugins/core/graphql/server/no-meteor/resolvers/xforms/cart.js:115-133 | the method's id and name, defaulted carrier and group, display name, fulfillment types exactly `["shipping"]`, handling and rate priced in the cart's currency rather than the method's |
| CartFulfillment.XformCartFulfillmentGroup | imports/plugins/core/graphql/server/no-meteor/resolvers/xforms/cart.js:112-148 | the selected option is null exactly when the group has no shipment method; the group keeps its id and address, carries all of the cart's items, and has type `shipping` |
| CartFulfillment.XformCartPayments | imports/plugins/core/graphql/server/no-meteor/resolvers/xforms/cart.js:157-168 | the payment's amount is the cart total in the cart's currency; id and billing address come from the payment |
| CartCheckout.SelectedMethodsEmpty | imports/plugins/core/graphql/server/no-meteor/resolvers/xforms/cart.js:187-196 | `hasNoSelectedShipmentMethods` stays true exactly when no group has a shipment method |
| CartCheckout.SelectedFees | imports/plugins/core/graphql/server/no-meteor/resolvers/xforms/cart.js:184-197 | the separately accumulated shipping and handling totals add up to the sum over all groups of rate plus handling of those with a method |
| CartCheckout.FulfillmentTotal | imports/plugins/core/graphql/server/no-meteor/resolvers/xforms/cart.js:181-199 | null exactly when there are no groups or no group has a method; otherwise the sum of rate plus handling over the groups with a method, unset amounts as 0 |
| CartCheckout.ZeroFeeMethodIsNotNull | imports/plugins/core/graphql/server/no-meteor/resolvers/xforms/cart.js:196-198 | for any groups where some group has a method and every group adds 0, the fulfillment total is 0, not null |
| CartCheckout.TaxTotal | imports/plugins/core/graphql/server/no-meteor/resolvers/xforms/cart.js:201-206 | null exactly when the tax ratio is not a number; otherwise the item total times the ratio, exactly |
| CartCheckout.ClampAtZero | imports/plugins/core/graphql/server/no-meteor/resolvers/xforms/cart.js:210 | `Math.max(0, x)`: never negative, never below x, and either 0 or x |
| CartCheckout.MoneyOrNull | imports/plugins/core/graphql/server/no-meteor/resolvers/xforms/cart.js:212-226 | the Money object is null exactly when the amount is, else that amount in the given currency |
| CartCheckout.XformFulfillmentGroups | imports/plugins/core/graphql/server/no-meteor/resolvers/xforms/cart.js:229 | one transformed group per fulfillment group, in the same order |
| CartCheckout.XformAllPayments | imports/plugins/core/graphql/server/no-meteor/resolvers/xforms/cart.js:230 | one resolved payment per billing entry, in the same order, each for the same total |
| CartCheckout.SumItemTotal | imports/plugins/core/graphql/server/no-meteor/resolvers/xforms/cart.js:176 | the `reduce` computes the sum of quantity times price-when-added over the items (0 for none) |
| CartCheckout.SumFulfillmentTotal | imports/plugins/core/graphql/server/no-meteor/resolvers/xforms/cart.js:181-199 | the `forEach` with its three mutable accumulators computes the specified fulfillment total |
| CartCheckout.XformCartCheckout | imports/plugins/core/graphql/server/no-meteor/resolvers/xforms/cart.js:174-248 | the method's checkout object is exactly the specified one, whose properties are the lemmas below |
| CartCheckout.CheckoutItemTotal | imports/plugins/core/graphql/server/no-meteor/resolvers/xforms/cart.js:237-240 | the summary's item total is the sum of quantity times price-when-added in the cart's currency, 0 for no items |
| CartCheckout.CheckoutFulfillmentTotal | imports/plugins/core/graphql/server/no-meteor/resolvers/xforms/cart.js:212-218 | the summary's fulfillment total is null exactly when there are no groups or none has a method, and otherwise holds the fee sum in the cart's currency |
| CartCheckout.CheckoutTaxTotal | imports/plugins/core/graphql/server/no-meteor/resolvers/xforms/cart.js:220-226 | the summary's tax total is null exactly when the tax ratio is not a number, and otherwise is item total times ratio in the cart's currency |
| CartCheckout.CheckoutGrandTotal | imports/plugins/core/graphql/server/no-meteor/resolvers/xforms/cart.js:208-210 | discount defaults to 0; the total is never negative, never below item + fulfillment + tax − discount with nulls as 0, and equals that balance or 0 |
| CartCheckout.CheckoutGroupsAndPayments | imports/plugins/core/graphql/server/no-meteor/resolvers/xforms/cart.js:228-230 | groups and payments follow `shipping` and `billing` one to one and in order; each payment is transformed with the grand total |
| CartCheckout.EveryPaymentChargedTotal | imports/plugins/core/graphql/server/no-meteor/resolvers/xforms/cart.js:160-163 | every payment on the cart, however many, is charged the whole grand total |
| CartCheckout.ItemTotalAppend | imports/plugins/core/graphql/server/no-meteor/resolvers/xforms/cart.js:175-176 | the item total of a concatenation is the sum of the parts' item totals |
| CartCheckout.ItemTotalIgnoresResolvedPrice | imports/plugins/core/graphql/server/no-meteor/resolvers/xforms/cart.js:176 | items that agree on quantity and price-when-added have the same item total, whatever their catalog-resolved prices |
| CartScenarios.ItemsOnlyTotals | imports/plugins/core/graphql/server/no-meteor/resolvers/xforms/cart.js:174-248 | two units at 10 and nothing else: item total 20, null fulfillment and tax, discount 0, total 20 |
| CartScenarios.ShippedTotals | imports/plugins/core/graphql/server/no-meteor/resolvers/xforms/cart.js:181-210 | adding rate 5 and handling 1 gives fulfillment 6 and total 26; a 0.1 tax ratio gives tax 2 and total 28; a discount of 5 gives 23, which the payment is charged |
| CartScenarios.DiscountClampsAtZero | imports/plugins/core/graphql/server/no-meteor/resolvers/xforms/cart.js:210 | a discount of 50 on a balance of 28 gives a total of 0 |
| CartScenarios.UnselectedGroupKeepsNull | imports/plugins/core/graphql/server/no-meteor/resolvers/xforms/cart.js:196-198 | one group without a method leaves the fulfillment total null |
| CartScenarios.MediaFallsBackToFirst | imports/plugins/core/graphql/server/no-meteor/resolvers/xforms/cart.js:58-59 | with media tagged "x" and "y", variant "z" gets the "x" entry |
| CartScenarios.MissingVariantIsInvalidParam | imports/plugins/core/graphql/server/no-meteor/resolvers/xforms/cart.js:46-49 | when the variant lookup finds nothing in the matched product, the item fails with `invalid-param` |

## Left out

- The opaque-id exports and `decodeCartItemsOpaqueIds` (cart.js lines 7-29): thin wrappers over an id codec and product decoders that are not part of this model.
- The `Catalog.find(...).toArray()` query and its `await` in `xformCartItems`: the fetched catalog documents are an argument, and the visibility and deletion filters the query applies are the database's, so products carry no `isVisible`/`isDeleted` fields.
- The internals of `findVariantInCatalogProduct` (it lives in another file): it is an arbitrary `VariantLookup` argument.
- JavaScript floating point: sums and the tax product are exact `real` arithmetic, so no rounding is modelled or claimed; `NaN` and non-numeric amounts are not modelled.
- The `Meteor.Error` message texts: only the error code (`not-found`, `invalid-param`) is kept.
- JavaScript dynamic shapes: a raw item has five fields, its id and the four the transform reads (`productId`, `variantId`, `quantity`, `priceWhenAdded`), and the object spread becomes the `raw` field; a media entry always has a URL set (`media.URLs` cannot be unset), and a pricing entry always has a price.
- Malformed documents: the model requires `priceWhenAdded` on every item, `product` on every catalog document and `pricing` on every variant, and the variant lookup always returns a value to destructure, so the TypeErrors the code throws when one of these is missing (cart.js lines 38, 40, 46 and 51) are not modelled.
- `imports/plugins/core/router/client/startup.js`: client start-up wiring (sessions, login hooks, subscriptions) with no computation to model.
