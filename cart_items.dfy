/**
 * Item resolution: each stored cart item is joined against the catalog
 * documents already fetched for the cart, priced in the currency it was added
 * in, and given its stock flags, image and product configuration.
 */
module CartItems {
  import opened Wrappers
  import opened CartTypes

  /**
   * The nested-variant search helper: the variant of a catalog product with
   * the given id, if there is one. Its search order lies outside this model.
   */
  type VariantLookup = (CatalogProduct, Id) -> Option<Variant>

  /** The test of the catalog `find`: the document is for product `productId`. */
  function ForProduct(productId: Id): CatalogItem -> bool {
    (c: CatalogItem) => c.product.productId == productId
  }

  /** The test of the media `find`: the entry is tagged with `variantId`. */
  function ForVariant(variantId: Id): MediaItem -> bool {
    (m: MediaItem) => m.variantId == Some(variantId)
  }

  /** `k` is the first catalog document whose product has id `productId`. */
  predicate IsFirstCatalogMatch(catalog: seq<CatalogItem>, productId: Id, k: int) {
    IsFirst(catalog, ForProduct(productId), k)
  }

  /** `k` is the first media entry tagged with `variantId`. */
  predicate IsFirstMediaMatch(media: seq<MediaItem>, variantId: Id, k: int) {
    IsFirst(media, ForVariant(variantId), k)
  }

  /**
   * The media entry shown for a variant: the first entry tagged with the
   * variant, else the first entry of a non-empty list, else none.
   */
  function SelectMedia(media: Option<seq<MediaItem>>, variantId: Id): (r: Option<MediaItem>)
    ensures r.None? <==> media.None? || |media.value| == 0
    ensures media.Some? ==>
      forall k | IsFirstMediaMatch(media.value, variantId, k) :: r == Some(media.value[k])
    ensures (&& media.Some? && |media.value| > 0
             && forall k | 0 <= k < |media.value| :: media.value[k].variantId != Some(variantId))
        ==> r == Some(media.value[0])
  {
    match media
    case None => None
    case Some(entries) =>
      match FindFirst(entries, ForVariant(variantId))
      case Some(k) => Some(entries[k])
      case None => if |entries| > 0 then Some(entries[0]) else None
  }

  /** What a successfully resolved item holds, given its product and variant. */
  predicate ResolvedFrom(product: CatalogProduct, variant: Variant, item: CartItem, resolved: ResolvedItem)
    requires item.priceWhenAdded.currencyCode in variant.pricing
  {
    var currencyCode := item.priceWhenAdded.currencyCode;
    var info := variant.pricing[currencyCode];
    && resolved.raw == item
    && resolved.price == Money(info.price, currencyCode)
    && resolved.compareAtPrice == MoneyField(info.compareAtPrice, currencyCode)
    && resolved.currentQuantity == variant.quantity
    && (resolved.isBackorder <==> variant.isBackorder == Some(true))
    && (resolved.isLowQuantity <==> variant.isLowQuantity == Some(true))
    && (resolved.isSoldOut <==> variant.isSoldOut == Some(true))
    && (resolved.imageURLs.Some? <==> SelectMedia(product.media, item.variantId).Some?)
    && (resolved.imageURLs.Some? ==> resolved.imageURLs.value == SelectMedia(product.media, item.variantId).value.urls)
    && resolved.productConfiguration == ProductConfiguration(item.productId, item.variantId)
  }

  /**
   * How an item resolves once its catalog product is known: `invalid-param`
   * exactly when the variant is missing or has no price in the item's
   * currency, and otherwise the item built from that variant.
   */
  predicate ResolvesAgainst(product: CatalogProduct, found: Option<Variant>, item: CartItem, r: Result<ResolvedItem, ErrorKind>) {
    var currencyCode := item.priceWhenAdded.currencyCode;
    && (r == Err(InvalidParam) <==> found.None? || currencyCode !in found.value.pricing)
    && (r.Ok? ==> found.Some? && currencyCode in found.value.pricing && ResolvedFrom(product, found.value, item, r.value))
  }

  /** Resolve one cart item (`xformCartItem`). */
  function XformCartItem(catalog: seq<CatalogItem>, findVariant: VariantLookup, item: CartItem): (r: Result<ResolvedItem, ErrorKind>)
    ensures r == Err(NotFound) <==> forall k | 0 <= k < |catalog| :: catalog[k].product.productId != item.productId
    ensures forall k | IsFirstCatalogMatch(catalog, item.productId, k) ::
      ResolvesAgainst(catalog[k].product, findVariant(catalog[k].product, item.variantId), item, r)
    ensures r.Ok? ==> r.value.price.currencyCode == item.priceWhenAdded.currencyCode
  {
    var currencyCode := item.priceWhenAdded.currencyCode;
    match FindFirst(catalog, ForProduct(item.productId))
    case None => Err(NotFound)
    case Some(k) =>
      var product := catalog[k].product;
      match findVariant(product, item.variantId)
      case None => Err(InvalidParam)
      case Some(variant) =>
        if currencyCode !in variant.pricing then Err(InvalidParam)
        else
          var info := variant.pricing[currencyCode];
          var media := SelectMedia(product.media, item.variantId);
          Ok(ResolvedItem(
            raw := item,
            compareAtPrice := MoneyField(info.compareAtPrice, currencyCode),
            currentQuantity := variant.quantity,
            imageURLs := if media.Some? then Some(media.value.urls) else None,
            isBackorder := OrFalse(variant.isBackorder),
            isLowQuantity := OrFalse(variant.isLowQuantity),
            isSoldOut := OrFalse(variant.isSoldOut),
            price := Money(info.price, currencyCode),
            productConfiguration := ProductConfiguration(item.productId, item.variantId)))
  }

  /**
   * Resolve every item of a cart against the fetched catalog documents (the
   * `map` in `xformCartItems`); the first item that fails aborts the batch.
   */
  function XformCartItems(catalog: seq<CatalogItem>, findVariant: VariantLookup, items: seq<CartItem>): (r: Result<seq<ResolvedItem>, ErrorKind>)
    ensures r.Ok? <==> forall i | 0 <= i < |items| :: XformCartItem(catalog, findVariant, items[i]).Ok?
    ensures r.Ok? ==> |r.value| == |items|
    ensures r.Ok? ==> forall i | 0 <= i < |items| :: XformCartItem(catalog, findVariant, items[i]) == Ok(r.value[i])
    ensures r.Err? ==> exists i | 0 <= i < |items| ::
      && XformCartItem(catalog, findVariant, items[i]) == Err(r.error)
      && forall j | 0 <= j < i :: XformCartItem(catalog, findVariant, items[j]).Ok?
    decreases |items|
  {
    if |items| == 0 then Ok([])
    else
      match XformCartItem(catalog, findVariant, items[0])
      case Err(e) => Err(e)
      case Ok(first) =>
        match XformCartItems(catalog, findVariant, items[1..])
        case Err(e) => Err(e)
        case Ok(rest) => Ok([first] + rest)
  }
}
