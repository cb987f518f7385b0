/**
 * The product detail modal: its gallery (index reset per product, previous,
 * next, thumbnails, fallback image), the preloaded neighbours, the low-stock
 * badge, and adding to the cart.
 */
module ProductModal {
  import opened Types
  import opened Text
  import opened Carousel
  import opened App

  /** Stock below this shows the low-stock badge. */
  const LowStock: int := 5

  class Modal {
    var product: Option<Product>
    var index: int
    var mainSrc: Option<string>

    /** Nothing shown yet: index 0 and an empty main source. */
    constructor ()
      ensures product == None && index == 0 && mainSrc == Some("")
    {
      product, index, mainSrc := None, 0, Some("");
    }

    /** A product is shown and the index points at one of its images. */
    predicate InRange()
      reads this
    {
      product.Some? && 0 <= index < |product.value.images|
    }

    /**
     * The `product` prop changes to `p`. For a product, the reset effect sets the
     * index to 0 and the source effect then shows the first image; for none, both
     * effects do nothing and the modal renders nothing.
     */
    method ShowProduct(p: Option<Product>)
      modifies this
      ensures product == p
      ensures p.Some? ==> index == 0 && mainSrc == At(p.value.images, 0)
      ensures p.None? ==> index == old(index) && mainSrc == old(mainSrc)
    {
      product := p;
      if p.Some? {
        index := 0;
        mainSrc := At(p.value.images, 0);
      }
    }

    /** The source effect, run when the index has changed. */
    method Step(i: int)
      requires product.Some?
      modifies this
      ensures product == old(product) && index == i
      ensures mainSrc == if i == old(index) then old(mainSrc) else At(product.value.images, i)
    {
      if i != index {
        index := i;
        mainSrc := At(product.value.images, i);
      }
    }

    /** `handlePrev`. */
    method PrevImage()
      requires product.Some?
      modifies this
      ensures product == old(product) && index == Prev(old(index), |product.value.images|)
      ensures old(InRange()) ==> InRange()
      ensures mainSrc == if index == old(index) then old(mainSrc) else At(product.value.images, index)
    {
      Step(Prev(index, |product.value.images|));
    }

    /** `handleNext`. */
    method NextImage()
      requires product.Some?
      modifies this
      ensures product == old(product) && index == Next(old(index), |product.value.images|)
      ensures old(InRange()) ==> InRange()
      ensures mainSrc == if index == old(index) then old(mainSrc) else At(product.value.images, index)
    {
      Step(Next(index, |product.value.images|));
    }

    /** A click on thumbnail `idx`. */
    method SelectThumbnail(idx: nat)
      requires product.Some? && idx < |product.value.images|
      modifies this
      ensures product == old(product) && index == idx && InRange()
      ensures mainSrc == if idx == old(index) then old(mainSrc) else Some(product.value.images[idx])
    {
      Step(idx);
    }

    /** A load error of the main image: the fallback replaces the source. */
    method ImageError()
      modifies this
      ensures mainSrc == Some(FallbackImage) && product == old(product) && index == old(index)
    {
      mainSrc := Some(FallbackImage);
    }

    /** `mainImgSrc || FALLBACK_IMAGE`: an empty or missing source shows the fallback. */
    function Displayed(): (r: string)
      reads this
      ensures r != ""
      ensures mainSrc.Some? && mainSrc.value != "" ==> r == mainSrc.value
      ensures mainSrc.None? || mainSrc.value == "" ==> r == FallbackImage
    {
      if mainSrc.Some? && mainSrc.value != "" then mainSrc.value else FallbackImage
    }

    /** The neighbours preloaded for a product with several images: those next and previous show. */
    method Preloads() returns (next: int, prev: int)
      requires product.Some? && |product.value.images| > 1
      ensures 0 <= index < |product.value.images| ==>
        next == Next(index, |product.value.images|) && prev == Prev(index, |product.value.images|)
    {
      var len := |product.value.images|;
      next := PreloadNext(index, len);
      prev := if index == 0 then len - 1 else index - 1;
      PreloadIsNext(index, len);
    }

    /**
     * The badge `onlyLeft.replace('{n}', stock)`, shown only while fewer than five
     * are in stock.
     */
    function LowStockBadge(template: string): (r: Option<string>)
      reads this
      requires product.Some?
      ensures r.Some? <==> product.value.stock < LowStock
    {
      if product.value.stock < LowStock then
        Some(ReplaceFirst(template, "{n}", IntToDecimal(product.value.stock)))
      else None
    }

    /** The add button: `onAddToCart(product)` and then `onClose()`, which unselects the product. */
    method AddAndClose(shop: Shop)
      requires product.Some? && shop.Valid()
      modifies this, shop
      ensures shop.Valid()
      ensures shop.State() == old(shop.State()).(cartItems := AddToCartList(old(shop.cartItems), old(product).value),
                                                  isCartOpen := true)
      ensures product == None && index == old(index) && mainSrc == old(mainSrc)
    {
      shop.AddToCart(product.value);
      ShowProduct(None);
    }
  }

  /**
   * The badge text: with a template whose text before `{n}` holds no `{`, the
   * placeholder is replaced by the stock in decimal.
   */
  lemma LowStockBadgeText(m: Modal, before: string, after: string)
    requires m.product.Some? && m.product.value.stock < LowStock
    requires '{' !in before
    ensures m.LowStockBadge(before + "{n}" + after) == Some(before + IntToDecimal(m.product.value.stock) + after)
  {
    ReplacePlaceholder(before, "{n}", after, IntToDecimal(m.product.value.stock));
  }

  /**
   * Opening a product shows its first image, or the fallback when it has none;
   * the gallery then stays on the product's images.
   */
  method OpenThenBrowse(m: Modal, p: Product)
    modifies m
    ensures m.product == Some(p) && m.index == 0
    ensures |p.images| >= 1 && p.images[0] != "" ==> m.Displayed() == p.images[0]
    ensures |p.images| == 0 ==> m.Displayed() == FallbackImage
    ensures |p.images| >= 1 ==> m.InRange()
  {
    m.ShowProduct(Some(p));
  }
}
