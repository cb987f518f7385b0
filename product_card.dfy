/**
 * A product card of the catalog grid: its image carousel, the source of the
 * image shown, and the fallback after a load error.
 */
module ProductCard {
  import opened Types
  import opened Carousel

  class Card {
    var product: Product
    var index: int
    var imgSrc: Option<string>

    /** The carousel starts on the first image. */
    constructor (p: Product)
      ensures product == p && index == 0 && imgSrc == At(p.images, 0)
    {
      product, index, imgSrc := p, 0, At(p.images, 0);
    }

    /** The index points at one of the product's images. */
    predicate InRange()
      reads this
    {
      0 <= index < |product.images|
    }

    /**
     * The card receives another product (the grid re-renders with a changed
     * catalog): the source effect shows the image at the same index, which is
     * not reset and so may point past the new images.
     */
    method ShowProduct(p: Product)
      modifies this
      ensures product == p && index == old(index) && imgSrc == At(p.images, old(index))
    {
      product := p;
      imgSrc := At(p.images, index);
    }

    /** The source effect, run when the index has changed. */
    method Step(i: int)
      modifies this
      ensures product == old(product) && index == i
      ensures imgSrc == if i == old(index) then old(imgSrc) else At(product.images, i)
    {
      if i != index {
        index := i;
        imgSrc := At(product.images, i);
      }
    }

    /** `handlePrevImage`, and the source effect it triggers. */
    method PrevImage()
      modifies this
      ensures product == old(product) && index == Prev(old(index), |old(product).images|)
      ensures old(InRange()) ==> InRange()
      ensures imgSrc == if index == old(index) then old(imgSrc) else At(product.images, index)
    {
      Step(Prev(index, |product.images|));
    }

    /** `handleNextImage`, and the source effect it triggers. */
    method NextImage()
      modifies this
      ensures product == old(product) && index == Next(old(index), |old(product).images|)
      ensures old(InRange()) ==> InRange()
      ensures imgSrc == if index == old(index) then old(imgSrc) else At(product.images, index)
    {
      Step(Next(index, |product.images|));
    }

    /** `handleImageError`: the fallback image replaces the source. */
    method ImageError()
      modifies this
      ensures imgSrc == Some(FallbackImage) && product == old(product) && index == old(index)
    {
      imgSrc := Some(FallbackImage);
    }

    /** The image preloaded, only for a product with several images: the one next would show. */
    function Preload(): (r: Option<int>)
      reads this
      ensures r.Some? <==> ShowsControls(|product.images|)
      ensures r.Some? && InRange() ==> r.value == Next(index, |product.images|)
    {
      if |product.images| > 1 then
        PreloadIsNext(index, |product.images|);
        Some(PreloadNext(index, |product.images|))
      else None
    }
  }

  /** From the first image every press of next or previous shows an image of the product. */
  lemma BrowsingShowsImages(p: Product, presses: seq<bool>)
    requires |p.images| >= 1
    ensures 0 <= Browse(0, |p.images|, presses) < |p.images|
  {
    BrowseInRange(0, |p.images|, presses);
  }

  /** The index after a sequence of presses, `true` for next and `false` for previous. */
  function Browse(i: int, len: int, presses: seq<bool>): int
    decreases |presses|
  {
    if presses == [] then i
    else Browse(if presses[0] then Next(i, len) else Prev(i, len), len, presses[1..])
  }

  lemma {:induction false} BrowseInRange(i: int, len: int, presses: seq<bool>)
    requires 0 <= i < len
    ensures 0 <= Browse(i, len, presses) < len
    decreases |presses|
  {
    if presses != [] {
      StepsInRange(i, len);
      BrowseInRange(if presses[0] then Next(i, len) else Prev(i, len), len, presses[1..]);
    }
  }
}
